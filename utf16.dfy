/** .NET's `string.Length`: the number of UTF-16 code units of a text. A Dafny
    `char` is a Unicode scalar value, and one above U+FFFF is a surrogate pair,
    two code units, in a .NET string. */
module Utf16 {
  /** The code units of one character: two for a character outside the Basic
      Multilingual Plane, one otherwise. */
  function CodeUnits(c: char): (r: nat)
    ensures r == 1 || r == 2
    ensures r == 2 <==> c > '\U{FFFF}'
  {
    if c > '\U{FFFF}' then 2 else 1
  }

  /** `s.Length` in C#. */
  function Utf16Length(s: string): (r: nat)
    ensures |s| <= r <= 2 * |s|
  {
    if s == [] then 0 else CodeUnits(s[0]) + Utf16Length(s[1..])
  }

  /** The length of a concatenation is the sum of the lengths. */
  lemma {:induction false} Utf16LengthAppend(a: string, b: string)
    ensures Utf16Length(a + b) == Utf16Length(a) + Utf16Length(b)
    decreases |a|
  {
    if a == [] {
      assert a + b == b;
    } else {
      assert (a + b)[1..] == a[1..] + b;
      Utf16LengthAppend(a[1..], b);
    }
  }

  /** A prefix is never longer than the whole text. */
  lemma Utf16LengthPrefix(s: string, k: nat)
    requires k <= |s|
    ensures Utf16Length(s[..k]) <= Utf16Length(s)
  {
    assert s == s[..k] + s[k..];
    Utf16LengthAppend(s[..k], s[k..]);
  }

  /** A text within the Basic Multilingual Plane has one code unit per
      character; a text wholly outside it has two. */
  lemma {:induction false} Utf16LengthOfPlane(s: string)
    ensures (forall i :: 0 <= i < |s| ==> s[i] <= '\U{FFFF}') ==> Utf16Length(s) == |s|
    ensures (forall i :: 0 <= i < |s| ==> s[i] > '\U{FFFF}') ==> Utf16Length(s) == 2 * |s|
    decreases |s|
  {
    if s != [] {
      Utf16LengthOfPlane(s[1..]);
      assert forall i :: 1 <= i < |s| ==> s[i] == s[1..][i - 1];
    }
  }
}
