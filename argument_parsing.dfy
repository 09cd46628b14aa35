/** The declared types a command parameter may have, and the conversion of one
    raw message token into a value of such a type. */
module ArgumentParsing {
  import opened Wrappers

  /** The declared type of a command parameter. `StringArrayType` is `string[]`,
      the rest parameter; `OtherType` is any .NET type outside the allow-list. */
  datatype ArgType =
    | StringType | BoolType
    | IntType | LongType | ShortType | SByteType
    | UIntType | ULongType | UShortType | ByteType
    | FloatType | DoubleType | DecimalType | DateTimeType
    | GuidType | HashIdType
    | StringArrayType
    | OtherType(typeName: string)

  /** The closed allow-list of sixteen parameter types, in the order the source lists them. */
  const AllowedTypes: seq<ArgType> :=
    [ StringType, BoolType,
      IntType, LongType, ShortType, SByteType,
      UIntType, ULongType, UShortType, ByteType,
      FloatType, DoubleType, DecimalType, DateTimeType,
      GuidType, HashIdType ]

  predicate IsIntegerType(t: ArgType) {
    t.SByteType? || t.ByteType? || t.ShortType? || t.UShortType? ||
    t.IntType? || t.UIntType? || t.LongType? || t.ULongType?
  }

  /** Types whose parser is .NET code outside this model (floating point,
      culture-dependent dates, GUIDs, the platform's short ids). */
  predicate IsForeignType(t: ArgType) {
    t.FloatType? || t.DoubleType? || t.DecimalType? || t.DateTimeType? || t.GuidType? || t.HashIdType?
  }

  lemma AllowListIsClosed(t: ArgType)
    ensures |AllowedTypes| == 16
    ensures t in AllowedTypes <==> t.StringType? || t.BoolType? || IsIntegerType(t) || IsForeignType(t)
    ensures StringArrayType !in AllowedTypes
  {
    if t in AllowedTypes {
      var i :| 0 <= i < |AllowedTypes| && AllowedTypes[i] == t;
    }
    match t
    case StringType => assert AllowedTypes[0] == t;
    case BoolType => assert AllowedTypes[1] == t;
    case IntType => assert AllowedTypes[2] == t;
    case LongType => assert AllowedTypes[3] == t;
    case ShortType => assert AllowedTypes[4] == t;
    case SByteType => assert AllowedTypes[5] == t;
    case UIntType => assert AllowedTypes[6] == t;
    case ULongType => assert AllowedTypes[7] == t;
    case UShortType => assert AllowedTypes[8] == t;
    case ByteType => assert AllowedTypes[9] == t;
    case FloatType => assert AllowedTypes[10] == t;
    case DoubleType => assert AllowedTypes[11] == t;
    case DecimalType => assert AllowedTypes[12] == t;
    case DateTimeType => assert AllowedTypes[13] == t;
    case GuidType => assert AllowedTypes[14] == t;
    case HashIdType => assert AllowedTypes[15] == t;
    case StringArrayType =>
    case OtherType(_) =>
  }

  function MinValue(t: ArgType): int
    requires IsIntegerType(t)
  {
    if t.SByteType? then -0x80
    else if t.ShortType? then -0x8000
    else if t.IntType? then -0x8000_0000
    else if t.LongType? then -0x8000_0000_0000_0000
    else 0
  }

  function MaxValue(t: ArgType): int
    requires IsIntegerType(t)
  {
    if t.SByteType? then 0x7F
    else if t.ByteType? then 0xFF
    else if t.ShortType? then 0x7FFF
    else if t.UShortType? then 0xFFFF
    else if t.IntType? then 0x7FFF_FFFF
    else if t.UIntType? then 0xFFFF_FFFF
    else if t.LongType? then 0x7FFF_FFFF_FFFF_FFFF
    else 0xFFFF_FFFF_FFFF_FFFF
  }

  predicate InRange(t: ArgType, n: int)
    requires IsIntegerType(t)
  {
    MinValue(t) <= n <= MaxValue(t)
  }

  /** A converted argument value. Values of foreign types keep the token that
      their (unmodelled) parser accepted. */
  datatype Value =
    | StringValue(s: string)
    | BoolValue(b: bool)
    | IntegerValue(intType: ArgType, n: int)
    | ForeignValue(foreignType: ArgType, token: string)
    | RestValue(tokens: seq<string>)

  /** `v` is a value the handler may receive for a parameter declared as `t`. */
  predicate HasType(v: Value, t: ArgType) {
    match v
    case StringValue(_) => t == StringType
    case BoolValue(_) => t == BoolType
    case IntegerValue(it, n) => it == t && IsIntegerType(t) && InRange(t, n)
    case ForeignValue(ft, _) => ft == t && IsForeignType(t)
    case RestValue(_) => t == StringArrayType
  }

  // ---------------------------------------------------------------------------
  // Characters and trimming

  /** `char.IsWhiteSpace`: the separators used when no separator is configured,
      and what `bool.Parse` trims. */
  predicate IsWhiteSpace(c: char) {
    ('\U{9}' <= c <= '\U{D}') || c == ' ' || c == '\U{85}' || c == '\U{A0}' ||
    c == '\U{1680}' || ('\U{2000}' <= c <= '\U{200A}') || c == '\U{2028}' || c == '\U{2029}' ||
    c == '\U{202F}' || c == '\U{205F}' || c == '\U{3000}'
  }

  /** The white space that the integer parsers allow around the digits. */
  predicate IsNumberWhite(c: char) {
    ('\U{9}' <= c <= '\U{D}') || c == ' '
  }

  predicate IsWhiteOrNull(c: char) {
    IsWhiteSpace(c) || c == '\0'
  }

  /** Which characters a parser trims from the ends of a token. */
  datatype TrimKind = NumberWhite | WhiteOrNull | NullChars

  predicate Trims(kind: TrimKind, c: char) {
    match kind
    case NumberWhite => IsNumberWhite(c)
    case WhiteOrNull => IsWhiteOrNull(c)
    case NullChars => c == '\0'
  }

  /** Removes the longest prefix of trimmable characters. */
  function TrimStart(s: string, kind: TrimKind): (r: string)
    ensures |r| <= |s| && r == s[|s| - |r|..]
    ensures |r| > 0 ==> !Trims(kind, r[0])
    ensures forall i :: 0 <= i < |s| - |r| ==> Trims(kind, s[i])
  {
    if |s| > 0 && Trims(kind, s[0]) then
      var r := TrimStart(s[1..], kind);
      assert forall i :: 1 <= i < |s| - |r| ==> s[i] == s[1..][i - 1];
      r
    else s
  }

  /** Removes the longest suffix of trimmable characters. */
  function TrimEnd(s: string, kind: TrimKind): (r: string)
    ensures |r| <= |s| && r == s[..|r|]
    ensures |r| > 0 ==> !Trims(kind, r[|r| - 1])
    ensures forall i :: |r| <= i < |s| ==> Trims(kind, s[i])
  {
    if |s| > 0 && Trims(kind, s[|s| - 1]) then
      var r := TrimEnd(s[..|s| - 1], kind);
      assert forall i :: |r| <= i < |s| - 1 ==> s[i] == s[..|s| - 1][i];
      r
    else s
  }

  function Trim(s: string, kind: TrimKind): string {
    TrimEnd(TrimStart(s, kind), kind)
  }

  lemma TrimUntouched(s: string, kind: TrimKind)
    requires |s| > 0 ==> !Trims(kind, s[0]) && !Trims(kind, s[|s| - 1])
    ensures Trim(s, kind) == s
  {
  }

  // ---------------------------------------------------------------------------
  // Integers (`sbyte.Parse` .. `ulong.Parse`), idealised as invariant-culture decimal

  predicate IsDigit(c: char) {
    '0' <= c <= '9'
  }

  predicate AllDigits(s: string) {
    forall i :: 0 <= i < |s| ==> IsDigit(s[i])
  }

  function DigitsValue(s: string): nat
    requires AllDigits(s)
  {
    if s == [] then 0 else DigitsValue(s[..|s| - 1]) * 10 + (s[|s| - 1] as int - '0' as int)
  }

  function Digit(d: nat): char
    requires d < 10
  {
    ('0' as int + d) as char
  }

  /** The digits of `n` in base 10, most significant first, without leading zeros. */
  function DecimalDigits(n: nat): (s: string)
    ensures |s| > 0 && AllDigits(s)
  {
    if n < 10 then [Digit(n)] else DecimalDigits(n / 10) + [Digit(n % 10)]
  }

  /** `n.ToString()` for an integer. */
  function FormatInteger(n: int): string {
    if n < 0 then "-" + DecimalDigits(-n) else DecimalDigits(n)
  }

  /** The text `ParseDecimal` reads: trailing NUL characters dropped, then
      white space trimmed from both ends. */
  function DecimalBody(token: string): string {
    Trim(TrimEnd(token, NullChars), NumberWhite)
  }

  /** `t` is an optional sign followed by one or more decimal digits. */
  predicate IsSignedDigits(t: string) {
    if |t| > 0 && (t[0] == '-' || t[0] == '+') then |t| > 1 && AllDigits(t[1..])
    else |t| > 0 && AllDigits(t)
  }

  /** The value of a signed digit string. */
  function SignedValue(t: string): int
    requires IsSignedDigits(t)
  {
    if t[0] == '-' then -(DigitsValue(t[1..]) as int)
    else if t[0] == '+' then DigitsValue(t[1..])
    else DigitsValue(t)
  }

  /** Optional white space, an optional sign, one or more decimal digits,
      optional white space, optional NUL characters. The value is unbounded
      here; widths are checked by ParseInteger. */
  function ParseDecimal(token: string): (r: Option<int>)
    ensures r.Some? <==> IsSignedDigits(DecimalBody(token))
    ensures r.Some? ==> r.value == SignedValue(DecimalBody(token))
  {
    var t := DecimalBody(token);
    if |t| > 0 && (t[0] == '-' || t[0] == '+') then
      if |t| > 1 && AllDigits(t[1..]) then
        var magnitude: int := DigitsValue(t[1..]);
        Some(if t[0] == '-' then -magnitude else magnitude)
      else None
    else if |t| > 0 && AllDigits(t) then Some(DigitsValue(t))
    else None
  }

  /** The integer parser of width `t`: it fails on text that is not a decimal
      number and on numbers outside the width's range. */
  function ParseInteger(t: ArgType, token: string): (r: Option<int>)
    requires IsIntegerType(t)
    ensures r.Some? ==> InRange(t, r.value)
    ensures r.Some? <==> ParseDecimal(token).Some? && InRange(t, ParseDecimal(token).value)
    ensures r.Some? ==> r.value == ParseDecimal(token).value
  {
    match ParseDecimal(token)
    case Some(n) => if InRange(t, n) then Some(n) else None
    case None => None
  }

  lemma {:induction false} DigitsRoundTrip(n: nat)
    ensures DigitsValue(DecimalDigits(n)) == n
  {
    if n >= 10 {
      DigitsRoundTrip(n / 10);
      var s := DecimalDigits(n);
      assert s[..|s| - 1] == DecimalDigits(n / 10);
    }
  }

  /** Text that ends in a digit and does not start with white space is read as it is. */
  lemma BodyUntouched(s: string)
    requires |s| > 0 && IsDigit(s[|s| - 1]) && !IsNumberWhite(s[0])
    ensures DecimalBody(s) == s
  {
    assert TrimEnd(s, NullChars) == s;
    TrimUntouched(s, NumberWhite);
  }

  lemma {:induction false} DecimalRoundTrip(n: int)
    ensures ParseDecimal(FormatInteger(n)) == Some(n)
  {
    var s := FormatInteger(n);
    if n < 0 {
      var d := DecimalDigits(-n);
      DigitsRoundTrip(-n);
      assert s == "-" + d && s[1..] == d;
      assert s[|s| - 1] == d[|d| - 1];
      BodyUntouched(s);
      assert IsSignedDigits(s) && SignedValue(s) == n;
    } else {
      DigitsRoundTrip(n);
      assert IsDigit(s[0]);
      BodyUntouched(s);
      assert IsSignedDigits(s) && SignedValue(s) == n;
    }
  }

  /** Every integer's decimal text parses back to it exactly when the width can hold it. */
  lemma IntegerRoundTrip(t: ArgType, n: int)
    requires IsIntegerType(t)
    ensures ParseInteger(t, FormatInteger(n)) == if InRange(t, n) then Some(n) else None
  {
    DecimalRoundTrip(n);
  }

  // ---------------------------------------------------------------------------
  // Booleans (`bool.Parse`)

  function ToUpperAscii(c: char): char {
    if 'a' <= c <= 'z' then (c as int - 32) as char else c
  }

  predicate EqualsIgnoreCase(a: string, b: string) {
    |a| == |b| && forall i :: 0 <= i < |a| ==> ToUpperAscii(a[i]) == ToUpperAscii(b[i])
  }

  /** "True" or "False" in any letter case, optionally surrounded by white space or NUL characters. */
  function ParseBool(token: string): (r: Option<bool>)
    ensures r.Some? <==> EqualsIgnoreCase(Trim(token, WhiteOrNull), "true") || EqualsIgnoreCase(Trim(token, WhiteOrNull), "false")
    ensures r.Some? ==> (r.value <==> EqualsIgnoreCase(Trim(token, WhiteOrNull), "true"))
  {
    var t := Trim(token, WhiteOrNull);
    if EqualsIgnoreCase(t, "true") then Some(true)
    else if EqualsIgnoreCase(t, "false") then Some(false)
    else None
  }

  /** Trimming only shortens a token, so an accepted one has at least four characters. */
  lemma BoolTokenLength(token: string)
    requires ParseBool(token).Some?
    ensures |token| >= 4
  {
    assert |Trim(token, WhiteOrNull)| >= 4;
  }

  /** `bool.ToString()`. */
  function FormatBool(b: bool): string {
    if b then "True" else "False"
  }

  lemma BoolRoundTrip(b: bool)
    ensures ParseBool(FormatBool(b)) == Some(b)
  {
    var s := FormatBool(b);
    assert !IsWhiteOrNull(s[0]) && !IsWhiteOrNull(s[|s| - 1]);
    TrimUntouched(s, WhiteOrNull);
    if b {
      assert EqualsIgnoreCase(s, "true");
    } else {
      assert !EqualsIgnoreCase(s, "true");
      assert EqualsIgnoreCase(s, "false");
    }
  }

  // ---------------------------------------------------------------------------
  // One token of a non-rest parameter

  /** A `bool` parameter's value: the token as `bool.Parse` reads it. */
  function BoolArgument(token: string): (r: Option<Value>)
    ensures r.Some? <==> ParseBool(token).Some?
    ensures r.Some? ==> r.value == BoolValue(ParseBool(token).value)
  {
    match ParseBool(token)
    case Some(b) => Some(BoolValue(b))
    case None => None
  }

  /** An integer parameter's value: the token as the parser of its width reads it. */
  function IntegerArgument(t: ArgType, token: string): (r: Option<Value>)
    requires IsIntegerType(t)
    ensures r.Some? <==> ParseInteger(t, token).Some?
    ensures r.Some? ==> r.value == IntegerValue(t, ParseInteger(t, token).value) && InRange(t, r.value.n)
  {
    match ParseInteger(t, token)
    case Some(n) => Some(IntegerValue(t, n))
    case None => None
  }

  /** The conversion that the source's chain of `Parse` calls performs for a
      parameter declared as `t`. `accepts(t, token)` stands for the verdict of
      the .NET parser of a foreign type `t`. An unsupported type fails. */
  function ParseArgument(t: ArgType, token: string, accepts: (ArgType, string) -> bool): (r: Option<Value>)
    requires t != StringArrayType
    ensures r.Some? ==> HasType(r.value, t)
    ensures t == StringType ==> r == Some(StringValue(token))
    ensures IsIntegerType(t) ==> (r.Some? <==> ParseInteger(t, token).Some?)
    ensures IsIntegerType(t) && r.Some? ==> r.value == IntegerValue(t, ParseInteger(t, token).value)
    ensures t.OtherType? ==> r.None?
  {
    if t == StringType then Some(StringValue(token))
    else if t == BoolType then BoolArgument(token)
    else if IsIntegerType(t) then IntegerArgument(t, token)
    else if IsForeignType(t) then
      if accepts(t, token) then Some(ForeignValue(t, token)) else None
    else None
  }

  /** A `bool` argument is the token as `bool.Parse` reads it; a foreign
      argument is accepted exactly when its parser accepts the token, and then
      keeps the token. */
  lemma ParseArgumentBoolAndForeign(t: ArgType, token: string, accepts: (ArgType, string) -> bool)
    requires t != StringArrayType
    ensures t == BoolType ==>
      ParseArgument(t, token, accepts) == (if ParseBool(token).Some? then Some(BoolValue(ParseBool(token).value)) else None)
    ensures IsForeignType(t) ==>
      ParseArgument(t, token, accepts) == (if accepts(t, token) then Some(ForeignValue(t, token)) else None)
  {
  }
}
