/** The rich-content embed of a message: a mutable record whose fluent setters
    each assign one property and return the same instance, with the 25-field
    cap of `AddFields` and the 4000-code-unit cap of `SetDescription`. */
module Embeds {
  import opened Wrappers
  import opened EmbedFields
  import opened Utf16

  /** .NET values the embed only stores: a parsed `Uri`, a `System.Drawing.Color`
      and a `DateTime`. Their construction is not part of this model. */
  datatype Uri = Uri(text: string)
  datatype Color = Color(argb: int)
  datatype Timestamp = Timestamp(ticks: int)

  datatype EmbedAuthor = EmbedAuthor(name: string, url: Option<Uri>, iconUrl: Option<Uri>)
  datatype EmbedMedia = EmbedMedia(url: Uri)
  datatype EmbedFooter = EmbedFooter(text: string, iconUrl: Option<Uri>)

  /** The `OverflowException` of the two caps and the `ArgumentNullException`s. */
  datatype EmbedError = Overflow | NullArgument(paramName: string)

  /** The most fields an embed may have. */
  const FieldLimit := 25

  /** The longest description an embed may have, in UTF-16 code units. */
  const DescriptionLimit := 4000

  /** All properties of an embed; `None` is `null`. */
  datatype EmbedState = EmbedState(
    title: Option<string>,
    url: Option<Uri>,
    description: Option<string>,
    author: Option<EmbedAuthor>,
    color: Option<Color>,
    thumbnail: Option<EmbedMedia>,
    image: Option<EmbedMedia>,
    fields: Option<seq<EmbedField>>,
    footer: Option<EmbedFooter>,
    timestamp: Option<Timestamp>)

  const EmptyState := EmbedState(None, None, None, None, None, None, None, None, None, None)

  // ---------------------------------------------------------------------------
  // The two checked updates, as functions of the state

  /** `AddFields`: the lifted sum `Fields?.Count + n` is null while `Fields` is
      null, and a comparison with null is false, so the cap applies only once
      there is a field list. On success the new fields follow the old ones. */
  function AddingFields(s: EmbedState, fs: seq<EmbedField>): (r: Result<EmbedState, EmbedError>)
    ensures r.Failure? <==> s.fields.Some? && |s.fields.value| + |fs| > FieldLimit
    ensures r.Failure? ==> r.error == Overflow
    ensures r.Success? ==> r.value == s.(fields := Some(s.fields.GetOr([]) + fs))
  {
    match s.fields
    case Some(current) => if |current| + |fs| > FieldLimit then Failure(Overflow) else Success(s.(fields := Some(current + fs)))
    case None =>
      assert [] + fs == fs;
      Success(s.(fields := Some(fs)))
  }

  /** `SetDescription`: refuses a text whose `Length` passes the limit; null is accepted. */
  function SettingDescription(s: EmbedState, value: Option<string>): (r: Result<EmbedState, EmbedError>)
    ensures r.Failure? <==> value.Some? && Utf16Length(value.value) > DescriptionLimit
    ensures r.Failure? ==> r.error == Overflow
    ensures r.Success? ==> r.value == s.(description := value)
  {
    if value.Some? && Utf16Length(value.value) > DescriptionLimit then Failure(Overflow) else Success(s.(description := value))
  }

  /** An embed within the cap stays within it, and failure leaves the fields as they were. */
  lemma AddingFieldsKeepsCap(s: EmbedState, fs: seq<EmbedField>)
    requires s.fields.Some? && |s.fields.value| <= FieldLimit
    ensures AddingFields(s, fs).Success? ==>
      && AddingFields(s, fs).value.fields.Some?
      && |AddingFields(s, fs).value.fields.value| <= FieldLimit
  {
  }

  /** Adding keeps the old fields in front, in order, and the new ones after them;
      no other property changes. */
  lemma AddingFieldsAppends(s: EmbedState, fs: seq<EmbedField>)
    requires AddingFields(s, fs).Success?
    ensures var t := AddingFields(s, fs).value;
      var n := |s.fields.GetOr([])|;
      && t.fields.Some? && |t.fields.value| == n + |fs|
      && t.fields.value[..n] == s.fields.GetOr([])
      && t.fields.value[n..] == fs
      && t.(fields := s.fields) == s
  {
    var t := AddingFields(s, fs).value;
    var n := |s.fields.GetOr([])|;
    assert t.fields.value == s.fields.GetOr([]) + fs;
  }

  /** Once there is a field list, adding in two calls is adding once: both
      succeed exactly when the single call does, with the same result. */
  lemma AddingFieldsTwice(s: EmbedState, a: seq<EmbedField>, b: seq<EmbedField>)
    requires s.fields.Some?
    ensures (AddingFields(s, a).Success? && AddingFields(AddingFields(s, a).value, b).Success?) <==>
      AddingFields(s, a + b).Success?
    ensures AddingFields(s, a + b).Success? ==>
      AddingFields(AddingFields(s, a).value, b) == AddingFields(s, a + b)
  {
    if AddingFields(s, a + b).Success? {
      assert s.fields.value + a + b == s.fields.value + (a + b);
    }
  }

  /** Without a field list the cap does not apply: any number of fields is
      accepted in one call, but not when split over two. */
  lemma NullFieldsSkipTheCap(s: EmbedState, a: seq<EmbedField>, b: seq<EmbedField>)
    requires s.fields.None? && |a| + |b| > FieldLimit
    ensures AddingFields(s, a + b) == Success(s.(fields := Some(a + b)))
    ensures AddingFields(s, a).Success? && AddingFields(AddingFields(s, a).value, b).Failure?
  {
  }

  /** A description of exactly the limit is accepted, one code unit more is refused. */
  lemma DescriptionBoundary(s: EmbedState, text: string)
    ensures Utf16Length(text) == DescriptionLimit ==> SettingDescription(s, Some(text)).Success?
    ensures Utf16Length(text) == DescriptionLimit + 1 ==> SettingDescription(s, Some(text)).Failure?
    ensures SettingDescription(s, None) == Success(s.(description := None))
  {
  }

  /** A character outside the Basic Multilingual Plane counts twice, so a text
      of such characters is refused once it has more than 2000 of them. */
  lemma AstralDescription(s: EmbedState, text: string)
    requires forall i :: 0 <= i < |text| ==> text[i] > '\U{FFFF}'
    ensures |text| > DescriptionLimit / 2 ==> SettingDescription(s, Some(text)).Failure?
    ensures |text| <= DescriptionLimit / 2 ==> SettingDescription(s, Some(text)).Success?
  {
    Utf16LengthOfPlane(text);
  }

  // ---------------------------------------------------------------------------
  // The class

  class Embed {
    var title: Option<string>
    var url: Option<Uri>
    var description: Option<string>
    var author: Option<EmbedAuthor>
    var color: Option<Color>
    var thumbnail: Option<EmbedMedia>
    var image: Option<EmbedMedia>
    var fields: Option<seq<EmbedField>>
    var footer: Option<EmbedFooter>
    var timestamp: Option<Timestamp>

    function State(): EmbedState
      reads this
    {
      EmbedState(title, url, description, author, color, thumbnail, image, fields, footer, timestamp)
    }

    /** `Embed()`: every property null. */
    constructor ()
      ensures State() == EmptyState
    {
      title, url, description, author, color := None, None, None, None, None;
      thumbnail, image, fields, footer, timestamp := None, None, None, None, None;
    }

    /** `Embed(string description)`: the description, unchecked against the limit. */
    constructor OfDescription(description: string)
      ensures State() == EmptyState.(description := Some(description))
    {
      title, url, this.description, author, color := None, None, Some(description), None, None;
      thumbnail, image, fields, footer, timestamp := None, None, None, None, None;
    }

    /** `Embed(string title, string description)`. */
    constructor OfTitle(title: string, description: string)
      ensures State() == EmptyState.(title := Some(title), description := Some(description))
    {
      this.title, url, this.description, author, color := Some(title), None, Some(description), None, None;
      thumbnail, image, fields, footer, timestamp := None, None, None, None, None;
    }

    /** `Embed(IList<EmbedField> fields)`: the fields, unchecked against the cap. */
    constructor OfFields(fields: seq<EmbedField>)
      ensures State() == EmptyState.(fields := Some(fields))
    {
      title, url, description, author, color := None, None, None, None, None;
      thumbnail, image, this.fields, footer, timestamp := None, None, Some(fields), None, None;
    }

    method SetTitle(value: Option<string>) returns (r: Embed)
      modifies this
      ensures r == this && State() == old(State()).(title := value)
    {
      title := value;
      r := this;
    }

    method SetUrl(value: Uri) returns (r: Embed)
      modifies this
      ensures r == this && State() == old(State()).(url := Some(value))
    {
      url := Some(value);
      r := this;
    }

    /** Fails with `Overflow` and changes nothing when the text is too long. */
    method SetDescription(value: Option<string>) returns (r: Result<Embed, EmbedError>)
      modifies this
      ensures SettingDescription(old(State()), value).Failure? ==>
        r == Failure(Overflow) && State() == old(State())
      ensures SettingDescription(old(State()), value).Success? ==>
        r == Success(this) && State() == SettingDescription(old(State()), value).value
    {
      if value.Some? && Utf16Length(value.value) > DescriptionLimit {
        return Failure(Overflow);
      }
      description := value;
      r := Success(this);
    }

    /** `SetDescription(object?)`: null becomes the empty description. */
    method SetDescriptionOfObject(value: Option<string>) returns (r: Result<Embed, EmbedError>)
      modifies this
      ensures SettingDescription(old(State()), Some(TextOf(value))).Failure? ==>
        r == Failure(Overflow) && State() == old(State())
      ensures SettingDescription(old(State()), Some(TextOf(value))).Success? ==>
        r == Success(this) && State() == old(State()).(description := Some(TextOf(value)))
    {
      r := SetDescription(Some(TextOf(value)));
    }

    method SetAuthor(value: EmbedAuthor) returns (r: Embed)
      modifies this
      ensures r == this && State() == old(State()).(author := Some(value))
    {
      author := Some(value);
      r := this;
    }

    /** `SetAuthor(string name, Uri? url = null, Uri? icon = null)`. */
    method SetAuthorNamed(name: string, url: Option<Uri>, icon: Option<Uri>) returns (r: Embed)
      modifies this
      ensures r == this && State() == old(State()).(author := Some(EmbedAuthor(name, url, icon)))
    {
      r := SetAuthor(EmbedAuthor(name, url, icon));
    }

    /** Fails with `Overflow` and changes nothing when the cap would be passed. */
    method AddFields(fs: seq<EmbedField>) returns (r: Result<Embed, EmbedError>)
      modifies this
      ensures AddingFields(old(State()), fs).Failure? ==>
        r == Failure(Overflow) && State() == old(State())
      ensures AddingFields(old(State()), fs).Success? ==>
        r == Success(this) && State() == AddingFields(old(State()), fs).value
    {
      if fields.Some? && |fields.value| + |fs| > FieldLimit {
        return Failure(Overflow);
      } else if fields.None? {
        fields := Some(fs);
      } else {
        fields := Some(fields.value + fs);
      }
      r := Success(this);
    }

    method AddField(field: EmbedField) returns (r: Result<Embed, EmbedError>)
      modifies this
      ensures AddingFields(old(State()), [field]).Failure? ==>
        r == Failure(Overflow) && State() == old(State())
      ensures AddingFields(old(State()), [field]).Success? ==>
        r == Success(this) && State() == AddingFields(old(State()), [field]).value
    {
      r := AddFields([field]);
    }

    /** `AddField(string name, string value, bool inline)`: the field's own null
        checks come first and, when they fail, nothing changes. */
    method AddNamedField(name: Option<string>, value: Option<string>, inline: bool) returns (r: Result<Embed, EmbedError>)
      modifies this
      ensures NewEmbedField(name, value, inline).Failure? ==>
        r == Failure(NullArgument(NewEmbedField(name, value, inline).error.paramName)) && State() == old(State())
      ensures NewEmbedField(name, value, inline).Success? ==>
        var f := NewEmbedField(name, value, inline).value;
        && (AddingFields(old(State()), [f]).Failure? ==> r == Failure(Overflow) && State() == old(State()))
        && (AddingFields(old(State()), [f]).Success? ==> r == Success(this) && State() == AddingFields(old(State()), [f]).value)
    {
      match NewEmbedField(name, value, inline)
      case Failure(e) =>
        r := Failure(NullArgument(e.paramName));
      case Success(f) =>
        r := AddField(f);
    }

    /** `AddField(string name, object? value, bool inline)`: a null value becomes "". */
    method AddFieldOfObject(name: Option<string>, value: Option<string>, inline: bool) returns (r: Result<Embed, EmbedError>)
      modifies this
      ensures name.None? ==> r == Failure(NullArgument("name")) && State() == old(State())
      ensures name.Some? ==>
        var f := EmbedField(name.value, TextOf(value), inline);
        && (AddingFields(old(State()), [f]).Failure? ==> r == Failure(Overflow) && State() == old(State()))
        && (AddingFields(old(State()), [f]).Success? ==> r == Success(this) && State() == AddingFields(old(State()), [f]).value)
    {
      r := AddNamedField(name, Some(TextOf(value)), inline);
    }

    method SetImage(value: EmbedMedia) returns (r: Embed)
      modifies this
      ensures r == this && State() == old(State()).(image := Some(value))
    {
      image := Some(value);
      r := this;
    }

    /** `SetImage(Uri url)`: wraps the address in a media object. */
    method SetImageUri(url: Uri) returns (r: Embed)
      modifies this
      ensures r == this && State() == old(State()).(image := Some(EmbedMedia(url)))
    {
      r := SetImage(EmbedMedia(url));
    }

    method SetThumbnail(value: EmbedMedia) returns (r: Embed)
      modifies this
      ensures r == this && State() == old(State()).(thumbnail := Some(value))
    {
      thumbnail := Some(value);
      r := this;
    }

    /** `SetThumbnail(Uri url)`. */
    method SetThumbnailUri(url: Uri) returns (r: Embed)
      modifies this
      ensures r == this && State() == old(State()).(thumbnail := Some(EmbedMedia(url)))
    {
      thumbnail := Some(EmbedMedia(url));
      r := this;
    }

    method SetFooter(value: EmbedFooter) returns (r: Embed)
      modifies this
      ensures r == this && State() == old(State()).(footer := Some(value))
    {
      footer := Some(value);
      r := this;
    }

    /** `SetFooter(string text)`: a null text is refused and nothing changes. */
    method SetFooterText(text: Option<string>) returns (r: Result<Embed, EmbedError>)
      modifies this
      ensures text.None? ==> r == Failure(NullArgument("text")) && State() == old(State())
      ensures text.Some? ==> r == Success(this) && State() == old(State()).(footer := Some(EmbedFooter(text.value, None)))
    {
      if text.None? {
        return Failure(NullArgument("text"));
      }
      var e := SetFooter(EmbedFooter(text.value, None));
      r := Success(e);
    }

    /** `SetFooter(string text, Uri? icon = null)`. */
    method SetFooterWithIcon(text: string, icon: Option<Uri>) returns (r: Embed)
      modifies this
      ensures r == this && State() == old(State()).(footer := Some(EmbedFooter(text, icon)))
    {
      r := SetFooter(EmbedFooter(text, icon));
    }

    /** `SetFooter(object? value)`: a null value becomes "", so it never fails. */
    method SetFooterOfObject(value: Option<string>) returns (r: Result<Embed, EmbedError>)
      modifies this
      ensures r == Success(this) && State() == old(State()).(footer := Some(EmbedFooter(TextOf(value), None)))
    {
      r := SetFooterText(Some(TextOf(value)));
    }

    method SetTimestamp(value: Timestamp) returns (r: Embed)
      modifies this
      ensures r == this && State() == old(State()).(timestamp := Some(value))
    {
      timestamp := Some(value);
      r := this;
    }

    /** `SetTimestamp()`: the current time, passed in as `now`. */
    method SetTimestampNow(now: Timestamp) returns (r: Embed)
      modifies this
      ensures r == this && State() == old(State()).(timestamp := Some(now))
    {
      r := SetTimestamp(now);
    }

    method SetColor(value: Color) returns (r: Embed)
      modifies this
      ensures r == this && State() == old(State()).(color := Some(value))
    {
      color := Some(value);
      r := this;
    }
  }

  /** Fluent calls chain on one instance: title, then description, then a
      field, give all three on the same embed. */
  method BuildExample(title: string, text: string, field: EmbedField) returns (e: Embed)
    requires Utf16Length(text) <= DescriptionLimit
    ensures e.State() == EmptyState.(title := Some(title), description := Some(text), fields := Some([field]))
  {
    e := new Embed();
    var same := e.SetTitle(Some(title));
    var described := e.SetDescription(Some(text));
    var added := e.AddField(field);
  }
}
