/** A field of an embed: a title, a Markdown value and an inline flag, with
    the constructors that validate them. */
module EmbedFields {
  import opened Wrappers

  datatype EmbedField = EmbedField(name: string, value: string, inline: bool)

  /** The `ArgumentNullException` of a constructor, naming the null parameter. */
  datatype FieldError = ArgumentNull(paramName: string)

  /** The primary constructor, `null` being `None`: the name is checked before
      the value; `inline` defaults to false at the call sites below. */
  function NewEmbedField(name: Option<string>, value: Option<string>, inline: bool): (r: Result<EmbedField, FieldError>)
    ensures r.Success? <==> name.Some? && value.Some?
    ensures r.Success? ==> r.value == EmbedField(name.value, value.value, inline)
    ensures name.None? ==> r == Failure(ArgumentNull("name"))
    ensures name.Some? && value.None? ==> r == Failure(ArgumentNull("value"))
  {
    if name.None? then Failure(ArgumentNull("name"))
    else if value.None? then Failure(ArgumentNull("value"))
    else Success(EmbedField(name.value, value.value, inline))
  }

  /** `EmbedField(string value, bool inline)`: an untitled field. */
  function NewUntitledField(value: Option<string>, inline: bool): (r: Result<EmbedField, FieldError>)
    ensures r.Success? <==> value.Some?
    ensures r.Success? ==> r.value.name == "" && r.value.value == value.value && r.value.inline == inline
    ensures r.Failure? ==> r.error == ArgumentNull("value")
  {
    NewEmbedField(Some(""), value, inline)
  }

  /** `object?.ToString() ?? string.Empty`: the text of an object, `None`
      standing for a null object or a null `ToString()` result. */
  function TextOf(o: Option<string>): (r: string)
    ensures o.Some? ==> r == o.value
    ensures o.None? ==> r == ""
  {
    o.GetOr("")
  }

  /** `EmbedField(object? name, object? value, bool inline)`: null becomes the
      empty string, so it never throws. */
  function FieldOfObjects(name: Option<string>, value: Option<string>, inline: bool): (r: EmbedField)
    ensures r == EmbedField(TextOf(name), TextOf(value), inline)
    ensures NewEmbedField(Some(TextOf(name)), Some(TextOf(value)), inline) == Success(r)
  {
    EmbedField(TextOf(name), TextOf(value), inline)
  }

  /** `EmbedField(object? value, bool inline)`: an untitled field that never throws. */
  function FieldOfObject(value: Option<string>, inline: bool): (r: EmbedField)
    ensures r.name == "" && r.value == TextOf(value) && r.inline == inline
    ensures NewUntitledField(Some(TextOf(value)), inline) == Success(r)
  {
    EmbedField("", TextOf(value), inline)
  }

  /** A field built from non-null strings keeps them exactly, whichever overload builds it. */
  lemma OverloadsAgree(name: string, value: string, inline: bool)
    ensures NewEmbedField(Some(name), Some(value), inline) == Success(FieldOfObjects(Some(name), Some(value), inline))
    ensures NewUntitledField(Some(value), inline) == Success(FieldOfObject(Some(value), inline))
    ensures FieldOfObjects(Some(""), Some(value), inline) == FieldOfObject(Some(value), inline)
  {
  }

  /** A null name is reported even when the value is null too. */
  lemma NameCheckedFirst(inline: bool)
    ensures NewEmbedField(None, None, inline) == Failure(ArgumentNull("name"))
  {
  }
}
