/**
  The decorator's two lookup tables (the `TYPES` and `VALIDATIONS` properties of
  the base class) and the two lookups made through them.
 */
module Tables {
  import opened PhpValue

  /** Framework element type to the client's field type. */
  const TYPES: map<string, string> := map[
    "StaticText" := "staticText",
    "Text" := "text",
    "Textarea" := "textarea",
    "Password" := "password",
    "Email" := "email",
    "Telephone" := "tel",
    "Url" := "url",
    "Number" := "number",
    "Date" := "date",
    "SingleSelect" := "select",
    "FileUpload" := "file",
    "Checkbox" := "checkbox",
    "MultiCheckbox" := "checkbox",
    "RadioButton" := "radio"
  ]

  /** Validator identifier to the client's validation keyword. */
  const VALIDATIONS: map<string, string> := map[
    "EmailAddress" := "email",
    "NotEmpty" := "required",
    "Number" := "number"
  ]

  /** Client type of every element type the table does not know. */
  const HIDDEN := "hidden"

  /**
    `$types[$type] ?? 'hidden'` for a `type` that is a valid array key (not an
    array). The tables have string keys only, so a null, boolean or integer
    key is never found.
   */
  function TypeTag(types: map<string, string>, t: Value): (tag: string)
    requires !IsArray(t)
    ensures t.Str? && t.s in types ==> tag == types[t.s]
    ensures tag == HIDDEN || (t.Str? && t.s in types)
  {
    if t.Str? && t.s in types then types[t.s] else HIDDEN
  }

  /**
    `$validations[$id] ?? $id`, converted to a string as `join` does: a known
    identifier is replaced by its keyword, any other passes through.
   */
  function Keyword(validations: map<string, string>, id: Value): (k: string)
    requires !IsArray(id)
    ensures id.Str? && id.s in validations ==> k == validations[id.s]
    ensures k == StringOf(id) || (id.Str? && id.s in validations)
  {
    if id.Str? && id.s in validations then validations[id.s] else StringOf(id)
  }

  /** Under the default table, `hidden` is the tag of exactly the unknown types. */
  lemma HiddenIffUnknown(t: Value)
    requires !IsArray(t)
    ensures TypeTag(TYPES, t) == HIDDEN <==> !(t.Str? && t.s in TYPES)
  {
  }

  /** The client types of the text-like framework types. */
  lemma DefaultTextTags()
    ensures TypeTag(TYPES, Str("StaticText")) == "staticText"
    ensures TypeTag(TYPES, Str("Text")) == "text"
    ensures TypeTag(TYPES, Str("Textarea")) == "textarea"
    ensures TypeTag(TYPES, Str("Password")) == "password"
    ensures TypeTag(TYPES, Str("Email")) == "email"
  {
  }

  /** The client types of the typed-input framework types. */
  lemma DefaultInputTags()
    ensures TypeTag(TYPES, Str("Telephone")) == "tel"
    ensures TypeTag(TYPES, Str("Url")) == "url"
    ensures TypeTag(TYPES, Str("Number")) == "number"
    ensures TypeTag(TYPES, Str("Date")) == "date"
    ensures TypeTag(TYPES, Str("FileUpload")) == "file"
  {
  }

  /** The client types of the choice framework types. */
  lemma DefaultChoiceTags()
    ensures TypeTag(TYPES, Str("SingleSelect")) == "select"
    ensures TypeTag(TYPES, Str("Checkbox")) == "checkbox"
    ensures TypeTag(TYPES, Str("MultiCheckbox")) == "checkbox"
    ensures TypeTag(TYPES, Str("RadioButton")) == "radio"
  {
  }

  /** Types the table does not list, containers among them, are hidden. */
  lemma DefaultHiddenTags()
    ensures TypeTag(TYPES, Str("ImageUpload")) == HIDDEN
    ensures TypeTag(TYPES, Str("Fieldset")) == HIDDEN
    ensures TypeTag(TYPES, Str("Page")) == HIDDEN
    ensures TypeTag(TYPES, Str("GridRow")) == HIDDEN
    ensures TypeTag(TYPES, Null) == HIDDEN
  {
  }

  /** Known validators get their keyword; unknown identifiers pass through. */
  lemma DefaultKeywords(id: string)
    ensures Keyword(VALIDATIONS, Str("EmailAddress")) == "email"
    ensures Keyword(VALIDATIONS, Str("NotEmpty")) == "required"
    ensures Keyword(VALIDATIONS, Str("Number")) == "number"
    ensures id !in VALIDATIONS ==> Keyword(VALIDATIONS, Str(id)) == id
  {
  }
}
