/**
  What `AbstractFormDefinitionDecorator` computes, as functions of its inputs.
  The class in module Decorator performs the same work step by step, in the
  order of the PHP code, and is proved to agree with these functions.
 */
module DecoratorSpec {
  import opened PhpValue
  import opened Tables

  /** Why decorating a definition stops. */
  datatype Error =
    /** The root `identifier` is absent or not a string (`string $formId` under strict types). */
    | FormIdNotString
    /** The value under `key` is iterated, but is not an array. */
    | NotAnArray(key: string)
    /** An entry of a `renderables` list is not an array (`array $element`). */
    | NodeNotArray
    /** An array is used as a key of a lookup table ("Illegal offset type"). */
    | IllegalOffset(key: string)
    /** An offset of a non-array value under `key` is unset ("Cannot unset offset"). */
    | UnsetOnScalar(key: string)
    /** The string offset `key` is read from a string outside `isset`/`??` (a TypeError under PHP 8). */
    | StringOffset(key: string)
    /**
      PHP accepts the value under `key`, but this model does not follow it:
      a non-empty string-keyed map where a list is iterated (its order is
      not kept in a Dafny map), or a non-empty positional list used as a node.
     */
    | OutsideModel(key: string)

  datatype Result<T> = Ok(value: T) | Err(error: Error) {
    predicate IsFailure() { Err? }
    function PropagateFailure<U>(): Result<U> requires Err? { Err(error) }
    function Extract(): T requires Ok? { value }
  }

  /**
    What a decorator instance brings to the transformation: its two tables and
    its two override hooks (identity in the base class).
   */
  datatype Config = Config(
    types: map<string, string>,
    validations: map<string, string>,
    overrideElement: Fields -> Fields,
    overrideDefinition: (Fields, Fields, int) -> Fields)

  /** Read a list-valued entry: scalars are refused, a keyed map is outside the model. */
  function AsList(v: Value, key: string): (r: Result<seq<Value>>)
    ensures v.List? ==> r == Ok(v.items)
    ensures r.Ok? ==> IsArray(v) && |r.value| == Count(v)
    ensures !IsArray(v) ==> r == Err(NotAnArray(key))
  {
    match v
    case List(xs) => Ok(xs)
    case Obj(m) => if m == map[] then Ok([]) else Err(OutsideModel(key))
    case _ => Err(NotAnArray(key))
  }

  /**
    The container test of the walk: the type is exactly `Page`, `Fieldset` or
    `GridRow` (a strict comparison) and `renderables` is a non-empty array.
   */
  predicate IsContainer(m: Fields) {
    var t := GetKey(m, "type");
    var rs := GetKey(m, "renderables");
    (t == Str("Page") || t == Str("Fieldset") || t == Str("GridRow")) && IsArray(rs) && Count(rs) > 0
  }

  /** The request argument name of a field of form `formId`. */
  function FieldName(formId: string, identifier: Value): (r: string)
    ensures |r| >= 24 + |formId|
    ensures r[..22] == "tx_form_formframework[" && r[22..22 + |formId|] == formId
    ensures r[|r| - 1] == ']'
  {
    "tx_form_formframework[" + formId + "][" + StringOf(identifier) + "]"
  }

  /** The element with its `name` set, as handed to the element hook. */
  function Named(element: Fields, formId: string): (r: Fields)
    ensures r.Keys == element.Keys + {"name"}
  {
    element["name" := Str(FieldName(formId, GetKey(element, "identifier")))]
  }

  /** The element after the element hook. */
  function Hooked(c: Config, element: Fields, formId: string): Fields {
    c.overrideElement(Named(element, formId))
  }

  /** PHP's loose `in_array($type, ['ImageUpload', 'FileUpload'])`: `true` equals any non-empty string. */
  predicate IsUploadType(t: Value) {
    t == Str("ImageUpload") || t == Str("FileUpload") || t == Bool(true)
  }

  /** A value PHP refuses to unset an offset of (a null, `false` or an array is accepted). */
  predicate RefusesUnset(v: Value) {
    v.Str? || v.Num? || v == Bool(true)
  }

  /**
    The identifier of the validator made from `allowedMimeTypes`. The PHP code
    writes `'mime:' + join(',', ...)`, an arithmetic `+` that cannot yield this
    string; the model uses the evidently intended concatenation.
   */
  function MimeIdentifier(types: seq<Value>): (id: string)
    ensures |id| >= 5 && id[..5] == "mime:"
  {
    "mime:" + Join(",", StringsOf(types))
  }

  /** The validator made from `allowedMimeTypes`. */
  function MimeEntry(types: seq<Value>): (entry: Value)
    ensures Get(entry, "identifier") == Str(MimeIdentifier(types))
  {
    Obj(map["identifier" := Str(MimeIdentifier(types))])
  }

  /** `$validators[] = $entry`: appending to a list; null, `false` and an empty map start a new one. */
  function AppendEntry(validators: Value, entry: Value): (r: Result<Value>)
    ensures validators.List? ==> r == Ok(List(validators.items + [entry]))
    ensures validators == Null ==> r == Ok(List([entry]))
  {
    match validators
    case Null => Ok(List([entry]))
    case Bool(b) => if b then Err(NotAnArray("validators")) else Ok(List([entry]))
    case List(xs) => Ok(List(xs + [entry]))
    case Obj(m) => if m == map[] then Ok(List([entry])) else Err(OutsideModel("validators"))
    case _ => Err(NotAnArray("validators"))
  }

  /**
    The validator list a field ends up with: its own, followed by the
    validator made from the `allowedMimeTypes` of `props` when there are any.
   */
  function ValidatorsWithMime(validators: Value, props: Value): (r: Result<Value>)
    ensures Get(props, "allowedMimeTypes") == Null ==> r == Ok(validators)
    ensures r == Ok(Null) ==> validators == Null
  {
    var mimes := Get(props, "allowedMimeTypes");
    if mimes == Null then Ok(validators)
    else
      var types :- AsList(mimes, "allowedMimeTypes");
      AppendEntry(validators, MimeEntry(types))
  }

  /**
    The client keyword of each validator, in list order (`array_map`). Reading
    `identifier` of a string validator throws; an array identifier cannot be
    a table key.
   */
  function Keywords(validations: map<string, string>, items: seq<Value>): (r: Result<seq<string>>)
    ensures r.Ok? ==> |r.value| == |items|
  {
    if items == [] then Ok([])
    else if items[0].Str? then Err(StringOffset("identifier"))
    else
      var id := Get(items[0], "identifier");
      if IsArray(id) then Err(IllegalOffset("identifier"))
      else
        var rest :- Keywords(validations, items[1..]);
        Ok([Keyword(validations, id)] + rest)
  }

  /** The keys field preparation drops from the hooked element, when it drops them. */
  const DROPPABLE_KEYS: set<string> := {"identifier", "defaultValue", "label", "properties", "validators"}

  /** The keys field preparation derives and writes. */
  const DERIVED_KEYS: set<string> := {"id", "validationName", "type", "value", "options", "help", "placeholder", "validation"}

  /** Every key field preparation touches once the element hook has run. */
  const GENERIC_KEYS: set<string> := DROPPABLE_KEYS + DERIVED_KEYS

  /*
    Field preparation, in the order of the PHP code: each step below is one
    block of `prepareElement`, and a failing step stops the preparation.
   */

  /** An empty label is removed. */
  function WithoutEmptyLabel(m: Fields): (r: Fields)
    ensures GetKey(r, "label") != Str("")
  {
    if Isset(m, "label") && m["label"] == Str("") then m - {"label"} else m
  }

  /** `id`, `validationName` (the label, else the identifier) and `value` (a non-empty default value). */
  function WithIdentity(m: Fields): (r: Fields)
    ensures "id" in r && r["id"] == GetKey(m, "identifier") && "validationName" in r
  {
    var m1 := m["id" := GetKey(m, "identifier")];
    var m2 := m1["validationName" := if Isset(m1, "label") then m1["label"] else GetKey(m1, "identifier")];
    if Isset(m2, "defaultValue") && m2["defaultValue"] != Str("") then m2["value" := m2["defaultValue"]] else m2
  }

  /** Uploads lose `properties.saveToFileMount`; a scalar `properties` cannot lose an offset. */
  function WithoutFileMount(m: Fields): (r: Result<Fields>)
    ensures r.Err? <==> IsUploadType(GetKey(m, "type")) && RefusesUnset(GetKey(m, "properties"))
    ensures r.Ok? ==> GetKey(r.value, "type") == GetKey(m, "type")
  {
    var props := GetKey(m, "properties");
    if !IsUploadType(GetKey(m, "type")) then Ok(m)
    else if RefusesUnset(props) then Err(UnsetOnScalar("properties"))
    else if props.Obj? then Ok(m["properties" := Obj(props.fields - {"saveToFileMount"})])
    else Ok(m)
  }

  /** `type` becomes the client type looked up in `types`. */
  function WithClientType(types: map<string, string>, m: Fields): (r: Result<Fields>)
    ensures r.Err? <==> IsArray(GetKey(m, "type"))
    ensures r.Ok? ==> "type" in r.value && r.value["type"].Str?
  {
    var t := GetKey(m, "type");
    if IsArray(t) then Err(IllegalOffset("type")) else Ok(m["type" := Str(TypeTag(types, t))])
  }

  /** `options`, `help` and `placeholder` promoted out of `props`. */
  function WithPromoted(props: Value, m: Fields): (r: Fields)
    ensures GetKey(r, "properties") == GetKey(m, "properties") && GetKey(r, "validators") == GetKey(m, "validators")
  {
    var options := Get(props, "options");
    var description := Get(props, "elementDescription");
    var placeholder := Get(Get(props, "fluidAdditionalAttributes"), "placeholder");
    var prepend := Get(props, "prependOptionLabel");
    var m1 := if options != Null then m["options" := options] else m;
    var m2 := if description != Null && description != Str("") then m1["help" := description] else m1;
    if placeholder != Null then m2["placeholder" := placeholder]
    else if prepend != Null then m2["placeholder" := prepend]
    else m2
  }

  /** One more validator, made from the `allowedMimeTypes` of `props`, after the existing ones. */
  function WithMimeValidator(props: Value, m: Fields): (r: Result<Fields>)
    ensures Get(props, "allowedMimeTypes") == Null ==> r == Ok(m)
    ensures r.Ok? ==> GetKey(r.value, "properties") == GetKey(m, "properties")
  {
    var mimes := Get(props, "allowedMimeTypes");
    if mimes == Null then Ok(m)
    else
      var types :- AsList(mimes, "allowedMimeTypes");
      var m1 := if Isset(m, "validators") then m else m["validators" := List([])];
      var validators :- AppendEntry(m1["validators"], MimeEntry(types));
      Ok(m1["validators" := validators])
  }

  /** A set `properties` is read (promotions, mime validator) and removed. */
  function WithoutProperties(m: Fields): Result<Fields> {
    if !Isset(m, "properties") then Ok(m)
    else
      var props := m["properties"];
      var m1 :- WithMimeValidator(props, WithPromoted(props, m));
      Ok(m1 - {"properties"})
  }

  /** A set validator list becomes the `validation` string and is removed. */
  function WithValidation(validations: map<string, string>, m: Fields): Result<Fields> {
    if !Isset(m, "validators") then Ok(m)
    else
      var items :- AsList(m["validators"], "validators");
      var keywords :- Keywords(validations, items);
      Ok(m["validation" := Str(Join("|", keywords))] - {"validators"})
  }

  /** The blocks up to the client type: label, identity keys, `saveToFileMount`, `type`. */
  function Typed(types: map<string, string>, e: Fields): Result<Fields> {
    var m1 := WithIdentity(WithoutEmptyLabel(e));
    var m2 :- WithoutFileMount(m1);
    WithClientType(types, m2)
  }

  /** The steps after the element hook: the hooked element `e` taken through every block, without `identifier` and `defaultValue`. */
  function PreparedHooked(types: map<string, string>, validations: map<string, string>, e: Fields): Result<Fields> {
    var m3 :- Typed(types, e);
    var m4 :- WithoutProperties(m3);
    var m5 :- WithValidation(validations, m4);
    Ok(m5 - {"identifier"} - {"defaultValue"})
  }

  /** A prepared field: the element named, handed through the element hook, and taken through every step. */
  function PreparedField(c: Config, element: Fields, formId: string): Result<Fields> {
    PreparedHooked(c.types, c.validations, Hooked(c, element, formId))
  }

  /** One entry of a `renderables` list, decorated. */
  function DecorateNode(c: Config, x: Value, formId: string): Result<Value>
    decreases x, 1
  {
    match x
    case Obj(m) =>
      if IsContainer(m) then
        var rs := m["renderables"];
        if rs.Obj? then Err(OutsideModel("renderables"))
        else
          var elements :- DecorateList(c, rs.items, formId);
          Ok(Obj(m["elements" := List(elements)] - {"renderables"} - {"defaultValue"} - {"properties"}))
      else
        var f :- PreparedField(c, m, formId);
        Ok(Obj(f))
    case List(ys) =>
      if ys == [] then
        var f :- PreparedField(c, map[], formId);
        Ok(Obj(f))
      else Err(OutsideModel("node"))
    case _ => Err(NodeNotArray)
  }

  /** A `renderables` list, decorated entry by entry; the first failing entry stops it. */
  function DecorateList(c: Config, xs: seq<Value>, formId: string): (r: Result<seq<Value>>)
    ensures r.Ok? ==> |r.value| == |xs|
    decreases xs, 0
  {
    if xs == [] then Ok([])
    else
      var head :- DecorateNode(c, xs[0], formId);
      var tail :- DecorateList(c, xs[1..], formId);
      Ok([head] + tail)
  }

  /** The decorated root object, before the definition hook. */
  function DecoratedRoot(formId: string, formStatus: Value, definition: Fields, elements: seq<Value>): (r: Fields)
    ensures r.Keys == {"id", "api", "i18n", "renderingOptions", "elements"}
    ensures r["id"] == Str(formId) && r["api"] == formStatus && r["elements"] == List(elements)
  {
    var i18n := Get(GetKey(definition, "i18n"), "properties");
    map[
      "id" := Str(formId),
      "api" := formStatus,
      "i18n" := if i18n == Null then List([]) else i18n,
      "renderingOptions" := GetKey(definition, "renderingOptions"),
      "elements" := List(elements)]
  }

  /** The whole definition, decorated, and handed through the definition hook. */
  function DecorateDefinition(c: Config, formStatus: Value, definition: Fields, currentPage: int): Result<Fields> {
    var renderables := GetKey(definition, "renderables");
    var formId := GetKey(definition, "identifier");
    if renderables != Null && !IsArray(renderables) then Err(NotAnArray("renderables"))
    else if !formId.Str? then Err(FormIdNotString)
    else
      var nodes :- if renderables == Null then Ok([]) else AsList(renderables, "renderables");
      var elements :- DecorateList(c, nodes, formId.s);
      Ok(c.overrideDefinition(DecoratedRoot(formId.s, formStatus, definition, elements), definition, currentPage))
  }
}
