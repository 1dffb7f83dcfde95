/**
  What a prepared field looks like (`prepareElement`), key by key. The lemmas
  speak of `e`, the element after the element hook; in the base class the
  hook is the identity, so that is the element with its `name` set.
 */
module FieldProperties {
  import opened PhpValue
  import opened Tables
  import opened DecoratorSpec

  /** The steps a successful preparation went through, with what each produced. */
  lemma PreparedFieldSteps(types: map<string, string>, validations: map<string, string>, e: Fields) returns (m2: Fields, m3: Fields, m4: Fields, m5: Fields)
    requires PreparedHooked(types, validations, e).Ok?
    ensures var m1 := WithIdentity(WithoutEmptyLabel(e));
      && WithoutFileMount(m1) == Ok(m2)
      && WithClientType(types, m2) == Ok(m3)
      && WithoutProperties(m3) == Ok(m4)
      && WithValidation(validations, m4) == Ok(m5)
      && PreparedHooked(types, validations, e).value == m5 - {"identifier"} - {"defaultValue"}
  {
    var m1 := WithIdentity(WithoutEmptyLabel(e));
    m2 := WithoutFileMount(m1).value;
    m3 := WithClientType(types, m2).value;
    m4 := WithoutProperties(m3).value;
    m5 := WithValidation(validations, m4).value;
  }

  /** Removing an empty label, at one key. */
  lemma LabelStepAt(m: Fields, k: string)
    ensures GetKey(WithoutEmptyLabel(m), k) == if k == "label" && GetKey(m, "label") == Str("") then Null else GetKey(m, k)
    ensures k in WithoutEmptyLabel(m) <==> k in m && !(k == "label" && GetKey(m, "label") == Str(""))
  {
  }

  /** Writing `id`, `validationName` and `value`, at one key. */
  lemma IdentityStepAt(m: Fields, k: string)
    ensures var labelValue := GetKey(m, "label");
      var defaultValue := GetKey(m, "defaultValue");
      GetKey(WithIdentity(m), k)
      == if k == "id" then GetKey(m, "identifier")
         else if k == "validationName" then (if labelValue != Null then labelValue else GetKey(m, "identifier"))
         else if k == "value" && defaultValue != Null && defaultValue != Str("") then defaultValue
         else GetKey(m, k)
    ensures var defaultValue := GetKey(m, "defaultValue");
      k in WithIdentity(m)
      <==> k == "id" || k == "validationName" || (k == "value" && defaultValue != Null && defaultValue != Str("")) || k in m
  {
  }

  /**
    Removing `saveToFileMount`: no key changes but `properties`, whose other
    entries, and whether it is set, stay as they were.
   */
  lemma FileMountStepAt(m: Fields, m': Fields, k: string, j: string)
    requires WithoutFileMount(m) == Ok(m')
    ensures k != "properties" ==> GetKey(m', k) == GetKey(m, k)
    ensures k != "properties" ==> (k in m' <==> k in m)
    ensures j != "saveToFileMount" ==> Get(GetKey(m', "properties"), j) == Get(GetKey(m, "properties"), j)
    ensures Isset(m', "properties") <==> Isset(m, "properties")
  {
  }

  /** Writing the client `type`, at one key. */
  lemma ClientTypeStepAt(types: map<string, string>, m: Fields, m': Fields, k: string)
    requires WithClientType(types, m) == Ok(m')
    ensures !IsArray(GetKey(m, "type"))
    ensures GetKey(m', k) == if k == "type" then Str(TypeTag(types, GetKey(m, "type"))) else GetKey(m, k)
    ensures k in m' <==> k == "type" || k in m
  {
  }

  /** Promoting `options`, `help` and `placeholder`, at one key. */
  lemma PromotedAt(props: Value, m: Fields, k: string)
    ensures var options := Get(props, "options");
      var description := Get(props, "elementDescription");
      var placeholder := Get(Get(props, "fluidAdditionalAttributes"), "placeholder");
      var prepend := Get(props, "prependOptionLabel");
      GetKey(WithPromoted(props, m), k)
      == if k == "options" && options != Null then options
         else if k == "help" && description != Null && description != Str("") then description
         else if k == "placeholder" && placeholder != Null then placeholder
         else if k == "placeholder" && prepend != Null then prepend
         else GetKey(m, k)
    ensures var options := Get(props, "options");
      var description := Get(props, "elementDescription");
      var placeholder := Get(Get(props, "fluidAdditionalAttributes"), "placeholder");
      var prepend := Get(props, "prependOptionLabel");
      k in WithPromoted(props, m)
      <==> (k == "options" && options != Null)
           || (k == "help" && description != Null && description != Str(""))
           || (k == "placeholder" && (placeholder != Null || prepend != Null))
           || k in m
  {
  }

  /** The validators after the mime step are those `ValidatorsWithMime` describes. */
  lemma MimeStep(props: Value, m: Fields)
    ensures var r := WithMimeValidator(props, m);
      var v := ValidatorsWithMime(GetKey(m, "validators"), props);
      && (r.Ok? <==> v.Ok?)
      && (r.Err? ==> r.error == v.error)
      && (r.Ok? ==> GetKey(r.value, "validators") == v.value)
      && (r.Ok? ==> forall k :: k != "validators" ==> GetKey(r.value, k) == GetKey(m, k))
      && (r.Ok? ==> forall k :: k != "validators" ==> (k in r.value <==> k in m))
      && (r.Ok? && v.value != Null ==> "validators" in r.value)
  {
    var mimes := Get(props, "allowedMimeTypes");
    if mimes != Null && AsList(mimes, "allowedMimeTypes").Ok? && !Isset(m, "validators") {
      var entry := MimeEntry(AsList(mimes, "allowedMimeTypes").value);
      assert [] + [entry] == [entry];
    }
  }

  /**
    Reading and removing a set `properties`, at one key: promotions, the
    validators `ValidatorsWithMime` describes, and no `properties`.
   */
  lemma PropertiesStepAt(m: Fields, m': Fields, k: string)
    requires WithoutProperties(m) == Ok(m')
    ensures var props := GetKey(m, "properties");
      ValidatorsWithMime(GetKey(m, "validators"), props) == Ok(GetKey(m', "validators"))
    ensures var props := GetKey(m, "properties");
      k != "validators" ==>
        GetKey(m', k)
        == if props == Null then GetKey(m, k)
           else if k == "properties" then Null
           else GetKey(WithPromoted(props, m), k)
    ensures var props := GetKey(m, "properties");
      k != "validators" ==>
        (k in m' <==> if props == Null then k in m else k != "properties" && k in WithPromoted(props, m))
    ensures GetKey(m', "validators") != Null ==> "validators" in m'
  {
    var props := GetKey(m, "properties");
    if props != Null {
      MimeStep(props, WithPromoted(props, m));
      PromotedAt(props, m, "validators");
    }
  }

  /** Turning set validators into `validation`, at one key. */
  lemma ValidationStepAt(validations: map<string, string>, m: Fields, m': Fields, k: string)
    requires WithValidation(validations, m) == Ok(m')
    ensures var v := GetKey(m, "validators");
      GetKey(m', k)
      == if v == Null then GetKey(m, k)
         else if k == "validators" then Null
         else if k == "validation" then Str(Join("|", Keywords(validations, AsList(v, "validators").value).value))
         else GetKey(m, k)
    ensures var v := GetKey(m, "validators");
      k in m' <==> if v == Null then k in m else k != "validators" && (k == "validation" || k in m)
  {
  }

  /** The mime step reads nothing of `properties` but `allowedMimeTypes`. */
  lemma MimeReadsAllowedTypes(validators: Value, p: Value, q: Value)
    requires Get(p, "allowedMimeTypes") == Get(q, "allowedMimeTypes")
    ensures ValidatorsWithMime(validators, p) == ValidatorsWithMime(validators, q)
  {
  }

  /**
    The `properties` the promotions read are the hooked element's own (an
    upload loses only `saveToFileMount`), and so are the validators the mime
    step starts from.
   */
  lemma PropertiesAsHooked(types: map<string, string>, validations: map<string, string>, e: Fields, m2: Fields, m3: Fields)
    requires var m1 := WithIdentity(WithoutEmptyLabel(e));
      WithoutFileMount(m1) == Ok(m2) && WithClientType(types, m2) == Ok(m3)
    ensures var props := GetKey(e, "properties");
      var props3 := GetKey(m3, "properties");
      && !IsArray(GetKey(e, "type"))
      && (props3 == Null <==> props == Null)
      && Get(props3, "options") == Get(props, "options")
      && Get(props3, "elementDescription") == Get(props, "elementDescription")
      && Get(props3, "fluidAdditionalAttributes") == Get(props, "fluidAdditionalAttributes")
      && Get(props3, "prependOptionLabel") == Get(props, "prependOptionLabel")
      && ValidatorsWithMime(GetKey(m3, "validators"), props3) == ValidatorsWithMime(GetKey(e, "validators"), props)
  {
    var m0 := WithoutEmptyLabel(e);
    var m1 := WithIdentity(m0);
    LabelStepAt(e, "properties");
    IdentityStepAt(m0, "properties");
    LabelStepAt(e, "type");
    IdentityStepAt(m0, "type");
    LabelStepAt(e, "validators");
    IdentityStepAt(m0, "validators");
    FileMountStepAt(m1, m2, "type", "options");
    FileMountStepAt(m1, m2, "validators", "elementDescription");
    FileMountStepAt(m1, m2, "validators", "fluidAdditionalAttributes");
    FileMountStepAt(m1, m2, "validators", "prependOptionLabel");
    FileMountStepAt(m1, m2, "validators", "allowedMimeTypes");
    ClientTypeStepAt(types, m2, m3, "properties");
    ClientTypeStepAt(types, m2, m3, "validators");
    MimeReadsAllowedTypes(GetKey(e, "validators"), GetKey(m3, "properties"), GetKey(e, "properties"));
  }

  /** What the element holds under one key once its client type is written. */
  lemma TypedAt(types: map<string, string>, validations: map<string, string>, e: Fields, m2: Fields, m3: Fields, k: string)
    requires var m1 := WithIdentity(WithoutEmptyLabel(e));
      WithoutFileMount(m1) == Ok(m2) && WithClientType(types, m2) == Ok(m3)
    requires k != "properties"
    ensures var id := GetKey(e, "identifier");
      var labelValue := GetKey(e, "label");
      var defaultValue := GetKey(e, "defaultValue");
      GetKey(m3, k)
      == if k == "type" then Str(TypeTag(types, GetKey(e, "type")))
         else if k == "id" then id
         else if k == "validationName" then (if labelValue != Null && labelValue != Str("") then labelValue else id)
         else if k == "value" && defaultValue != Null && defaultValue != Str("") then defaultValue
         else if k == "label" && labelValue == Str("") then Null
         else GetKey(e, k)
  {
    var m0 := WithoutEmptyLabel(e);
    var m1 := WithIdentity(m0);
    PropertiesAsHooked(types, validations, e, m2, m3);
    ClientTypeStepAt(types, m2, m3, k);
    FileMountStepAt(m1, m2, k, "options");
    FileMountStepAt(m1, m2, "type", "options");
    IdentityStepAt(m0, k);
    IdentityStepAt(m0, "type");
    LabelStepAt(e, k);
    LabelStepAt(e, "type");
    LabelStepAt(e, "label");
    LabelStepAt(e, "identifier");
    LabelStepAt(e, "defaultValue");
  }

  /** The last three steps, at one key: properties, validators, and the two final removals. */
  lemma FinishedAt(validations: map<string, string>, m3: Fields, m4: Fields, m5: Fields, k: string)
    requires WithoutProperties(m3) == Ok(m4) && WithValidation(validations, m4) == Ok(m5)
    requires k != "validation"
    ensures var props := GetKey(m3, "properties");
      var validators := GetKey(m4, "validators");
      GetKey(m5 - {"identifier"} - {"defaultValue"}, k)
      == if k == "identifier" || k == "defaultValue" then Null
         else if k == "properties" && props != Null then Null
         else if k == "validators" && validators != Null then Null
         else if k == "validators" then GetKey(m3, k)
         else if props != Null then GetKey(WithPromoted(props, m3), k)
         else GetKey(m3, k)
  {
    PropertiesStepAt(m3, m4, k);
    ValidationStepAt(validations, m4, m5, k);
    if k == "validators" {
      var props := GetKey(m3, "properties");
      if GetKey(m4, "validators") == Null && props != Null {
        assert GetKey(m3, "validators") == Null;
      }
    }
  }

  /**
    The value of a successful preparation under a key other than
    `validation`: dropped, else promoted, else derived, else the hooked
    element's own.
   */
  lemma ReadKey(types: map<string, string>, validations: map<string, string>, e: Fields, k: string) returns (validators: Value)
    requires PreparedHooked(types, validations, e).Ok?
    requires k != "validation"
    ensures var props := GetKey(e, "properties");
      var options := Get(props, "options");
      var description := Get(props, "elementDescription");
      var placeholder := Get(Get(props, "fluidAdditionalAttributes"), "placeholder");
      var prepend := Get(props, "prependOptionLabel");
      var id := GetKey(e, "identifier");
      var labelValue := GetKey(e, "label");
      var defaultValue := GetKey(e, "defaultValue");
      && !IsArray(GetKey(e, "type"))
      && ValidatorsWithMime(GetKey(e, "validators"), props) == Ok(validators)
      && GetKey(PreparedHooked(types, validations, e).value, k)
         == if k == "identifier" || k == "defaultValue" then Null
            else if k == "properties" && props != Null then Null
            else if k == "validators" && validators != Null then Null
            else if k == "options" && options != Null then options
            else if k == "help" && description != Null && description != Str("") then description
            else if k == "placeholder" && placeholder != Null then placeholder
            else if k == "placeholder" && prepend != Null then prepend
            else if k == "type" then Str(TypeTag(types, GetKey(e, "type")))
            else if k == "id" then id
            else if k == "validationName" then (if labelValue != Null && labelValue != Str("") then labelValue else id)
            else if k == "value" && defaultValue != Null && defaultValue != Str("") then defaultValue
            else if k == "label" && labelValue == Str("") then Null
            else GetKey(e, k)
  {
    var m2, m3, m4, m5 := PreparedFieldSteps(types, validations, e);
    PropertiesAsHooked(types, validations, e, m2, m3);
    PropertiesStepAt(m3, m4, "validators");
    validators := GetKey(m4, "validators");
    FinishedAt(validations, m3, m4, m5, k);
    var props3 := GetKey(m3, "properties");
    if props3 != Null {
      PromotedAt(props3, m3, k);
    }
    if k != "properties" {
      TypedAt(types, validations, e, m2, m3, k);
    }
  }

  /** `identifier` and `defaultValue` never reach the client; `properties` and `validators` read as null. */
  lemma PreparedFieldDropsRawKeys(types: map<string, string>, validations: map<string, string>, e: Fields)
    ensures var r := PreparedHooked(types, validations, e);
      r.Ok? ==>
        && GetKey(r.value, "identifier") == Null && GetKey(r.value, "defaultValue") == Null
        && GetKey(r.value, "properties") == Null && GetKey(r.value, "validators") == Null
  {
    if PreparedHooked(types, validations, e).Ok? {
      var _ := ReadKey(types, validations, e, "properties");
      var _ := ReadKey(types, validations, e, "validators");
    }
  }

  /** An empty label reads as absent; every other label is kept as it is. */
  lemma PreparedFieldLabel(types: map<string, string>, validations: map<string, string>, e: Fields)
    ensures var r := PreparedHooked(types, validations, e);
      var labelValue := GetKey(e, "label");
      r.Ok? ==> GetKey(r.value, "label") == (if labelValue == Str("") then Null else labelValue)
  {
    if PreparedHooked(types, validations, e).Ok? {
      var _ := ReadKey(types, validations, e, "label");
    }
  }

  /** `id` is the identifier; `validationName` is the kept label, else the identifier. */
  lemma PreparedFieldIds(types: map<string, string>, validations: map<string, string>, e: Fields)
    ensures var r := PreparedHooked(types, validations, e);
      var id := GetKey(e, "identifier");
      var labelValue := GetKey(e, "label");
      r.Ok? ==>
        && GetKey(r.value, "id") == id
        && GetKey(r.value, "validationName") == (if labelValue != Null && labelValue != Str("") then labelValue else id)
  {
    if PreparedHooked(types, validations, e).Ok? {
      var _ := ReadKey(types, validations, e, "id");
      var _ := ReadKey(types, validations, e, "validationName");
    }
  }

  /** `value` is the default value when that is set and not the empty string, else the element's own. */
  lemma PreparedFieldValue(types: map<string, string>, validations: map<string, string>, e: Fields)
    ensures var r := PreparedHooked(types, validations, e);
      var defaultValue := GetKey(e, "defaultValue");
      r.Ok? ==>
        GetKey(r.value, "value") == (if defaultValue != Null && defaultValue != Str("") then defaultValue else GetKey(e, "value"))
  {
    if PreparedHooked(types, validations, e).Ok? {
      var _ := ReadKey(types, validations, e, "value");
    }
  }

  /** `type` is the table's tag of the element type, `hidden` for every type the table lacks. */
  lemma PreparedFieldType(types: map<string, string>, validations: map<string, string>, e: Fields)
    ensures var r := PreparedHooked(types, validations, e);
      var t := GetKey(e, "type");
      r.Ok? ==>
        && !IsArray(t)
        && GetKey(r.value, "type") == Str(TypeTag(types, t))
        && (!(t.Str? && t.s in types) ==> GetKey(r.value, "type") == Str(HIDDEN))
  {
    if PreparedHooked(types, validations, e).Ok? {
      var _ := ReadKey(types, validations, e, "type");
    }
  }

  /**
    `options` comes from `properties.options`; `help` from a non-empty
    `properties.elementDescription`. A key with no source keeps the element's own.
   */
  lemma PreparedFieldOptionsHelp(types: map<string, string>, validations: map<string, string>, e: Fields)
    ensures var r := PreparedHooked(types, validations, e);
      var props := GetKey(e, "properties");
      var options := Get(props, "options");
      var description := Get(props, "elementDescription");
      r.Ok? ==>
        && GetKey(r.value, "options") == (if options != Null then options else GetKey(e, "options"))
        && GetKey(r.value, "help") == (if description != Null && description != Str("") then description else GetKey(e, "help"))
  {
    if PreparedHooked(types, validations, e).Ok? {
      var _ := ReadKey(types, validations, e, "options");
      var _ := ReadKey(types, validations, e, "help");
    }
  }

  /**
    `placeholder` comes from `properties.fluidAdditionalAttributes.placeholder`,
    else from `properties.prependOptionLabel`, else it is the element's own.
   */
  lemma PreparedFieldPlaceholder(types: map<string, string>, validations: map<string, string>, e: Fields)
    ensures var r := PreparedHooked(types, validations, e);
      var props := GetKey(e, "properties");
      var placeholder := Get(Get(props, "fluidAdditionalAttributes"), "placeholder");
      var prepend := Get(props, "prependOptionLabel");
      r.Ok? ==>
        GetKey(r.value, "placeholder")
        == (if placeholder != Null then placeholder else if prepend != Null then prepend else GetKey(e, "placeholder"))
  {
    if PreparedHooked(types, validations, e).Ok? {
      var _ := ReadKey(types, validations, e, "placeholder");
    }
  }

  /** A key the generic rules neither write nor drop is in the prepared field exactly when it is in the hooked element. */
  lemma KeptKeyPresence(types: map<string, string>, validations: map<string, string>, e: Fields, k: string)
    requires PreparedHooked(types, validations, e).Ok?
    requires k !in GENERIC_KEYS
    ensures k in PreparedHooked(types, validations, e).value <==> k in e
  {
    var m2, m3, m4, m5 := PreparedFieldSteps(types, validations, e);
    var m0 := WithoutEmptyLabel(e);
    var m1 := WithIdentity(m0);
    LabelStepAt(e, k);
    IdentityStepAt(m0, k);
    FileMountStepAt(m1, m2, k, "options");
    ClientTypeStepAt(types, m2, m3, k);
    var props3 := GetKey(m3, "properties");
    if props3 != Null {
      PromotedAt(props3, m3, k);
    }
    PropertiesStepAt(m3, m4, k);
    ValidationStepAt(validations, m4, m5, k);
  }

  /**
    Every key the generic rules neither write nor drop keeps the hooked
    element's value, and is present exactly when it was: `name`, and anything
    an element hook adds.
   */
  lemma PreparedFieldKeepsOtherKeys(types: map<string, string>, validations: map<string, string>, e: Fields, k: string)
    requires k !in GENERIC_KEYS
    ensures var r := PreparedHooked(types, validations, e);
      r.Ok? ==> GetKey(r.value, k) == GetKey(e, k) && (k in r.value <==> k in e)
  {
    if PreparedHooked(types, validations, e).Ok? {
      var _ := ReadKey(types, validations, e, k);
      KeptKeyPresence(types, validations, e, k);
    }
  }

  /**
    `name` is built from the form id and the identifier the element had BEFORE
    the element hook ran (the hook is assumed to leave `name` alone, as the
    identity hook of the base class does).
   */
  lemma PreparedFieldName(c: Config, element: Fields, formId: string)
    requires GetKey(Hooked(c, element, formId), "name") == GetKey(Named(element, formId), "name")
    ensures var r := PreparedField(c, element, formId);
      r.Ok? ==>
        GetKey(r.value, "name")
        == Str("tx_form_formframework[" + formId + "][" + StringOf(GetKey(element, "identifier")) + "]")
  {
    assert "name" !in GENERIC_KEYS;
    PreparedFieldKeepsOtherKeys(c.types, c.validations, Hooked(c, element, formId), "name");
  }

  /**
    Which keys a prepared field lacks: `identifier` and `defaultValue`, an
    empty label, a set `properties` and a set validator list.
   */
  lemma PreparedFieldAbsentKeys(types: map<string, string>, validations: map<string, string>, e: Fields)
    ensures var r := PreparedHooked(types, validations, e);
      r.Ok? ==>
        && "identifier" !in r.value && "defaultValue" !in r.value
        && (GetKey(e, "label") == Str("") ==> "label" !in r.value)
        && (GetKey(e, "properties") != Null ==> "properties" !in r.value)
        && (GetKey(e, "validators") != Null ==> "validators" !in r.value)
  {
    if PreparedHooked(types, validations, e).Ok? {
      var m2, m3, m4, m5 := PreparedFieldSteps(types, validations, e);
      var m0 := WithoutEmptyLabel(e);
      var m1 := WithIdentity(m0);
      PropertiesAsHooked(types, validations, e, m2, m3);
      LabelStepAt(e, "label");
      IdentityStepAt(m0, "label");
      FileMountStepAt(m1, m2, "label", "options");
      ClientTypeStepAt(types, m2, m3, "label");
      var props3 := GetKey(m3, "properties");
      if props3 != Null {
        PromotedAt(props3, m3, "label");
      }
      PropertiesStepAt(m3, m4, "label");
      PropertiesStepAt(m3, m4, "properties");
      ValidationStepAt(validations, m4, m5, "label");
      ValidationStepAt(validations, m4, m5, "properties");
      ValidationStepAt(validations, m4, m5, "validators");
    }
  }

  /** A key the type step wrote survives the last three steps. */
  lemma SurvivesFinish(validations: map<string, string>, m3: Fields, m4: Fields, m5: Fields, k: string)
    requires WithoutProperties(m3) == Ok(m4) && WithValidation(validations, m4) == Ok(m5)
    requires k in m3 && k !in {"properties", "validators", "identifier", "defaultValue"}
    ensures k in m5 - {"identifier"} - {"defaultValue"}
  {
    var props3 := GetKey(m3, "properties");
    if props3 != Null {
      PromotedAt(props3, m3, k);
    }
    PropertiesStepAt(m3, m4, k);
    ValidationStepAt(validations, m4, m5, k);
  }

  /** `id`, `validationName` and `type` are always there; `validation` whenever validators were. */
  lemma PreparedFieldPresentKeys(types: map<string, string>, validations: map<string, string>, e: Fields)
    ensures var r := PreparedHooked(types, validations, e);
      r.Ok? ==>
        && {"id", "validationName", "type"} <= r.value.Keys
        && (GetKey(e, "validators") != Null ==> "validation" in r.value)
  {
    if PreparedHooked(types, validations, e).Ok? {
      var m2, m3, m4, m5 := PreparedFieldSteps(types, validations, e);
      var m0 := WithoutEmptyLabel(e);
      var m1 := WithIdentity(m0);
      IdentityStepAt(m0, "id");
      IdentityStepAt(m0, "validationName");
      FileMountStepAt(m1, m2, "id", "options");
      FileMountStepAt(m1, m2, "validationName", "options");
      ClientTypeStepAt(types, m2, m3, "id");
      ClientTypeStepAt(types, m2, m3, "validationName");
      ClientTypeStepAt(types, m2, m3, "type");
      SurvivesFinish(validations, m3, m4, m5, "id");
      SurvivesFinish(validations, m3, m4, m5, "validationName");
      SurvivesFinish(validations, m3, m4, m5, "type");
      PropertiesAsHooked(types, validations, e, m2, m3);
      PropertiesStepAt(m3, m4, "validators");
      ValidationStepAt(validations, m4, m5, "validation");
    }
  }
}
