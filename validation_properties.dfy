/**
  The `validation` string of a prepared field (the validator list, the
  validator made from `allowedMimeTypes`) and when preparing a field fails.
 */
module ValidationProperties {
  import opened PhpValue
  import opened Tables
  import opened DecoratorSpec
  import opened FieldProperties

  /**
    The keywords of a validator list exist exactly when no validator is a
    string and no identifier is an array, and are then the keywords of the
    identifiers, in list order.
   */
  lemma {:induction false} KeywordsSpec(validations: map<string, string>, items: seq<Value>)
    ensures Keywords(validations, items).Ok?
            <==> forall i :: 0 <= i < |items| ==> !items[i].Str? && !IsArray(Get(items[i], "identifier"))
    ensures Keywords(validations, items).Ok? ==>
            forall i :: 0 <= i < |items| ==>
              Keywords(validations, items).value[i] == Keyword(validations, Get(items[i], "identifier"))
    decreases |items|
  {
    if items != [] {
      KeywordsSpec(validations, items[1..]);
      assert forall i :: 1 <= i < |items| ==> items[i] == items[1..][i - 1];
    }
  }

  /** A failing validator list fails at a string validator or at an identifier that is an array. */
  lemma {:induction false} KeywordsError(validations: map<string, string>, items: seq<Value>)
    ensures Keywords(validations, items).Err? ==>
            Keywords(validations, items).error in {StringOffset("identifier"), IllegalOffset("identifier")}
    decreases |items|
  {
    if items != [] {
      KeywordsError(validations, items[1..]);
    }
  }

  /** The keywords of a list with one more validator end in that validator's keyword. */
  lemma KeywordsAppend(validations: map<string, string>, items: seq<Value>, entry: Value)
    requires Keywords(validations, items).Ok?
    requires !entry.Str? && !IsArray(Get(entry, "identifier"))
    ensures Keywords(validations, items + [entry])
            == Ok(Keywords(validations, items).value + [Keyword(validations, Get(entry, "identifier"))])
  {
    var all := items + [entry];
    KeywordsSpec(validations, items);
    assert forall i :: 0 <= i < |items| ==> all[i] == items[i];
    KeywordsSpec(validations, all);
    var k := Keywords(validations, items).value + [Keyword(validations, Get(entry, "identifier"))];
    assert Keywords(validations, all).value == k;
  }

  /**
    The `validation` of a prepared field: the keywords of its validators
    (the `allowedMimeTypes` validator included) joined by `|`, or the
    element's own `validation` when it has no validators.
   */
  lemma PreparedFieldValidation(types: map<string, string>, validations: map<string, string>, e: Fields)
    ensures var r := PreparedHooked(types, validations, e);
      var v := ValidatorsWithMime(GetKey(e, "validators"), GetKey(e, "properties"));
      r.Ok? ==>
        && v.Ok?
        && (v.value == Null ==> GetKey(r.value, "validation") == GetKey(e, "validation"))
        && (v.value != Null ==>
              && AsList(v.value, "validators").Ok?
              && var items := AsList(v.value, "validators").value;
                 && Keywords(validations, items).Ok?
                 && GetKey(r.value, "validation") == Str(Join("|", Keywords(validations, items).value)))
  {
    if PreparedHooked(types, validations, e).Ok? {
      var m2, m3, m4, m5 := PreparedFieldSteps(types, validations, e);
      PropertiesAsHooked(types, validations, e, m2, m3);
      TypedAt(types, validations, e, m2, m3, "validation");
      var props3 := GetKey(m3, "properties");
      if props3 != Null {
        PromotedAt(props3, m3, "validation");
      }
      PropertiesStepAt(m3, m4, "validation");
      ValidationStepAt(validations, m4, m5, "validation");
    }
  }

  /** An empty validator list, with no mime types to add, gives an empty `validation`. */
  lemma PreparedFieldEmptyValidation(types: map<string, string>, validations: map<string, string>, e: Fields)
    requires GetKey(e, "validators") == List([])
    requires Get(GetKey(e, "properties"), "allowedMimeTypes") == Null
    ensures var r := PreparedHooked(types, validations, e);
      r.Ok? ==> GetKey(r.value, "validation") == Str("")
  {
    PreparedFieldValidation(types, validations, e);
  }

  /**
    With `allowedMimeTypes` set to a list, the mime validator comes last, and
    so does its keyword in `validation`, after one more `|` when there were
    validators before it.
   */
  lemma MimeValidationLast(validations: map<string, string>, validators: Value, props: Value, types: seq<Value>)
    requires Get(props, "allowedMimeTypes") == List(types)
    requires validators == Null || (validators.List? && Keywords(validations, validators.items).Ok?)
    ensures var items := if validators == Null then [] else validators.items;
      var before := Keywords(validations, items).value;
      var mime := Keyword(validations, Str(MimeIdentifier(types)));
      && ValidatorsWithMime(validators, props) == Ok(List(items + [MimeEntry(types)]))
      && Keywords(validations, items + [MimeEntry(types)]) == Ok(before + [mime])
      && Join("|", before + [mime]) == if before == [] then mime else Join("|", before) + "|" + mime
  {
    var items := if validators == Null then [] else validators.items;
    assert items + [MimeEntry(types)] == (if validators == Null then [MimeEntry(types)] else validators.items + [MimeEntry(types)]);
    KeywordsAppend(validations, items, MimeEntry(types));
    JoinAppend("|", Keywords(validations, items).value, Keyword(validations, Str(MimeIdentifier(types))));
  }

  /** No default validation keyword replaces a mime identifier: it passes through unchanged. */
  lemma DefaultMimeKeyword(types: seq<Value>)
    ensures Keyword(VALIDATIONS, Str(MimeIdentifier(types))) == MimeIdentifier(types)
  {
    var id := MimeIdentifier(types);
    assert id[0] == 'm';
    assert id !in VALIDATIONS by {
      assert id != "EmailAddress" && id != "NotEmpty" && id != "Number";
    }
  }

  /** Whether the `properties` step fails, and why: exactly as `ValidatorsWithMime` does. */
  lemma PropertiesStepOutcome(m: Fields)
    ensures var v := ValidatorsWithMime(GetKey(m, "validators"), GetKey(m, "properties"));
      && (WithoutProperties(m).Ok? <==> v.Ok?)
      && (v.Err? ==> WithoutProperties(m) == Err(v.error))
  {
    var props := GetKey(m, "properties");
    if props != Null {
      MimeStep(props, WithPromoted(props, m));
      PromotedAt(props, m, "validators");
    }
  }

  /** Whether the `validators` step fails, and why. */
  lemma ValidationStepOutcome(validations: map<string, string>, m: Fields)
    ensures var v := GetKey(m, "validators");
      && (WithValidation(validations, m).Ok?
          <==> v == Null || (AsList(v, "validators").Ok? && Keywords(validations, AsList(v, "validators").value).Ok?))
      && (WithValidation(validations, m).Err? ==>
            WithValidation(validations, m).error in {NotAnArray("validators"), OutsideModel("validators"),
                                                    StringOffset("identifier"), IllegalOffset("identifier")})
  {
    var v := GetKey(m, "validators");
    if v != Null && AsList(v, "validators").Ok? {
      KeywordsError(validations, AsList(v, "validators").value);
    }
  }

  /** The element as the failing steps see it: its type, properties and validators are the hooked element's. */
  lemma EarlyStepsOutcome(types: map<string, string>, validations: map<string, string>, e: Fields)
    ensures var t := GetKey(e, "type");
      var props := GetKey(e, "properties");
      var m1 := WithIdentity(WithoutEmptyLabel(e));
      && (WithoutFileMount(m1).Err? <==> IsUploadType(t) && RefusesUnset(props))
      && (WithoutFileMount(m1).Err? ==> WithoutFileMount(m1) == Err(UnsetOnScalar("properties")))
      && (WithoutFileMount(m1).Ok? ==>
            var m2 := WithoutFileMount(m1).value;
            && (WithClientType(types, m2).Err? <==> IsArray(t))
            && (WithClientType(types, m2).Err? ==> WithClientType(types, m2) == Err(IllegalOffset("type"))))
  {
    var m0 := WithoutEmptyLabel(e);
    var m1 := WithIdentity(m0);
    LabelStepAt(e, "type");
    IdentityStepAt(m0, "type");
    LabelStepAt(e, "properties");
    IdentityStepAt(m0, "properties");
    if WithoutFileMount(m1).Ok? {
      FileMountStepAt(m1, WithoutFileMount(m1).value, "type", "options");
    }
  }

  /**
    A field is prepared exactly when: it is not an upload whose properties
    cannot lose an offset, its type is not an array, its validators with the
    mime validator can be formed, and their identifiers are not arrays.
   */
  lemma PreparedFieldOkIff(types: map<string, string>, validations: map<string, string>, e: Fields)
    ensures var t := GetKey(e, "type");
      var props := GetKey(e, "properties");
      var v := ValidatorsWithMime(GetKey(e, "validators"), props);
      PreparedHooked(types, validations, e).Ok?
      <==> && !(IsUploadType(t) && RefusesUnset(props))
           && !IsArray(t)
           && v.Ok?
           && (v.value == Null
               || (AsList(v.value, "validators").Ok? && Keywords(validations, AsList(v.value, "validators").value).Ok?))
  {
    var m1 := WithIdentity(WithoutEmptyLabel(e));
    EarlyStepsOutcome(types, validations, e);
    if WithoutFileMount(m1).Ok? {
      var m2 := WithoutFileMount(m1).value;
      if WithClientType(types, m2).Ok? {
        var m3 := WithClientType(types, m2).value;
        PropertiesAsHooked(types, validations, e, m2, m3);
        PropertiesStepOutcome(m3);
        if WithoutProperties(m3).Ok? {
          var m4 := WithoutProperties(m3).value;
          PropertiesStepAt(m3, m4, "validators");
          ValidationStepOutcome(validations, m4);
        }
      }
    }
  }

  /**
    The first two reasons a field is refused: an upload whose properties
    cannot lose an offset, then a type that is an array.
   */
  lemma PreparedFieldEarlyErrors(types: map<string, string>, validations: map<string, string>, e: Fields)
    ensures var r := PreparedHooked(types, validations, e);
      var t := GetKey(e, "type");
      var props := GetKey(e, "properties");
      && (IsUploadType(t) && RefusesUnset(props) ==> r == Err(UnsetOnScalar("properties")))
      && (!(IsUploadType(t) && RefusesUnset(props)) && IsArray(t) ==> r == Err(IllegalOffset("type")))
  {
    EarlyStepsOutcome(types, validations, e);
  }

  /** Every reason a field is refused: those two, or a malformed validator list or `allowedMimeTypes`, or a string validator. */
  lemma PreparedFieldErrors(types: map<string, string>, validations: map<string, string>, e: Fields)
    ensures var r := PreparedHooked(types, validations, e);
      r.Err? ==>
        r.error in {UnsetOnScalar("properties"), IllegalOffset("type"),
                    StringOffset("identifier"), IllegalOffset("identifier"),
                    NotAnArray("allowedMimeTypes"), OutsideModel("allowedMimeTypes"),
                    NotAnArray("validators"), OutsideModel("validators")}
  {
    var r := PreparedHooked(types, validations, e);
    var m1 := WithIdentity(WithoutEmptyLabel(e));
    var s2 := WithoutFileMount(m1);
    if s2.Err? {
      assert r.error == s2.error == UnsetOnScalar("properties");
    } else {
      var s3 := WithClientType(types, s2.value);
      if s3.Err? {
        assert r.error == s3.error == IllegalOffset("type");
      } else {
        var s4 := WithoutProperties(s3.value);
        PropertiesStepOutcome(s3.value);
        if s4.Err? {
          assert r.error == s4.error;
        } else {
          ValidationStepOutcome(validations, s4.value);
          assert r.Err? ==> r.error == WithValidation(validations, s4.value).error;
        }
      }
    }
  }

  /**
    When a field is prepared for sure: its type is not an array, its
    properties can lose `saveToFileMount` when it is an upload,
    `allowedMimeTypes` is unset or a list, and its validators are unset or a
    list of validators that are not strings and whose identifiers are not
    arrays. Unknown types are never refused.
   */
  lemma PreparedFieldOkWhen(types: map<string, string>, validations: map<string, string>, e: Fields)
    requires var t := GetKey(e, "type");
      var props := GetKey(e, "properties");
      var mimes := Get(props, "allowedMimeTypes");
      var validators := GetKey(e, "validators");
      && !IsArray(t)
      && !(IsUploadType(t) && RefusesUnset(props))
      && (mimes == Null || mimes.List?)
      && (validators == Null
          || (validators.List?
              && forall i :: 0 <= i < |validators.items| ==>
                   !validators.items[i].Str? && !IsArray(Get(validators.items[i], "identifier"))))
    ensures PreparedHooked(types, validations, e).Ok?
  {
    var props := GetKey(e, "properties");
    var validators := GetKey(e, "validators");
    if validators.List? {
      KeywordsSpec(validations, validators.items);
    }
    var mimes := Get(props, "allowedMimeTypes");
    if mimes.List? {
      MimeValidationLast(validations, validators, props, mimes.items);
    }
    PreparedFieldOkIff(types, validations, e);
  }
}
