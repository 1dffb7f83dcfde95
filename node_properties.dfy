/**
  The walk over the definition tree (`handleRenderables`) and the decorated
  root (`__invoke`).
 */
module NodeProperties {
  import opened PhpValue
  import opened Tables
  import opened DecoratorSpec
  import opened FieldProperties

  /**
    A list decorates exactly when every entry does, and then entry `i` of the
    result is entry `i` decorated: the walk keeps order and length.
   */
  lemma {:induction false} DecorateListSpec(c: Config, xs: seq<Value>, formId: string)
    ensures DecorateList(c, xs, formId).Ok? <==> forall i :: 0 <= i < |xs| ==> DecorateNode(c, xs[i], formId).Ok?
    ensures DecorateList(c, xs, formId).Ok? ==>
            forall i :: 0 <= i < |xs| ==> DecorateList(c, xs, formId).value[i] == DecorateNode(c, xs[i], formId).value
    decreases |xs|
  {
    if xs != [] {
      DecorateListSpec(c, xs[1..], formId);
      assert forall i :: 1 <= i < |xs| ==> xs[i] == xs[1..][i - 1];
    }
  }

  /** The first entry that fails decides the error of the whole list. */
  lemma {:induction false} DecorateListStopsAt(c: Config, xs: seq<Value>, formId: string, i: nat)
    requires i < |xs|
    requires forall j :: 0 <= j < i ==> DecorateNode(c, xs[j], formId).Ok?
    requires DecorateNode(c, xs[i], formId).Err?
    ensures DecorateList(c, xs, formId) == Err(DecorateNode(c, xs[i], formId).error)
    decreases i
  {
    if i > 0 {
      assert forall j :: 0 <= j < i - 1 ==> xs[1..][j] == xs[j + 1];
      DecorateListStopsAt(c, xs[1..], formId, i - 1);
    }
  }

  /**
    A container is not prepared as a field: it decorates exactly when its
    children do, and becomes itself with the decorated children under
    `elements` and without `renderables`, `defaultValue` and `properties`.
    Any other key (`type` and `identifier` among them) is kept as it is.
   */
  lemma ContainerNode(c: Config, m: Fields, formId: string, k: string)
    requires IsContainer(m) && m["renderables"].List?
    requires k !in {"elements", "renderables", "defaultValue", "properties"}
    ensures var r := DecorateNode(c, Obj(m), formId);
      var children := DecorateList(c, m["renderables"].items, formId);
      && (r.Ok? <==> children.Ok?)
      && (r.Err? ==> r.error == children.error)
      && (r.Ok? ==>
            && r.value.Obj?
            && GetKey(r.value.fields, "elements") == List(children.value)
            && "renderables" !in r.value.fields && "defaultValue" !in r.value.fields && "properties" !in r.value.fields
            && GetKey(r.value.fields, k) == GetKey(m, k)
            && (k in r.value.fields <==> k in m))
  {
    var children := DecorateList(c, m["renderables"].items, formId);
    if children.Ok? {
      var f := m["elements" := List(children.value)] - {"renderables"} - {"defaultValue"} - {"properties"};
      assert DecorateNode(c, Obj(m), formId) == Ok(Obj(f));
    }
  }

  /** A `Page`, `Fieldset` or `GridRow` without children is not a container: it is prepared as a field. */
  lemma ChildlessContainerIsField(c: Config, m: Fields, formId: string)
    requires GetKey(m, "type") in {Str("Page"), Str("Fieldset"), Str("GridRow")}
    requires GetKey(m, "renderables") in {Null, List([]), Obj(map[])}
    ensures var f := PreparedField(c, m, formId);
      DecorateNode(c, Obj(m), formId) == (if f.Ok? then Ok(Obj(f.value)) else Err(f.error))
  {
    assert !IsContainer(m);
  }

  /**
    Under the default type table, and an element hook that leaves `type`
    alone, a `Page`, `Fieldset` or `GridRow` without children is decorated
    as a field of type `hidden`.
   */
  lemma ChildlessContainerHidden(c: Config, m: Fields, formId: string)
    requires c.types == TYPES
    requires GetKey(Hooked(c, m, formId), "type") == GetKey(m, "type")
    requires GetKey(m, "type") in {Str("Page"), Str("Fieldset"), Str("GridRow")}
    requires GetKey(m, "renderables") in {Null, List([]), Obj(map[])}
    ensures var r := DecorateNode(c, Obj(m), formId);
      r.Ok? ==> r.value.Obj? && GetKey(r.value.fields, "type") == Str(HIDDEN)
  {
    ChildlessContainerIsField(c, m, formId);
    PreparedFieldType(c.types, c.validations, Hooked(c, m, formId));
    DefaultHiddenTags();
  }

  /** A node that cannot be a form element (a scalar) stops the walk. */
  lemma ScalarNodeRefused(c: Config, x: Value, formId: string)
    requires !IsArray(x)
    ensures DecorateNode(c, x, formId) == Err(NodeNotArray)
  {
  }

  /**
    The definition decorates exactly when its identifier is a string and its
    `renderables` are unset, empty, or a list whose every entry decorates.
   */
  lemma DecorateDefinitionOkIff(c: Config, formStatus: Value, definition: Fields, currentPage: int)
    ensures var rs := GetKey(definition, "renderables");
      var formId := GetKey(definition, "identifier");
      DecorateDefinition(c, formStatus, definition, currentPage).Ok?
      <==> && formId.Str?
           && (rs == Null || rs == Obj(map[])
               || (rs.List? && forall i :: 0 <= i < |rs.items| ==> DecorateNode(c, rs.items[i], formId.s).Ok?))
  {
    var rs := GetKey(definition, "renderables");
    var formId := GetKey(definition, "identifier");
    if formId.Str? && rs.List? {
      DecorateListSpec(c, rs.items, formId.s);
    }
  }

  /**
    Scalar `renderables` are refused before the identifier is looked at; a
    definition whose identifier is not a string is refused next.
   */
  lemma DecorateDefinitionErrors(c: Config, formStatus: Value, definition: Fields, currentPage: int)
    ensures var r := DecorateDefinition(c, formStatus, definition, currentPage);
      var rs := GetKey(definition, "renderables");
      && (rs != Null && !IsArray(rs) ==> r == Err(NotAnArray("renderables")))
      && ((rs == Null || IsArray(rs)) && !GetKey(definition, "identifier").Str? ==> r == Err(FormIdNotString))
  {
  }

  /**
    Under an identity definition hook the decorated root has exactly `id`,
    `api`, `i18n`, `renderingOptions` and `elements`: the form's identifier,
    the status given to the decorator, the translations (empty when unset),
    the rendering options, and one decorated element per top-level node.
   */
  lemma DecoratedRootShape(c: Config, formStatus: Value, definition: Fields, currentPage: int)
    requires forall d: Fields, def: Fields, n: int :: c.overrideDefinition(d, def, n) == d
    ensures var r := DecorateDefinition(c, formStatus, definition, currentPage);
      var rs := GetKey(definition, "renderables");
      var nodes := if rs.List? then rs.items else [];
      var i18n := Get(GetKey(definition, "i18n"), "properties");
      r.Ok? ==>
        && r.value.Keys == {"id", "api", "i18n", "renderingOptions", "elements"}
        && r.value["id"] == GetKey(definition, "identifier")
        && r.value["api"] == formStatus
        && r.value["i18n"] == (if i18n == Null then List([]) else i18n)
        && r.value["renderingOptions"] == GetKey(definition, "renderingOptions")
        && r.value["elements"].List?
        && |r.value["elements"].items| == |nodes|
        && forall i :: 0 <= i < |nodes| ==>
             DecorateNode(c, nodes[i], GetKey(definition, "identifier").s) == Ok(r.value["elements"].items[i])
  {
    var r := DecorateDefinition(c, formStatus, definition, currentPage);
    var rs := GetKey(definition, "renderables");
    var formId := GetKey(definition, "identifier");
    if r.Ok? && rs.List? {
      DecorateListSpec(c, rs.items, formId.s);
    }
  }
}
