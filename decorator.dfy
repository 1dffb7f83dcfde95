/**
  The decorator itself: a `FormDefinitionDecorator` holds the two tables and
  the form status, and turns a form definition into the client's form
  description step by step, as `AbstractFormDefinitionDecorator` does. Each
  method is proved to compute what the functions of module DecoratorSpec say.
 */
module Decorator {
  import opened PhpValue
  import opened Tables
  import opened DecoratorSpec
  import opened FieldProperties
  import opened NodeProperties

  class FormDefinitionDecorator {
    /** `$TYPES`: framework element type to client field type. */
    var types: map<string, string>
    /** `$VALIDATIONS`: validator identifier to client validation keyword. */
    var validations: map<string, string>
    /** The status handed through to the client as `api`. */
    var formStatus: Value

    /** A decorator with the default tables and the given form status (an array). */
    constructor(formStatus: Value)
      requires IsArray(formStatus)
      ensures types == TYPES && validations == VALIDATIONS && this.formStatus == formStatus
    {
      types := TYPES;
      validations := VALIDATIONS;
      this.formStatus := formStatus;
    }

    /** The element hook; the base class hands the element back unchanged. */
    function OverrideElement(element: Fields): (r: Fields)
      ensures r == element
    {
      element
    }

    /** The definition hook; the base class hands the decorated root back unchanged. */
    function OverrideDefinition(decorated: Fields, definition: Fields, currentPage: int): (r: Fields)
      ensures r == decorated
    {
      decorated
    }

    /** The tables and hooks of this decorator, as the transformation functions take them. */
    function Configuration(): (c: Config)
      reads this
      ensures c.types == types && c.validations == validations
    {
      Config(types, validations, OverrideElement, OverrideDefinition)
    }

    /** `prepareElement`: the element named, handed through the element hook, and prepared. */
    method PrepareElement(element: Fields, formId: string) returns (r: Result<Fields>)
      ensures r == PreparedField(Configuration(), element, formId)
    {
      var el := element["name" := Str(FieldName(formId, GetKey(element, "identifier")))];
      el := OverrideElement(el);
      assert el == Hooked(Configuration(), element, formId);
      r := PrepareHooked(el);
    }

    /** The rest of `prepareElement`, block by block in the order of the PHP code. */
    method PrepareHooked(element: Fields) returns (r: Result<Fields>)
      ensures r == PreparedHooked(types, validations, element)
    {
      var el :- TypeElement(element);
      el :- TakeProperties(el);
      el :- TakeValidators(el);
      el := el - {"identifier"};
      el := el - {"defaultValue"};
      r := Ok(el);
    }

    /** The blocks of `prepareElement` up to the client type. */
    method TypeElement(element: Fields) returns (r: Result<Fields>)
      ensures r == Typed(types, element)
    {
      var el := element;
      ghost var identified := WithIdentity(WithoutEmptyLabel(el));
      if Isset(el, "label") && el["label"] == Str("") {
        el := el - {"label"};
      }
      assert identified == WithIdentity(el);
      el := el["id" := GetKey(el, "identifier")];
      el := el["validationName" := if Isset(el, "label") then el["label"] else GetKey(el, "identifier")];
      if Isset(el, "defaultValue") && el["defaultValue"] != Str("") {
        el := el["value" := el["defaultValue"]];
      }
      assert el == identified;
      if IsUploadType(GetKey(el, "type")) {
        var props := GetKey(el, "properties");
        if RefusesUnset(props) {
          return Err(UnsetOnScalar("properties"));
        }
        if props.Obj? {
          el := el["properties" := Obj(props.fields - {"saveToFileMount"})];
        }
      }
      assert WithoutFileMount(identified) == Ok(el);
      var t := GetKey(el, "type");
      if IsArray(t) {
        return Err(IllegalOffset("type"));
      }
      r := Ok(el["type" := Str(TypeTag(types, t))]);
    }

    /** The `properties` block of `prepareElement`: promotions, the mime validator, and the removal. */
    method TakeProperties(el: Fields) returns (r: Result<Fields>)
      ensures r == WithoutProperties(el)
    {
      if !Isset(el, "properties") {
        return Ok(el);
      }
      var prop := el["properties"];
      var m := el;
      var options := Get(prop, "options");
      if options != Null {
        m := m["options" := options];
      }
      var description := Get(prop, "elementDescription");
      if description != Null && description != Str("") {
        m := m["help" := description];
      }
      var placeholder := Get(Get(prop, "fluidAdditionalAttributes"), "placeholder");
      var prepend := Get(prop, "prependOptionLabel");
      if placeholder != Null {
        m := m["placeholder" := placeholder];
      } else if prepend != Null {
        m := m["placeholder" := prepend];
      }
      assert m == WithPromoted(prop, el);
      var mimes := Get(prop, "allowedMimeTypes");
      if mimes != Null {
        var mimeTypes :- AsList(mimes, "allowedMimeTypes");
        if !Isset(m, "validators") {
          m := m["validators" := List([])];
        }
        var validators :- AppendEntry(m["validators"], MimeEntry(mimeTypes));
        m := m["validators" := validators];
      }
      r := Ok(m - {"properties"});
    }

    /** The `validators` block of `prepareElement`: the `validation` string, and the removal. */
    method TakeValidators(el: Fields) returns (r: Result<Fields>)
      ensures r == WithValidation(validations, el)
    {
      if !Isset(el, "validators") {
        return Ok(el);
      }
      var items :- AsList(el["validators"], "validators");
      var keywords :- Keywords(validations, items);
      var m := el["validation" := Str(Join("|", keywords))];
      r := Ok(m - {"validators"});
    }

    /**
      `handleRenderables`: every entry of a `renderables` list decorated in
      place, a container by decorating its children, any other entry by
      preparing it as a field. The first entry that fails stops the walk.
     */
    method HandleRenderables(renderables: seq<Value>, formId: string) returns (r: Result<seq<Value>>)
      ensures r == DecorateList(Configuration(), renderables, formId)
      decreases renderables, 0
    {
      var out := renderables;
      var i := 0;
      while i < |out|
        invariant 0 <= i <= |out| == |renderables|
        invariant out[i..] == renderables[i..]
        invariant forall j :: 0 <= j < i ==> DecorateNode(Configuration(), renderables[j], formId) == Ok(out[j])
      {
        assert out[i] == renderables[i];
        var node := HandleNode(out[i], formId);
        if node.Err? {
          DecorateListStopsAt(Configuration(), renderables, formId, i);
          return Err(node.error);
        }
        out := out[i := node.value];
        i := i + 1;
      }
      DecorateListSpec(Configuration(), renderables, formId);
      assert DecorateList(Configuration(), renderables, formId).value == out;
      r := Ok(out);
    }

    /** The body of the `handleRenderables` loop, for one entry. */
    method HandleNode(element: Value, formId: string) returns (r: Result<Value>)
      ensures r == DecorateNode(Configuration(), element, formId)
      decreases element, 1
    {
      match element {
        case Obj(m) =>
          if IsContainer(m) {
            var rs := m["renderables"];
            if rs.Obj? {
              return Err(OutsideModel("renderables"));
            }
            var elements :- HandleRenderables(rs.items, formId);
            var container := m["elements" := List(elements)];
            container := container - {"renderables"};
            container := container - {"defaultValue"};
            container := container - {"properties"};
            r := Ok(Obj(container));
          } else {
            var field :- PrepareElement(m, formId);
            r := Ok(Obj(field));
          }
        case List(ys) =>
          if ys != [] {
            return Err(OutsideModel("node"));
          }
          var field :- PrepareElement(map[], formId);
          r := Ok(Obj(field));
        case _ =>
          r := Err(NodeNotArray);
      }
    }

    /**
      `__invoke`: the decorated root (identifier, status, translations,
      rendering options and the decorated top-level nodes), handed through
      the definition hook.
     */
    method Invoke(definition: Fields, currentPage: int) returns (r: Result<Fields>)
      ensures r == DecorateDefinition(Configuration(), formStatus, definition, currentPage)
    {
      var renderables := GetKey(definition, "renderables");
      var formId := GetKey(definition, "identifier");
      if renderables != Null && !IsArray(renderables) {
        return Err(NotAnArray("renderables"));
      }
      if !formId.Str? {
        return Err(FormIdNotString);
      }
      var nodes: seq<Value> := [];
      if renderables != Null {
        nodes :- AsList(renderables, "renderables");
      }
      var decorated: Fields := map[];
      decorated := decorated["id" := formId];
      decorated := decorated["api" := formStatus];
      var i18n := Get(GetKey(definition, "i18n"), "properties");
      decorated := decorated["i18n" := if i18n == Null then List([]) else i18n];
      decorated := decorated["renderingOptions" := GetKey(definition, "renderingOptions")];
      var elements :- HandleRenderables(nodes, formId.s);
      decorated := decorated["elements" := List(elements)];
      r := Ok(OverrideDefinition(decorated, definition, currentPage));
    }

    /** Under the base element hook every prepared field is named after its own identifier. */
    lemma PreparedFieldsNamed(element: Fields, formId: string)
      ensures var r := PreparedField(Configuration(), element, formId);
        r.Ok? ==> GetKey(r.value, "name") == Str(FieldName(formId, GetKey(element, "identifier")))
    {
      PreparedFieldName(Configuration(), element, formId);
    }

    /**
      Under the base definition hook a decorated definition has exactly `id`,
      `api`, `i18n`, `renderingOptions` and `elements`, with the form
      identifier, this decorator's status and one element per top-level node.
     */
    lemma InvokeShape(definition: Fields, currentPage: int)
      ensures var r := DecorateDefinition(Configuration(), formStatus, definition, currentPage);
        var rs := GetKey(definition, "renderables");
        var nodes := if rs.List? then rs.items else [];
        r.Ok? ==>
          && r.value.Keys == {"id", "api", "i18n", "renderingOptions", "elements"}
          && r.value["id"] == GetKey(definition, "identifier")
          && r.value["api"] == formStatus
          && r.value["elements"].List?
          && |r.value["elements"].items| == |nodes|
          && forall i :: 0 <= i < |nodes| ==>
               DecorateNode(Configuration(), nodes[i], GetKey(definition, "identifier").s) == Ok(r.value["elements"].items[i])
    {
      DecoratedRootShape(Configuration(), formStatus, definition, currentPage);
    }
  }
}
