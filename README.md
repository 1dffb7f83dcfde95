# Headless form definition decorator

A model of `AbstractFormDefinitionDecorator`, the part of the TYPO3 "headless"
extension that turns a form framework definition into the JSON-ready form
description a headless front-end renders. It takes a definition tree, where
pages, fieldsets and grid rows hold `renderables` and the leaves are fields,
and produces a root object (`id`, `api`, `i18n`, `renderingOptions`,
`elements`). Containers keep their shape, with `elements` in place of
`renderables`. Every field is rewritten by a fixed sequence of key sets and
unsets:
- `name`, `id`, `validationName` and `value` are derived;
- the framework `type` becomes the client type;
- `options`, `help` and `placeholder` are promoted out of `properties`;
- the validator list, plus one validator built from `allowedMimeTypes`,
  becomes the `|`-joined `validation` string.

Modules:
- `PhpValue`: the PHP values the decorator sees, as a datatype.
  - A PHP array is `List` (positional) or `Obj` (string keys).
  - A missing key reads as `Null`.
  - `isset` means "present and not null".
  - This module also holds PHP's string conversion and `join`.
- `Tables`: the `TYPES` and `VALIDATIONS` tables and the two lookups made
  through them, with their fallbacks (`hidden`, identity).
- `DecoratorSpec`: what the decorator computes, as functions of its inputs.
  - Field preparation is a chain of step functions, one per block of
    `prepareElement`, in source order.
  - A `Result` carries the PHP runtime errors the code can raise on malformed
    input.
  - `Config` carries the tables and the two override hooks, so the
    properties hold for any hook a subclass supplies.
- `FieldProperties`, `ValidationProperties`: what a prepared field holds,
  key by key, and exactly when preparation fails.
- `NodeProperties`: the walk over the tree (order, length, the container
  test) and the shape of the root.
- `Decorator`: the class `FormDefinitionDecorator`, which holds the tables and
  the form status as fields.
  - Its methods do the work step by step, as the PHP does.
  - Each method is proved to compute what the `DecoratorSpec` function says.
  - The walk is a loop over the list that rewrites entries in place.

On malformed input the model follows the PHP:
- A field without `identifier` or `type` is not rejected: like the PHP, it
  reads them as null, so `id` is null and `type` is `hidden`.
- It fails where PHP 8 throws:
  - a non-string form identifier;
  - a scalar where an array is required;
  - an array used as a table key;
  - unsetting an offset of a scalar `properties`;
  - reading `identifier` of a validator that is a string (line 166).
- It also has one stop of its own, `OutsideModel`, for input PHP accepts but
  the model does not follow:
  - a non-empty string-keyed map where a list is iterated, whose order a
    Dafny map does not keep;
  - a non-empty positional list used as a node.

## Model

| member | source | states |
|---|---|---|
| Tables.HiddenIffUnknown | Classes/Form/Decorator/AbstractFormDefinitionDecorator.php:130 | under the default table a type is tagged `hidden` exactly when the table does not list it |
| Tables.DefaultTextTags | Classes/Form/Decorator/AbstractFormDefinitionDecorator.php:21-26 | the client tags of StaticText, Text, Textarea, Password and Email |
| Tables.DefaultInputTags | Classes/Form/Decorator/AbstractFormDefinitionDecorator.php:27-32 | the client tags of Telephone, Url, Number, Date and FileUpload |
| Tables.DefaultChoiceTags | Classes/Form/Decorator/AbstractFormDefinitionDecorator.php:31-35 | the client tags of SingleSelect, Checkbox, MultiCheckbox and RadioButton |
| Tables.DefaultHiddenTags | Classes/Form/Decorator/AbstractFormDefinitionDecorator.php:21-36 | ImageUpload, Fieldset, Page, GridRow and a missing type are not in the table and become `hidden` |
| Tables.DefaultKeywords | Classes/Form/Decorator/AbstractFormDefinitionDecorator.php:38-42 | EmailAddress, NotEmpty and Number map to email, required and number; any other identifier passes through |
| PhpValue.Count | Classes/Form/Decorator/AbstractFormDefinitionDecorator.php:85 | `count` of an array is zero exactly for the empty array |
| PhpValue.JoinAppend | Classes/Form/Decorator/AbstractFormDefinitionDecorator.php:162-170 | joining one more part adds it after one more separator |
| DecoratorSpec.AsList | Classes/Form/Decorator/AbstractFormDefinitionDecorator.php:162-169 | iterating a list yields its entries; a scalar is refused; a result has as many entries as the array counts |
| DecoratorSpec.Named | Classes/Form/Decorator/AbstractFormDefinitionDecorator.php:107 | naming adds exactly the `name` key |
| DecoratorSpec.MimeEntry | Classes/Form/Decorator/AbstractFormDefinitionDecorator.php:153-155 | the mime validator's identifier is `mime:` and the comma-joined types |
| DecoratorSpec.AppendEntry | Classes/Form/Decorator/AbstractFormDefinitionDecorator.php:152-153 | `[]=` appends to a list and starts a one-entry list on null |
| DecoratorSpec.ValidatorsWithMime | Classes/Form/Decorator/AbstractFormDefinitionDecorator.php:151-156 | without `allowedMimeTypes` the validators are unchanged; the result is null only if the validators were |
| DecoratorSpec.Keywords | Classes/Form/Decorator/AbstractFormDefinitionDecorator.php:164-169 | `array_map` yields one keyword per validator; a string validator or an array identifier stops it |
| DecoratorSpec.DecorateList | Classes/Form/Decorator/AbstractFormDefinitionDecorator.php:81-96 | the walk yields a list as long as its input |
| Tables.TypeTag | Classes/Form/Decorator/AbstractFormDefinitionDecorator.php:130 | a listed type gets the table's tag; any tag other than `hidden` comes from a listed type |
| Tables.Keyword | Classes/Form/Decorator/AbstractFormDefinitionDecorator.php:166 | a listed identifier gets the table's keyword; any other keyword is the identifier's string form |
| DecoratorSpec.FieldName | Classes/Form/Decorator/AbstractFormDefinitionDecorator.php:107 | the name is `tx_form_formframework[`, the form id, and ends in `]`, with the identifier between (the whole name in `PreparedFieldName`) |
| DecoratorSpec.IsContainer | Classes/Form/Decorator/AbstractFormDefinitionDecorator.php:83-85 | the container test: a strict `Page`/`Fieldset`/`GridRow` type and a non-empty array of `renderables` (a definition; its consequences in `ContainerNode` and `ChildlessContainerIsField`) |
| DecoratorSpec.IsUploadType | Classes/Form/Decorator/AbstractFormDefinitionDecorator.php:126 | the loose upload test: `ImageUpload`, `FileUpload`, or `true`, which loosely equals any non-empty string (a definition; used by `EarlyStepsOutcome`) |
| DecoratorSpec.RefusesUnset | Classes/Form/Decorator/AbstractFormDefinitionDecorator.php:127 | the values of `properties` whose offset PHP cannot unset: strings, integers and `true` (a definition; used by `EarlyStepsOutcome`) |
| DecoratorSpec.MimeIdentifier | Classes/Form/Decorator/AbstractFormDefinitionDecorator.php:154 | the mime identifier starts with `mime:` (the comma-joined types follow, as in `MimeEntry`) |
| DecoratorSpec.WithoutEmptyLabel | Classes/Form/Decorator/AbstractFormDefinitionDecorator.php:111-115 | the result never holds an empty label (the rest in `LabelStepAt`) |
| DecoratorSpec.WithIdentity | Classes/Form/Decorator/AbstractFormDefinitionDecorator.php:117-124 | `id` is always written, as the identifier, and so is `validationName` (the rest in `IdentityStepAt`) |
| DecoratorSpec.WithoutFileMount | Classes/Form/Decorator/AbstractFormDefinitionDecorator.php:126-128 | the block fails exactly for an upload with a scalar `properties`, and leaves `type` alone (the rest in `FileMountStepAt`) |
| DecoratorSpec.WithClientType | Classes/Form/Decorator/AbstractFormDefinitionDecorator.php:130 | the block fails exactly on an array type, and otherwise writes a string `type` (the rest in `ClientTypeStepAt`) |
| DecoratorSpec.WithPromoted | Classes/Form/Decorator/AbstractFormDefinitionDecorator.php:135-149 | promotion leaves `properties` and `validators` alone (the rest in `PromotedAt`) |
| DecoratorSpec.WithMimeValidator | Classes/Form/Decorator/AbstractFormDefinitionDecorator.php:151-156 | without `allowedMimeTypes` nothing changes, and `properties` is never touched (the rest in `MimeStep`) |
| DecoratorSpec.DecoratedRoot | Classes/Form/Decorator/AbstractFormDefinitionDecorator.php:60-68 | the root has exactly the five keys, with the form id, the status and the elements (the rest in `DecoratedRootShape`) |
| Decorator.FormDefinitionDecorator.constructor | Classes/Form/Decorator/AbstractFormDefinitionDecorator.php:49-52 | a new decorator holds the default tables and the given form status |
| Decorator.FormDefinitionDecorator.OverrideElement | Classes/Form/Decorator/AbstractFormDefinitionDecorator.php:184-187 | the base element hook returns its argument |
| Decorator.FormDefinitionDecorator.OverrideDefinition | Classes/Form/Decorator/AbstractFormDefinitionDecorator.php:195-198 | the base definition hook returns the decorated root |
| Decorator.FormDefinitionDecorator.Invoke | Classes/Form/Decorator/AbstractFormDefinitionDecorator.php:58-72 | `__invoke` computes `DecorateDefinition` of the decorator's tables, hooks and form status |
| Decorator.FormDefinitionDecorator.HandleRenderables | Classes/Form/Decorator/AbstractFormDefinitionDecorator.php:79-97 | the in-place loop computes `DecorateList`; the loop invariant keeps every rewritten entry equal to its decorated original |
| Decorator.FormDefinitionDecorator.HandleNode | Classes/Form/Decorator/AbstractFormDefinitionDecorator.php:82-93 | one loop step computes `DecorateNode`: the container branch or field preparation |
| Decorator.FormDefinitionDecorator.PrepareElement | Classes/Form/Decorator/AbstractFormDefinitionDecorator.php:104-178 | `prepareElement` computes `PreparedField`: the element named, hooked and taken through every block |
| Decorator.FormDefinitionDecorator.PrepareHooked | Classes/Form/Decorator/AbstractFormDefinitionDecorator.php:111-177 | the blocks after the hook compute `PreparedHooked` |
| Decorator.FormDefinitionDecorator.TypeElement | Classes/Form/Decorator/AbstractFormDefinitionDecorator.php:111-130 | the label, identity, upload and type blocks compute `Typed` |
| Decorator.FormDefinitionDecorator.TakeProperties | Classes/Form/Decorator/AbstractFormDefinitionDecorator.php:132-159 | the `properties` block computes `WithoutProperties` |
| Decorator.FormDefinitionDecorator.TakeValidators | Classes/Form/Decorator/AbstractFormDefinitionDecorator.php:161-172 | the `validators` block computes `WithValidation` |
| Decorator.FormDefinitionDecorator.PreparedFieldsNamed | Classes/Form/Decorator/AbstractFormDefinitionDecorator.php:107-109 | under the base hook every prepared field's `name` is built from the form id and its own identifier |
| Decorator.FormDefinitionDecorator.InvokeShape | Classes/Form/Decorator/AbstractFormDefinitionDecorator.php:58-72 | under the base hook the root has exactly five keys: the form id, this decorator's status, and one decorated element per top-level node, in order |
| FieldProperties.PreparedFieldSteps | Classes/Form/Decorator/AbstractFormDefinitionDecorator.php:111-177 | a successful preparation passed every block, and its result is the last block's output without `identifier` and `defaultValue` |
| FieldProperties.LabelStepAt | Classes/Form/Decorator/AbstractFormDefinitionDecorator.php:111-115 | only an empty label is removed; no other key changes |
| FieldProperties.IdentityStepAt | Classes/Form/Decorator/AbstractFormDefinitionDecorator.php:117-124 | `id`, `validationName` and a non-empty default `value` are written; no other key changes |
| FieldProperties.FileMountStepAt | Classes/Form/Decorator/AbstractFormDefinitionDecorator.php:126-128 | the upload block changes nothing but `properties.saveToFileMount` |
| FieldProperties.ClientTypeStepAt | Classes/Form/Decorator/AbstractFormDefinitionDecorator.php:130 | the type block writes the table's tag and changes no other key |
| FieldProperties.PromotedAt | Classes/Form/Decorator/AbstractFormDefinitionDecorator.php:135-149 | promotion writes `options`, a non-empty `help`, and `placeholder` with the attribute before `prependOptionLabel`; nothing else |
| FieldProperties.MimeStep | Classes/Form/Decorator/AbstractFormDefinitionDecorator.php:151-156 | the mime block leaves the validators `ValidatorsWithMime` describes, fails exactly when that does, and changes no other key |
| FieldProperties.PropertiesStepAt | Classes/Form/Decorator/AbstractFormDefinitionDecorator.php:132-159 | a set `properties` is read, then removed; the other keys are the promoted ones |
| FieldProperties.ValidationStepAt | Classes/Form/Decorator/AbstractFormDefinitionDecorator.php:161-172 | set validators become the joined keywords under `validation` and are removed |
| FieldProperties.MimeReadsAllowedTypes | Classes/Form/Decorator/AbstractFormDefinitionDecorator.php:151-155 | the mime block reads only `allowedMimeTypes` of the properties |
| FieldProperties.PropertiesAsHooked | Classes/Form/Decorator/AbstractFormDefinitionDecorator.php:126-135 | the properties read by the promotions and the mime block are the hooked element's, apart from `saveToFileMount` |
| FieldProperties.TypedAt | Classes/Form/Decorator/AbstractFormDefinitionDecorator.php:111-130 | the value of every key but `properties` once the type is written, in terms of the hooked element |
| FieldProperties.FinishedAt | Classes/Form/Decorator/AbstractFormDefinitionDecorator.php:132-175 | the value of every key but `validation` after the last three blocks |
| FieldProperties.ReadKey | Classes/Form/Decorator/AbstractFormDefinitionDecorator.php:111-177 | the value of every key but `validation` of a prepared field: dropped, else promoted, else derived, else the hooked element's own |
| FieldProperties.PreparedFieldDropsRawKeys | Classes/Form/Decorator/AbstractFormDefinitionDecorator.php:158-175 | `identifier`, `defaultValue`, `properties` and `validators` read as null on a prepared field |
| FieldProperties.PreparedFieldLabel | Classes/Form/Decorator/AbstractFormDefinitionDecorator.php:111-115 | an empty label reads as null; any other label is kept |
| FieldProperties.PreparedFieldIds | Classes/Form/Decorator/AbstractFormDefinitionDecorator.php:117-118 | `id` is the identifier; `validationName` is the non-empty label, else the identifier |
| FieldProperties.PreparedFieldValue | Classes/Form/Decorator/AbstractFormDefinitionDecorator.php:120-124 | `value` is a set, non-empty `defaultValue`, else the element's own |
| FieldProperties.PreparedFieldType | Classes/Form/Decorator/AbstractFormDefinitionDecorator.php:130 | `type` is the table's tag of the element type, `hidden` for every unlisted type |
| FieldProperties.PreparedFieldOptionsHelp | Classes/Form/Decorator/AbstractFormDefinitionDecorator.php:135-143 | `options` comes from `properties.options`; `help` from a non-empty `elementDescription`; else the element's own |
| FieldProperties.PreparedFieldPlaceholder | Classes/Form/Decorator/AbstractFormDefinitionDecorator.php:145-149 | `placeholder` comes from the fluid attribute, else from `prependOptionLabel`, else the element's own |
| FieldProperties.KeptKeyPresence | Classes/Form/Decorator/AbstractFormDefinitionDecorator.php:104-178 | a key the blocks neither write nor drop is present in the prepared field exactly when it is in the hooked element |
| FieldProperties.PreparedFieldKeepsOtherKeys | Classes/Form/Decorator/AbstractFormDefinitionDecorator.php:104-178 | every key the blocks neither write nor drop keeps the hooked element's value, and is present exactly when it was |
| FieldProperties.PreparedFieldName | Classes/Form/Decorator/AbstractFormDefinitionDecorator.php:107-109 | `name` uses the identifier from before the hook, for any hook that leaves `name` alone |
| FieldProperties.PreparedFieldAbsentKeys | Classes/Form/Decorator/AbstractFormDefinitionDecorator.php:111-175 | no `identifier` or `defaultValue`, no empty label, no set `properties`, no set validators on a prepared field |
| FieldProperties.SurvivesFinish | Classes/Form/Decorator/AbstractFormDefinitionDecorator.php:132-175 | a key written before the `properties` block, other than the four raw ones, is still present at the end |
| FieldProperties.PreparedFieldPresentKeys | Classes/Form/Decorator/AbstractFormDefinitionDecorator.php:117-172 | `id`, `validationName` and `type` are always present; `validation` whenever there were validators |
| ValidationProperties.KeywordsSpec | Classes/Form/Decorator/AbstractFormDefinitionDecorator.php:164-169 | the keywords exist exactly when no validator is a string and no identifier is an array, and are then the looked-up identifiers in list order |
| ValidationProperties.KeywordsError | Classes/Form/Decorator/AbstractFormDefinitionDecorator.php:166 | the only failures are a string validator and an identifier that is an array |
| ValidationProperties.KeywordsAppend | Classes/Form/Decorator/AbstractFormDefinitionDecorator.php:162-169 | one more validator adds its keyword at the end |
| ValidationProperties.PreparedFieldValidation | Classes/Form/Decorator/AbstractFormDefinitionDecorator.php:151-172 | `validation` is the `\|`-join of the keywords of the validators, mime validator included, or the element's own when there are none |
| ValidationProperties.PreparedFieldEmptyValidation | Classes/Form/Decorator/AbstractFormDefinitionDecorator.php:161-170 | an empty validator list with no mime types gives an empty `validation` |
| ValidationProperties.MimeValidationLast | Classes/Form/Decorator/AbstractFormDefinitionDecorator.php:151-170 | the mime validator comes after the existing validators, and its keyword comes last in `validation`, after one more `\|` |
| ValidationProperties.DefaultMimeKeyword | Classes/Form/Decorator/AbstractFormDefinitionDecorator.php:38-42 | the default table passes a mime identifier through unchanged |
| ValidationProperties.PropertiesStepOutcome | Classes/Form/Decorator/AbstractFormDefinitionDecorator.php:132-159 | the `properties` block fails exactly when `ValidatorsWithMime` does, with the same error |
| ValidationProperties.ValidationStepOutcome | Classes/Form/Decorator/AbstractFormDefinitionDecorator.php:161-172 | the `validators` block fails exactly on a malformed list, a string validator or an array identifier, with one of four errors |
| ValidationProperties.EarlyStepsOutcome | Classes/Form/Decorator/AbstractFormDefinitionDecorator.php:126-130 | the upload block fails exactly on a scalar `properties` of an upload; the type block fails exactly on an array type |
| ValidationProperties.PreparedFieldOkIff | Classes/Form/Decorator/AbstractFormDefinitionDecorator.php:104-178 | both directions: a field is prepared exactly when no block's failure condition holds |
| ValidationProperties.PreparedFieldEarlyErrors | Classes/Form/Decorator/AbstractFormDefinitionDecorator.php:126-130 | an upload with a scalar `properties` fails with that error first, then an array type |
| ValidationProperties.PreparedFieldErrors | Classes/Form/Decorator/AbstractFormDefinitionDecorator.php:104-178 | every failure of preparation is one of eight named errors |
| ValidationProperties.PreparedFieldOkWhen | Classes/Form/Decorator/AbstractFormDefinitionDecorator.php:104-178 | well-shaped types, properties, mime types and validators (none a string, no identifier an array) are always prepared, whatever the type name |
| NodeProperties.DecorateListSpec | Classes/Form/Decorator/AbstractFormDefinitionDecorator.php:81-96 | the walk succeeds exactly when every entry does, and entry i of the result is entry i decorated |
| NodeProperties.DecorateListStopsAt | Classes/Form/Decorator/AbstractFormDefinitionDecorator.php:81-94 | the first failing entry decides the walk's error |
| NodeProperties.ContainerNode | Classes/Form/Decorator/AbstractFormDefinitionDecorator.php:82-90 | a container gets its decorated children as `elements`, loses `renderables`, `defaultValue` and `properties`, and keeps every other key with its value and its presence |
| NodeProperties.ChildlessContainerIsField | Classes/Form/Decorator/AbstractFormDefinitionDecorator.php:82-93 | a page, fieldset or grid row without children is prepared as a field |
| NodeProperties.ChildlessContainerHidden | Classes/Form/Decorator/AbstractFormDefinitionDecorator.php:82-93 | under the default table, and a hook that keeps `type`, such a node is decorated as a field of type `hidden` |
| NodeProperties.ScalarNodeRefused | Classes/Form/Decorator/AbstractFormDefinitionDecorator.php:92 | a scalar entry cannot be prepared |
| NodeProperties.DecorateDefinitionOkIff | Classes/Form/Decorator/AbstractFormDefinitionDecorator.php:58-69 | both directions: a definition decorates exactly when its identifier is a string and every top-level node decorates |
| NodeProperties.DecorateDefinitionErrors | Classes/Form/Decorator/AbstractFormDefinitionDecorator.php:62-69 | scalar `renderables` are refused first, then a non-string identifier |
| NodeProperties.DecoratedRootShape | Classes/Form/Decorator/AbstractFormDefinitionDecorator.php:58-71 | under an identity definition hook the root has exactly `id`, `api`, `i18n` (empty when unset), `renderingOptions` and `elements`, one decorated element per node |

## Left out

- The mime identifier (line 154) is written with PHP's arithmetic `+`, which cannot build the string and fails on non-numeric operands under PHP 8. `DecoratorSpec.MimeIdentifier` models the evidently intended concatenation `"mime:" + join(",", types)`.
- PHP arrays keep insertion order. A Dafny `map` has no order, so the order of keys in a node and in the output is not modelled. A string-keyed, non-empty map where a list is iterated is reported as `OutsideModel` rather than walked.
- Numeric-string keys, integer keys on nodes, and floating-point values are not modelled. Numbers are integers only.
- A non-empty positional list used as a node, or as a map of `properties`, reads every string key as null. As a node it is `OutsideModel`.
- The constructor's default argument (`[]`) is not modelled: callers pass the status.
- The tables are public, mutable fields in PHP. The model keeps them as fields set by the constructor and never changed.
- Subclasses may override the two hooks. The spec functions take any hook through `Config`. `PreparedFieldName` and `DecoratedRootShape` assume hooks that leave `name` alone or return the decorated root.
- PHP warnings (undefined keys, `Array to string conversion`) are not modelled. A missing key reads as null, and an array converts to `"Array"`, as PHP does.
- JSON serialisation of the result, and the contents of the opaque payloads (`formStatus`, `renderingOptions`, `i18n`, `options`), are not modelled.
- FieldProperties.PreparedFieldLabel: states that an empty label reads as null, not that the key is absent. `PreparedFieldAbsentKeys` states the absence.
- FieldProperties.PreparedFieldDropsRawKeys: states that `properties` and `validators` read as null. `PreparedFieldAbsentKeys` states when they are absent. A `properties` or `validators` that was null in the element stays, with its null value, as in PHP.
