# Collection catalog checkers

This project models the two type checkers of a Hugging Face collections catalog. Each checker reads a parsed
`collections.json` document: an array of collections, where each collection has an `owner` and a list of
`items`.

- **Item checker** (`src/test-items.ts`). It validates every item of every collection in two layers:
  - the base item schema, applied to the raw item;
  - the variant schema selected by the item's `type`: `model`, `dataset`, `space`, `paper` or
    `collection`. The variant schema is applied to the item with its base keys removed.

  Each raw schema error becomes one human-readable diagnostic, which carries a ` (base)` or
  ` (<Variant>)` suffix. The pass counts items, valid items and diagnostics, both in total and per tag.
- **Owner checker** (`src/test-owner.ts`). It validates each collection's own `owner` and each item's
  own `authorData` against the closed owner schema. It then counts the collections with an owner and
  the items with `authorData`.

The JSON schemas are checked the way an Ajv validator compiled with `allErrors: true` (and without
`verbose`) checks them. This is the `JsonSchema.Check` function, covering the keyword subset the
schemas use. `JsonSchema.Conforms` states what each keyword means without error lists, and
`JsonSchema.CheckEmptyIff` proves that `Check` reports nothing exactly when the value conforms.

The JavaScript semantics the checkers depend on are spelled out in module `Json`:

- truthiness (`!obj`);
- `typeof`;
- `String()` inside template literals;
- `Array.prototype.join`;
- property access;
- `hasOwnProperty`, which throws on `null` and on an object whose own `hasOwnProperty` key hides the
  method.

Any TypeError inside a pass abandons the pass for its catch block, and no summary is produced. The model
represents this as `Err(OtherError)`.

Modules, in dependency order:

- `Prelude`: `Option`, `Result` and string affixes.
- `Json`: JSON values and the JavaScript coercions.
- `JsonSchema`: the Ajv-style checker and its declarative meaning.
- `CatalogSchemas`: the literal schemas. The owner schema is defined once and used by both checkers.
- `Diagnostics`: translation of raw errors into diagnostic strings. It has one translator,
  parameterised by which keywords have a dedicated template at each call site.
- `ItemValidation`: `getBaseSchemaProperties`, `filterBaseProperties` and `validateApiCollectionItem`.
- `OwnerValidation`: `validateApiCollectionOwner`.
- `Collections`: what the two passes share, namely how a pass fails, which items of a collection it
  visits, and how it names an item.
- `ItemTally`: the counting loops of the item checker.
- `OwnerTally`: the counting loops of the owner checker, plus its `filter` and `reduce` summary counts.

Each imperative operation of the source is a method with loops, proved equal to a specification
function. Lemmas then state the properties of those functions.

Where the documented behaviour of the checkers and their code disagree, the model follows the code:

- `enum` and `const` diagnostics render the offending value as `undefined` (for `const`, as
  `"undefined"`). The reason is that `error.data` is only filled by a `verbose` validator, and neither
  checker compiles one.
- A `type` diagnostic reports `typeof` of the target's top-level key named by the whole instance path
  without its leading `/`. For errors deeper than the top level, that key does not exist, so the
  diagnostic says `got undefined`.
- The base schema is open at the item's top level, but its nested `note` object is closed. The base
  layer can therefore report an unexpected property under `/note`, through its default template.
- The expected-type check returns the mismatch diagnostic alone, and no schema is consulted after it.
- The per-type report after each item in the item pass calls `join` through `?.`. On a present value
  that is not an array, this throws and ends the pass.
- A `null` collection or item ends the pass with a TypeError rather than being reported as invalid.

## Model

| member | source | states |
|---|---|---|
| Json.Get | src/test-items.ts:374 | the value under a key is found exactly when the object owns that key, and it is that member's value |
| Json.Truthy | src/test-items.ts:387 | models `!obj`: null, false, 0 and the empty string are falsy, every other value is truthy |
| Json.FalsyValues | src/test-owner.ts:52 | a value is falsy if and only if it is null, false, 0 or the empty string |
| Json.TypeOf | src/test-items.ts:427 | `typeof` yields `undefined` exactly for a missing value |
| Json.NatToString | src/test-items.ts:554 | an index renders as a non-empty string of decimal digits |
| Json.ArrayIndex | src/test-items.ts:372 | a key names array index `i` exactly when `i` is in range and its decimal notation is the key |
| Json.Lookup | src/test-items.ts:547 | property access on an object reads its own member; on null, booleans and numbers it finds nothing |
| Json.HasOwnProperty | src/test-owner.ts:113 | `hasOwnProperty` throws exactly on null and on an object owning a `hasOwnProperty` key; otherwise it is true exactly when the property can be read |
| Json.ToString | src/test-items.ts:548 | models `String(v)`: the text of a string or number, `null`, `true` or `false`, an array joined by `,`, and `[object Object]` |
| Json.ArrayTextIsJoin | src/test-items.ts:548 | `String(array)` equals `array.join(",")` |
| Json.Join | src/test-items.ts:432 | models `Array.prototype.join`: each element rendered by `String`, null as the empty string, separators only between elements |
| Json.ToStringOrUndefined | src/test-items.ts:432 | models `${error.data}` in the `enum` template: `undefined` when there is no data, otherwise `String` of the value |
| Json.JoinFromString | src/test-items.ts:432 | `join` renders a string element as itself, followed by the separator unless it is last |
| Json.NamedKeyOnlyOnObjects | src/test-items.ts:535 | a named key such as `items` is owned only by objects |
| JsonSchema.Pointer | src/test-items.ts:415-417 | the instance path is empty exactly at the root and otherwise starts with `/` |
| JsonSchema.Message | src/test-items.ts:436 | every raw error has a non-empty default message, so the `validation error` fallback never applies |
| JsonSchema.Report | src/test-items.ts:337 | an error about the value itself carries the keyword's message, and data only in verbose mode |
| JsonSchema.Under | src/test-items.ts:415-417 | a child's errors reappear in the parent, one for one, with the child's key or index prefixed to the path |
| JsonSchema.TypeErrors | src/test-items.ts:112-115 | `type` violations are reported at the value itself |
| JsonSchema.EnumErrors | src/test-items.ts:116 | `enum` violations are reported at the value itself |
| JsonSchema.ConstErrors | src/test-items.ts:152 | `const` violations are reported at the value itself |
| JsonSchema.RequiredErrors | src/test-items.ts:109 | one error for each required name the object lacks, and only for those |
| JsonSchema.UndeclaredErrors | src/test-items.ts:150 | one error for each member whose key is not declared, and only for those |
| JsonSchema.AdditionalErrors | src/test-items.ts:110 | only a closed schema reports undeclared keys, and it reports every one of them |
| JsonSchema.PropertyErrors | src/test-items.ts:111-132 | errors of declared properties lie under a key that the object has and the schema declares |
| JsonSchema.ItemErrors | src/test-items.ts:162-165 | errors of array elements carry the keyword's message, and data only in verbose mode |
| JsonSchema.BranchErrors | src/test-items.ts:156-161 | errors of the `oneOf` branches carry the keyword's message, and data only in verbose mode |
| JsonSchema.BranchVerdicts | src/test-items.ts:156-161 | there is one verdict per `oneOf` branch |
| JsonSchema.CountTrue | src/test-items.ts:156-161 | the number of passing branches is at most the number of branches |
| JsonSchema.OneOfErrors | src/test-items.ts:156-161 | a schema without `oneOf` reports no `oneOf` error |
| JsonSchema.Check | src/test-items.ts:337 | with `allErrors` every violation is listed, each with its message, and data only in verbose mode |
| JsonSchema.PropertyErrorsInclude | src/test-items.ts:111-132 | an error inside a declared property `j` is among the property errors from every `i <= j` on |
| JsonSchema.PropertyViolation | src/test-items.ts:111-132 | a violation inside a declared property shows up in the parent's check, under its key |
| JsonSchema.CheckObjectShape | src/test-items.ts:412-438 | root errors of an object are type, enum or const violations, missing required names, or undeclared keys of a closed schema; every other error lies under a declared key the object has |
| JsonSchema.RootRequiredIff | src/test-items.ts:420-423 | a root `required` error names `f` if and only if `f` is required and missing |
| JsonSchema.RootAdditionalIff | src/test-items.ts:495-498 | a root `additionalProperties` error names `k` if and only if the schema is closed and `k` is present and undeclared |
| JsonSchema.CheckContainsRequired | src/test-items.ts:420-423 | each `required` error is among the check's errors |
| JsonSchema.CheckContainsAdditional | src/test-items.ts:495-498 | each `additionalProperties` error is among the check's errors |
| JsonSchema.CheckEmptyIff | src/test-items.ts:337-353 | the validator reports nothing if and only if the value conforms to the schema's keywords |
| JsonSchema.MembersEmptyIff | src/test-items.ts:107-133 | the object keywords report nothing if and only if required, closed and declared properties all hold |
| JsonSchema.RequiredEmptyIff | src/test-items.ts:109 | `required` reports nothing if and only if every required name is present |
| JsonSchema.AdditionalEmptyIff | src/test-items.ts:150 | `additionalProperties: false` reports nothing if and only if every key is declared |
| JsonSchema.PropertyErrorsEmptyIff | src/test-items.ts:111-132 | property errors are empty if and only if every present declared property conforms |
| JsonSchema.ItemErrorsEmptyIff | src/test-items.ts:162-165 | element errors are empty if and only if every element conforms to `items` |
| JsonSchema.OneOfEmptyIff | src/test-items.ts:156-161 | `oneOf` reports nothing if and only if exactly one branch conforms |
| JsonSchema.CountTrueOne | src/test-items.ts:156-161 | the count of passing branches is 0 if and only if none pass, and 1 if and only if exactly one does |
| JsonSchema.CheckContainsLocal | src/test-items.ts:425-434 | type, enum and const errors of a value are among its errors |
| JsonSchema.EnumViolationUnder | src/test-items.ts:430-433 | a declared property outside its `enum` is reported under its key |
| JsonSchema.TypeViolationUnder | src/test-items.ts:425-428 | a declared property of the wrong type is reported under its key with the wanted type name |
| Diagnostics.Field | src/test-items.ts:415-417 | the field of a diagnostic starts with the caller's path |
| Diagnostics.NullDiagnostic | src/test-items.ts:388 | models the falsy diagnostic `path is null or undefined` |
| Diagnostics.LookupKey | src/test-items.ts:427 | models `error.instancePath?.slice(1) \|\| ""` |
| Diagnostics.LookupKeyStripsSlash | src/test-items.ts:427 | the looked-up key is the instance path without its leading `/`, and empty at the root |
| Diagnostics.MessageOrDefault | src/test-items.ts:436 | models `error.message \|\| "validation error"` in the default case of the keyword switch |
| Diagnostics.Detail | src/test-items.ts:425-436 | models what follows the field in each `case` of the keyword switch, and the `default` text |
| Diagnostics.Body | src/test-items.ts:419-437 | models the keyword switch: `required` names `path.prop`, every other keyword starts with the field |
| Diagnostics.Translate | src/test-items.ts:414-438 | models one pushed diagnostic: the switch's text followed by the call site's suffix |
| Diagnostics.TranslateAll | src/test-items.ts:414-438 | there is one diagnostic per raw error, and the i-th is the rendering of the i-th raw error |
| Diagnostics.PushDiagnostics | src/test-items.ts:414-438 | the `forEach` appends the callback's diagnostic of each raw error, in order, after the existing ones |
| Diagnostics.TranslateLocates | src/test-items.ts:468-507 | every diagnostic starts with the caller's path and ends with its layer suffix |
| Diagnostics.RequiredIgnoresPath | src/test-items.ts:475-479 | the `required` diagnostic names `path.prop is required` whatever the instance path |
| Diagnostics.OwnerMatchesBaseLayer | src/test-owner.ts:66-89 | apart from `additionalProperties`, owner diagnostics are the base layer's without ` (base)` |
| Diagnostics.VariantMatchesBaseLayer | src/test-items.ts:474-488 | the variant layer renders `required`, `type` and `enum` exactly as the base layer does |
| Diagnostics.EscapePlainKey | src/test-items.ts:427 | a key without `~` or `/` appears in an instance path as itself |
| Diagnostics.TypeGotTopLevel | src/test-items.ts:480-483 | a top-level `type` error reports the wanted type and the `typeof` of that property's value |
| Diagnostics.TypeGotNested | src/test-items.ts:425-428 | a nested `type` error looks up a key containing `/`, which is missing, so it says `got undefined` |
| Diagnostics.TranslateAllIncludes | src/test-items.ts:468-507 | each raw error's diagnostic is in the translated list |
| Diagnostics.TwoLayersLocate | src/test-items.ts:410-509 | base diagnostics come first and end in the base suffix; variant ones follow and end in the variant's suffix |
| Diagnostics.TranslateAllLocates | src/test-items.ts:414-438 | every diagnostic of a call site starts with the path and ends with the site's suffix |
| Diagnostics.MissingRequiredDiagnostic | src/test-items.ts:420-423 | each required property the value lacks yields `path.prop is required` plus the layer suffix |
| Diagnostics.EnumDiagnosticText | src/test-items.ts:430-433 | an `enum` diagnostic on a top-level key lists the allowed values joined by `, `, says `got undefined` and ends with the layer suffix |
| Diagnostics.UnexpectedPropertyText | src/test-items.ts:495-498 | an undeclared key at the root renders as `path has unexpected property: key` plus the layer suffix |
| Diagnostics.BaseLayerDefaults | src/test-items.ts:435-436 | in the base layer `const`, `additionalProperties` and `oneOf` fall to `field message (base)` |
| Diagnostics.VariantOneOfText | src/test-items.ts:500-503 | a variant `oneOf` error renders the fixed allowed-patterns text |
| Diagnostics.VariantConstText | src/test-items.ts:490-493 | a variant `const` error names the allowed value and `"undefined"` |
| ItemValidation.BaseKeysListed | src/test-items.ts:107-133 | the base schema declares exactly `_id`, `position`, `type`, `id`, `note` and `gallery` |
| ItemValidation.CollectNames | src/test-items.ts:359-361 | the loop collects exactly the names of the given properties |
| ItemValidation.GetBaseSchemaProperties | src/test-items.ts:356-364 | the set collected key by key is the set of base property names |
| ItemValidation.WithoutKeys | src/test-items.ts:372-376 | a member survives if and only if its key is not dropped |
| ItemValidation.IndexMembers | src/test-items.ts:372 | an array's keys are its indices, each with its element |
| ItemValidation.KeepMembers | src/test-items.ts:372-376 | the loop keeps, in order, exactly the members whose key is not dropped |
| ItemValidation.KeepIndices | src/test-items.ts:372 | the loop lists each index of an array as a key, with its element |
| ItemValidation.Filtered | src/test-items.ts:367-380 | the filtered item is an object holding exactly the non-base members of an object; other non-arrays give `{}` |
| ItemValidation.FilterBaseProperties | src/test-items.ts:367-380 | the loop builds exactly the filtered item |
| ItemValidation.ValidateItem | src/test-items.ts:382-516 | models the validator's result: the falsy short cut, the mismatch short cut, else both layers' verdict and their diagnostics, base first |
| ItemValidation.TagOf | src/test-items.ts:396-397 | models `obj.type` of a truthy item: only an object can own a `type` key |
| ItemValidation.TypeMismatch | src/test-items.ts:392-398 | models the expected-type guard: a non-empty expected type and an own `type` that differs from it |
| ItemValidation.MismatchDiagnostic | src/test-items.ts:399-404 | models the text `path.type should be "expected", got "tag"` |
| ItemValidation.VariantFor | src/test-items.ts:445-460 | models the dispatch chain on `obj.type` to a variant schema and its name |
| ItemValidation.ValidateApiCollectionItem | src/test-items.ts:382-516 | the result is the falsy short cut, the mismatch short cut, or the two layers' verdict and diagnostics |
| ItemValidation.ValidateItemSchemaLayers | src/test-items.ts:407-515 | past the short cuts, the item is valid if and only if both layers report nothing, and its diagnostics are the base ones followed by the variant ones |
| ItemValidation.FalsyItemRejected | src/test-items.ts:387-389 | a falsy item gets the single `is null or undefined` diagnostic |
| ItemValidation.MismatchShortCut | src/test-items.ts:391-405 | a tag differing from a non-empty expected type gets only the mismatch diagnostic |
| ItemValidation.AgreeingExpectedType | src/test-items.ts:392-398 | an expected type that is empty, agrees with the tag, or meets no tag changes nothing |
| ItemValidation.DispatchMatchesTypeConstant | src/test-items.ts:445-460 | exactly the five tags select a variant, and that variant's `type` constant is the tag |
| ItemValidation.OtherTagsBaseOnly | src/test-items.ts:462 | with any other tag, only the base layer judges |
| ItemValidation.ItemValidIff | src/test-items.ts:382-516 | valid if and only if truthy, no mismatch, base-conforming and, for a known tag, the filtered item conforms to its variant |
| ItemValidation.ValidIffNoDiagnostics | src/test-items.ts:512-515 | an item is valid exactly when it has no diagnostic |
| ItemValidation.DiagnosticsInLayerOrder | src/test-items.ts:410-509 | one diagnostic per raw error; all start with the path; base ones come first with ` (base)`, then the variant's |
| ItemValidation.VariantSchemasHaveNoRootOneOf | src/test-items.ts:136-334 | every variant schema is closed and has no root `oneOf` |
| ItemValidation.VariantIgnoresBaseKeys | src/test-items.ts:463-465 | the variant layer never reports a base key, as unexpected or as a path start |
| ItemValidation.FilteredCheckIgnoresBaseKeys | src/test-items.ts:464-465 | no schema without a root `oneOf`, applied to the filtered item, mentions a base key |
| ItemValidation.VariantUnexpectedIff | src/test-items.ts:495-498 | a key is unexpected in the variant layer if and only if the item has it and neither schema declares it |
| ItemValidation.BaseOpenAtTopLevel | src/test-items.ts:110 | the base layer never reports an unexpected key of the item itself |
| ItemValidation.MissingBaseRequiredReported | src/test-items.ts:420-423 | each missing base-required key yields `path.key is required (base)` |
| ItemValidation.MissingVariantRequiredReported | src/test-items.ts:475-478 | each missing variant-required key of a known tag yields `path.key is required` plus the variant's suffix |
| ItemValidation.UnrecognisedTagRejected | src/test-items.ts:430-433 | an unknown tag makes the item invalid, with the base `enum` diagnostic listing the five tags and saying `got undefined (base)` |
| ItemValidation.TagEnumText | src/test-items.ts:430-433 | the base `enum` violation on `type` renders as `path/type should be one of [model, dataset, space, paper, collection], got undefined (base)` |
| ItemValidation.TagListText | src/test-items.ts:116 | the five tags join as `model, dataset, space, paper, collection` |
| ItemValidation.UnrecognisedTagViolation | src/test-items.ts:114-117 | the base `enum` on `type` rejects every tag outside the five, at `/type` |
| CatalogSchemas.GatedValues | src/test-items.ts:156-160 | `gated` accepts exactly `false`, `"auto"` and `"manual"` |
| CatalogSchemas.ReplicasRequestedValues | src/test-items.ts:77-85 | a space runtime's `replicas.requested` accepts exactly a number or `"auto"` |
| Collections.OwnItems | src/test-items.ts:534-535 | the visited items are the own `items` array; the step fails exactly when `hasOwnProperty` throws |
| Collections.ItemLabel | src/test-items.ts:554 | models the item path `collections[i].items[j]`, both indices in decimal |
| ItemTally.ItemType | src/test-items.ts:547 | models `item.type \|\| "unknown"` |
| ItemTally.TypeKey | src/test-items.ts:548 | models the counter key: the item type converted to a property key |
| ItemTally.TypeKeyCases | src/test-items.ts:547-548 | the counter key is the tag itself when that is a non-empty string, and `unknown` when the tag is missing or falsy |
| ItemTally.CountOf | src/test-items.ts:548 | models `counts[key] \|\| 0`: the stored count, or 0 for a key not yet present |
| ItemTally.Bump | src/test-items.ts:548 | models `counts[key] = (counts[key] \|\| 0) + 1`: one more for `key`, every other key unchanged |
| ItemTally.Seen | src/test-items.ts:546-548 | models the first step of the callback: `totalItems++` and one more in `itemsByType` under the item's key |
| ItemTally.ItemVerdict | src/test-items.ts:552-555 | models the call `validateApiCollectionItem(item, path)` with no expected type |
| ItemTally.JoinThrows | src/test-items.ts:592 | models when `x?.join(", ")` throws: a present value that is neither null nor an array |
| ItemTally.ReportThrows | src/test-items.ts:579-625 | models which per-type reports throw: a dataset's server-info lists, or a space's tags |
| ItemTally.OnlyDatasetsAndSpacesThrow | src/test-items.ts:570-642 | only the report of a dataset or a space can throw |
| ItemTally.Judged | src/test-items.ts:557-567 | models the verdict branch: a valid item bumps the valid counters, an invalid one adds its diagnostics to the errors |
| ItemTally.CountItem | src/test-items.ts:545-642 | models one callback: a null item or a throwing report ends the pass, any other item is seen and judged |
| ItemTally.CountItems | src/test-items.ts:545-642 | models the inner `forEach`: the items in order, stopping at the first fault |
| ItemTally.CountCollections | src/test-items.ts:533-644 | models the outer `forEach`: the collections in order, stopping at the first fault |
| ItemTally.Tally | src/test-items.ts:518-651 | models the pass's outcome: a fault for a document that is not an array, else the counters of the outer `forEach` |
| ItemTally.ValidateCollectionsItems | src/test-items.ts:518-568 | after the document checks, the collection loop computes exactly the pass's outcome |
| ItemTally.VisitCollections | src/test-items.ts:533-644 | the loop over the collections computes exactly the counting specification, aborting at the first throw |
| ItemTally.VisitItems | src/test-items.ts:545-642 | the loop over one collection's items computes exactly the counting specification, aborting at the first throw |
| ItemTally.VisitItem | src/test-items.ts:545-568 | the callback counts one item as the specification does, or fails where it throws |
| ItemTally.SeeItem | src/test-items.ts:546-548 | the first step of the callback counts one more item and one more of its type |
| ItemTally.ReportItem | src/test-items.ts:570-642 | the report ends the pass exactly when it throws, and otherwise leaves the counters as they are |
| ItemTally.RecordVerdict | src/test-items.ts:557-567 | a valid item bumps the valid counters; an invalid one adds one error per diagnostic |
| ItemTally.CountItemVerdict | src/test-items.ts:546-567 | counting an item with an already computed verdict matches counting it from scratch |
| ItemTally.ItemVerdictDecisive | src/test-items.ts:512-515 | the item validator is valid exactly when it reports no diagnostic, for every item and path |
| ItemTally.ItemFaultPersists | src/test-items.ts:545 | a throw among the first items ends the pass over all of them |
| ItemTally.CollectionFaultPersists | src/test-items.ts:533 | a throw among the first collections ends the pass over all of them |
| ItemTally.CountedKeepsConsistent | src/test-items.ts:546-567 | counting one item keeps valid items within the items, per tag too, with errors counted exactly when some item was invalid |
| ItemTally.Labelled | src/test-items.ts:545-556 | one visit per item of a collection, each with its `collections[i].items[j]` path |
| ItemTally.CountedAccounts | src/test-items.ts:546-567 | counting one more item accounts for it in every counter: items, valid items, errors, and both per-type maps, a key present exactly when its count is positive |
| ItemTally.CountedAccountsByKey | src/test-items.ts:557-560 | the per-type valid counters account for one more item |
| ItemTally.CountItemsAccounts | src/test-items.ts:545-642 | counting a collection's items accounts, in every counter, for each of its visits judged by the validator |
| ItemTally.CountItemsOutcome | src/test-items.ts:545-642 | for any validator that is valid exactly when it reports nothing: a collection's items fail exactly when one aborts, always as OtherError; otherwise consistency is kept (the counts themselves are `ItemTally.CountItemsAccounts`) |
| ItemTally.CountCollectionsOutcome | src/test-items.ts:533-644 | for any validator that is valid exactly when it reports nothing: the collections fail exactly when one aborts; otherwise consistency is kept and every counter equals its count over the visited items, each judged by the validator |
| ItemTally.TallyOutcome | src/test-items.ts:527-651 | the pass fails exactly when some collection aborts; otherwise it counts every collection and visited item, valid items and errors are the valid visits and the diagnostics of the invalid ones, each per-type map holds exactly the tags seen with their counts, and zero errors holds exactly when every item is valid |
| OwnerValidation.ValidateApiCollectionOwner | src/test-owner.ts:48-97 | the result is the falsy short cut or the owner schema's verdict with one diagnostic per error |
| OwnerValidation.ValidateOwner | src/test-owner.ts:48-97 | models the owner validator's result: the falsy short cut, else the owner schema's verdict with one diagnostic per raw error |
| OwnerValidation.FalsyOwnerRejected | src/test-owner.ts:52-54 | a falsy owner gets the single `is null or undefined` diagnostic |
| OwnerValidation.OwnerValidIff | src/test-owner.ts:56 | valid if and only if truthy and conforming to the owner schema |
| OwnerValidation.OwnerDiagnostics | src/test-owner.ts:59-96 | valid exactly when there is no diagnostic; one diagnostic per raw error, each starting with the path |
| OwnerValidation.MissingOwnerFieldReported | src/test-owner.ts:67-70 | each missing required owner field yields `path.field is required` and invalidity |
| OwnerValidation.UndeclaredOwnerKeyReported | src/test-owner.ts:82-85 | each undeclared owner key yields `path has unexpected property: key` and invalidity |
| OwnerValidation.UndeclaredOwnerKeyText | src/test-owner.ts:82-85 | an undeclared owner key renders as `path has unexpected property: key`, without a suffix |
| OwnerValidation.OwnerLayer | src/test-owner.ts:56-96 | past the falsy short cut, the verdict and diagnostics are those of the owner schema |
| OwnerValidation.OwnerKeysPlain | src/test-owner.ts:17-42 | no owner key contains `~` or `/` |
| OwnerValidation.OwnerFieldTypeReported | src/test-owner.ts:72-76 | a field of the wrong type yields `path/field should be T, got <typeof value>` |
| OwnerValidation.OwnerFieldTypeText | src/test-owner.ts:72-76 | an owner field's `type` violation renders as `path/field should be T, got <typeof value>` |
| OwnerValidation.UnrecognisedOwnerTypeReported | src/test-owner.ts:77-81 | a `type` other than `user` and `org` yields the enum diagnostic with `got undefined` |
| OwnerValidation.OwnerTypeEnumText | src/test-owner.ts:77-81 | the `enum` violation on `type` renders as `path/type should be one of [user, org], got undefined` |
| OwnerValidation.OwnerTypeEnumViolation | src/test-owner.ts:33 | the owner schema rejects every `type` other than `user` and `org`, at `/type` |
| OwnerValidation.OwnerKindsText | src/test-owner.ts:33 | the owner kinds join as `user, org` |
| OwnerTally.ValidateCollectionsOwners | src/test-owner.ts:99-191 | after the document checks, the collection loop, the `filter` and the `reduce` compute exactly the pass's outcome |
| OwnerTally.Judged | src/test-owner.ts:131-140 | models the verdict branch: a valid owner or `authorData` bumps its counter, an invalid one adds its diagnostics to the errors |
| OwnerTally.OwnerPath | src/test-owner.ts:129 | models the owner path `collections[i].owner` |
| OwnerTally.AuthorDataPath | src/test-owner.ts:149 | models the path `collections[i].items[j].authorData` |
| OwnerTally.CheckItem | src/test-owner.ts:146-163 | models one item: a throwing `hasOwnProperty` ends the pass, an own `authorData` is validated and judged |
| OwnerTally.CheckItems | src/test-owner.ts:145-164 | models the inner `forEach`: the items in order, stopping at the first fault |
| OwnerTally.CheckCollection | src/test-owner.ts:112-166 | models one collection: both `hasOwnProperty` calls, then the own owner if any, then the items |
| OwnerTally.CheckCollections | src/test-owner.ts:112-166 | models the outer `forEach`: the collections in order, stopping at the first fault |
| OwnerTally.CollectionsWithOwner | src/test-owner.ts:172 | models the `filter` for an own `owner` |
| OwnerTally.WithAuthorData | src/test-owner.ts:180-182 | models the inner `filter` for an own `authorData` |
| OwnerTally.ItemsWithAuthorData | src/test-owner.ts:176-186 | models the `reduce` over the collections, which reads `collection.items` |
| OwnerTally.AuthorDataContribution | src/test-owner.ts:177-185 | models the `reduce` callback: the items owning `authorData` when `collection.items` is truthy and an array, otherwise nothing; a null collection throws |
| OwnerTally.Tally | src/test-owner.ts:103-191 | models the pass's outcome: the checking loop, then the `filter` and `reduce` counts |
| OwnerTally.VisitCollections | src/test-owner.ts:112-166 | the loop over the collections computes exactly the checking specification, aborting at the first throw |
| OwnerTally.VisitCollection | src/test-owner.ts:112-166 | the callback checks one collection's owner and then its items exactly as specified |
| OwnerTally.VisitItems | src/test-owner.ts:145-164 | the loop over one collection's items computes exactly the checking specification, aborting at the first throw |
| OwnerTally.VisitItem | src/test-owner.ts:145-164 | an item's own `authorData` is validated and counted; a throwing `hasOwnProperty` fails |
| OwnerTally.RecordVerdict | src/test-owner.ts:131-140 | a valid descriptor bumps its counter; an invalid one adds one error per diagnostic |
| OwnerTally.CountCollectionsWithOwner | src/test-owner.ts:172 | the loop computes the `filter` count |
| OwnerTally.CountItemsWithAuthorData | src/test-owner.ts:176-186 | the loop computes the `reduce` count, aborting at the first throw |
| OwnerTally.CountWithAuthorData | src/test-owner.ts:180-182 | the loop computes the inner `filter` count of one collection's items |
| OwnerTally.ItemFaultPersists | src/test-owner.ts:145 | a throw among the first items ends the pass over all of them |
| OwnerTally.CollectionFaultPersists | src/test-owner.ts:112 | a throw among the first collections ends the pass over all of them |
| OwnerTally.CountFaultPersists | src/test-owner.ts:172 | a throw in the `filter` ends it |
| OwnerTally.FilterFaultPersists | src/test-owner.ts:180-182 | a throw in the inner `filter` ends it |
| OwnerTally.ReduceFaultPersists | src/test-owner.ts:176-186 | a throw in the `reduce` ends it |
| OwnerTally.JudgedBalanced | src/test-owner.ts:131-140 | one more validation keeps valid counts within validations, with errors counted exactly when one was invalid |
| OwnerTally.JudgedTallied | src/test-owner.ts:131-140 | recording one verdict accounts for one more validation: in its subject's valid count, or in the diagnostic total |
| OwnerTally.CheckItemsAccounts | src/test-owner.ts:145-164 | checking a collection's items records the verdict of each of its `authorData` validations, in order |
| OwnerTally.CheckCollectionAccounts | src/test-owner.ts:112-166 | checking a collection records the verdict of its owner validation, if any, then of its items' |
| OwnerTally.AuthorDataValidationsCounted | src/test-owner.ts:145-164 | a collection's items give one `authorData` validation per item owning `authorData`, and no owner validation |
| OwnerTally.ValidationsCounted | src/test-owner.ts:112-166 | the loop performs one owner validation per collection with an own owner and one `authorData` validation per visited item owning it |
| OwnerTally.CheckItemsOutcome | src/test-owner.ts:145-164 | a collection's items fail exactly when one throws, always as OtherError; otherwise the bounds grow by the number of `authorData` validations (the counters themselves are `OwnerTally.CheckItemsAccounts`) |
| OwnerTally.HasOwnPropertyThrowsAlike | src/test-owner.ts:113-115 | `hasOwnProperty` throws for one key exactly when it throws for any other |
| OwnerTally.CheckCollectionsOutcome | src/test-owner.ts:112-166 | the loop fails exactly when some collection throws; otherwise each owner and `authorData` validation is counted once, and the counters equal the valid counts and diagnostic total over the loop's validations |
| OwnerTally.CheckCollectionOutcome | src/test-owner.ts:112-166 | one collection fails exactly when it throws, always as OtherError; otherwise the bounds grow by its owner and `authorData` validations (the counters themselves are `OwnerTally.CheckCollectionAccounts`) |
| OwnerTally.CollectionsWithOwnerCounts | src/test-owner.ts:172 | the `filter` fails exactly when a `hasOwnProperty` throws, and otherwise equals the number of owner validations |
| OwnerTally.WithAuthorDataCounts | src/test-owner.ts:180-182 | the inner `filter` fails exactly when a `hasOwnProperty` throws, and otherwise counts items owning `authorData` |
| OwnerTally.ItemsWithAuthorDataCounts | src/test-owner.ts:176-186 | where nothing throws, the `reduce` equals the number of `authorData` validations of the loop |
| OwnerTally.ContributionCounts | src/test-owner.ts:177-185 | for a collection that does not throw, the `reduce` step adds exactly the `authorData` validations of its own items |
| OwnerTally.OwnerTallyOutcome | src/test-owner.ts:108-198 | the pass fails exactly when some collection throws; otherwise the `filter` and `reduce` counts are the numbers of owner and `authorData` validations, the valid counts and errors are the valid verdicts and diagnostics over those validations, and zero errors holds exactly when all are valid |

## Left out

- Reading the file and `JSON.parse` are not modelled. Each pass takes the parsed document, or the fault
  reading it raised (`InvalidJson`, `FileNotFound`), as a parameter.
- Console output is not modelled: the collection and item logs, the per-type analyses and the summary
  lines. Only the counters the summaries print are modelled, plus the `join` calls of the per-type
  report, because those can throw (`ItemTally.ReportThrows`).
- Numbers are modelled as integers. The schemas only ask whether a value is a number, and floating point
  plays no part in any verdict.
- An object is a list of members in document order, so a repeated key can be represented. On such an
  object the model departs from `JSON.parse`, which keeps only the last value of a key: `Json.Get` and
  `Json.Lookup` read the first member with the key, `ItemValidation.Filtered` keeps every copy of a
  non-base key, and `JsonSchema.UndeclaredErrors` reports an undeclared key once per member. Objects
  without repeated keys are modelled exactly.
- Prototype properties are not modelled. Reading `item.type` or `collection.items` finds only own members,
  array or string indices, and `length`. An object's inherited methods (`toString`, `constructor`) and
  `__proto__` keys are outside the model, and so is the counter-map behaviour of tags such as
  `__proto__`.
- `String()` of an object is `[object Object]`. An object whose own `toString` or `valueOf` members are not
  callable, which makes the conversion throw, is not modelled.
- Within one schema check, the model reports violations in its own fixed keyword order. Ajv's internal
  order of discovery is not modelled, and neither are the exact sub-errors Ajv emits for a failed `oneOf`
  branch. Whether a value is valid, and which violations exist, do not depend on either.
- Schema compilation is not modelled: the schemas are literal values.
- `JsonSchema.Check` covers only the keywords the catalog schemas use. Formats, patterns and numeric
  bounds do not occur in them.
