# Editable grid: cell dispatch, number input and save reconciliation in Dafny

This project models the core of a Power Apps component framework control
that shows a Dataverse view as an inline-editable grid. It covers four
pieces of logic:

- **Save reconciler** (`DataverseService`). It folds a row's pending edits
  into one JSON body. A simple lookup is written under the key
  `<field>@odata.bind`, the entity-binding annotation of section 8.5 of
  OData JSON Format Version 4.0. When the grid is a subgrid and no edit
  already targets the parent navigation property, the body also binds the
  parent record. An id shorter than 15 characters creates a record; a
  longer id updates it. The same module maps fetched metadata to grid
  records: relationships, option-set options, number precision, the
  currency symbol, lookup picker tags, and paged retrieval.
- **Cell dispatcher** (`GridCell`). It maps a column's type tag to an
  editor. Any unlisted tag gets free text. It finds the row's cell and the
  column's requirement flag, and computes the extra metadata only for new
  rows. It also builds the two store actions an edit dispatches: the
  pending edit and the row update.
- **Number editor** (`NumberFormat`). It turns input into the pair
  `(number, display string)`. Empty input gives `(null, '')`. Precision 2 on
  the field means "use the currency's precision". It also takes the
  currency id out of a pending `/set(id)` value, sets the disabled rule,
  and keeps the required-field flag.
- **Lookup slice** (`LookupSlice`). It resolves each lookup column to the
  first relationship that refers to it. The reducers form a two-field
  state.

`Js` holds the JavaScript notions these rely on: `any` values and their
truthiness, `??`, `Array.prototype.find`, and `toString` on integers, whose
inverse parser is proved. `RecordSlice` holds the shapes of pending edits.

State the source updates in place is a class: the service's module
globals (`DataverseService.Service`), the editor's `isInvalid` state
(`NumberFormat.NumberInput`) and the lookup slice
(`LookupSlice.LookupState`). The rest is datatypes and functions. Host and
network calls are parameters or returned request values.

A pending transaction-currency edit decides the currency a number is
formatted with, but only after a race. The render requests that currency
and, while it runs, uses the row's cached one
(`NumberFormat.ResolveCurrency`, `NumberFormat.CurrencyIgnoresPendingEdits`).
The request's callback then overwrites the render's `currentCurrency`, so
a blur after the request has resolved formats with the fetched currency,
and a blur before it with the cached one. `NumberFormat.CurrencyAtEvent`
takes the fetched result, if any, as a parameter and covers both cases
(`NumberFormat.FetchedCurrencyDecidesFormat`).

## Model

| member | source | states |
|---|---|---|
| `DataverseService.ParentReference` | EditableTable/services/DataverseService.ts:21-25 | the parent value is `/`, the entity set name, `(`, the id, `)`, with each part at its stated position |
| `DataverseService.Service.SetContext` | EditableTable/services/DataverseService.ts:27-34 | the target entity is set, the client URL becomes the page URL plus `/api/data/v9.2/`, and the parent value becomes the parent record's reference |
| `DataverseService.Service.constructor` | EditableTable/services/DataverseService.ts:7-10 | the module globals before `setContext` (empty strings here) |
| `DataverseService.Service.OpenFormOptions` | EditableTable/services/DataverseService.ts:36-43 | the form opens the given id in the same window, for the given entity or else the target entity |
| `DataverseService.PayloadKeys` | EditableTable/services/DataverseService.ts:110-114 | the folded payload's keys are exactly the edits' keys: `fieldName@odata.bind` for `Lookup.Simple`, `fieldName` otherwise |
| `DataverseService.PayloadLastWins` | EditableTable/services/DataverseService.ts:110-114 | an edit that no later edit overrides gives its key its own `newValue`, so the later of two same-key edits wins |
| `DataverseService.ParentFieldIsValid` | EditableTable/services/DataverseService.ts:105-107 | true iff the parent field name is defined, non-empty, and named by no pending edit |
| `DataverseService.Payload` | EditableTable/services/DataverseService.ts:110-114 | the reduce step: the last edit's key holds the last edit's value |
| `DataverseService.PayloadValuesFromEdits` | EditableTable/services/DataverseService.ts:110-114 | every key of the folded object holds the value of some edit that writes that key |
| `DataverseService.SavePayload` | EditableTable/services/DataverseService.ts:105-119 | when the parent field is valid, the body is the fold plus `name@odata.bind -> parent value`, with every other key unchanged; otherwise the body is exactly the fold |
| `DataverseService.ParentBinding` | EditableTable/services/DataverseService.ts:110-119 | the body's keys are the edits' keys, plus the parent binding key exactly when the parent field is valid |
| `DataverseService.ParentEditNotOverwritten` | EditableTable/services/DataverseService.ts:105-119 | a user's simple-lookup edit of the parent field blocks the injection and keeps the user's value under the binding key |
| `DataverseService.Route` | EditableTable/services/DataverseService.ts:121-126 | the request is a create iff the id is shorter than 15 characters, otherwise an update with that id; exactly one happens, with the same entity and body |
| `DataverseService.Service.SaveRecord` | EditableTable/services/DataverseService.ts:109-127 | the fold loop with its conditional parent assignment sends the routed request for the reconciled body |
| `DataverseService.RetrieveAllRecords` | EditableTable/services/DataverseService.ts:49-59 | pages are requested until the first one without a next link; the result is every entity of those pages, in order |
| `DataverseService.CollectedSplit` | EditableTable/services/DataverseService.ts:53-57 | after `n` pages that link onward, the entities still to collect are those collected from page `n` on |
| `DataverseService.Relationships` | EditableTable/services/DataverseService.ts:129-154 | one-to-many, then many-to-one, then many-to-many, each group in order, with the total length kept; many-to-many entries have no navigation property, and the other groups keep the fetched one (which may be missing) |
| `DataverseService.LookupOptions` | EditableTable/services/DataverseService.ts:156-170 | one tag per fetched record, in order, keyed by its id and named `(No Name)` when the record has no primary name |
| `DataverseService.GetDropdownOptions` | EditableTable/services/DataverseService.ts:172-195 | it throws when the attribute or the needed option data is missing, and only then within the model; a two-option field gives the true option and then the false option; otherwise there is one option per source option, in order, keyed by the value's decimal string |
| `DataverseService.DropdownKeysIdentifyValues` | EditableTable/services/DataverseService.ts:180-183 | each option key parses back to its value, so two keys are equal iff the two values are equal |
| `DataverseService.NumberFieldMetadataOf` | EditableTable/services/DataverseService.ts:197-210 | precision is `PrecisionSource` if present (0 included), else `Precision`, else 0; it throws when no attribute came back |
| `DataverseService.CurrencySymbol` | EditableTable/services/DataverseService.ts:212-221 | the record's currency symbol when it is present and non-empty, otherwise the user's symbol |
| `Js.Find` | EditableTable/components/EditableGrid/GridCell.tsx:49 | `find` returns the element at the first index satisfying the predicate, and undefined iff no element does |
| `Js.ParseIntToDecimal` | EditableTable/services/DataverseService.ts:181 | the decimal string of an integer option value parses back to that value |
| `GridCell.WidgetFor` | EditableTable/components/EditableGrid/GridCell.tsx:73-125 | each of the 15 listed tags selects its own editor; every other tag, `SingleLine.Text` and `Multiple` included, selects enabled text; customer and owner lookups select disabled text |
| `GridCell.ValueFor` | EditableTable/components/EditableGrid/GridCell.tsx:74-125 | numeric editors get `formattedValue ?? ''`, text editors the formatted value, lookups the cell's lookup, date and option editors the raw value, the duration editor the raw and formatted values, the language and time-zone editors the raw value |
| `GridCell.IsRequired` | EditableTable/components/EditableGrid/GridCell.tsx:51-53 | the flag of the first requirement entry for the column key, and false when there is none |
| `GridCell.NewRowMetadataOf` | EditableTable/components/EditableGrid/GridCell.tsx:55-61 | parent metadata exists iff the row is new; the owner value exists iff the row is new and the tag is `Lookup.Owner` |
| `GridCell.RenderCell` | EditableTable/components/EditableGrid/GridCell.tsx:49-129 | the output is empty iff no cell has the column key; otherwise the tag's editor gets the first matching cell's value, the row key, the requirement flag, the field name or `''`, and for a new row the current user's name as owner value (owner lookups) and the parent record's metadata (simple lookups) |
| `GridCell.CustomerOwnerAlwaysDisabled` | EditableTable/components/EditableGrid/GridCell.tsx:84-86 | customer and owner lookups render as disabled text whatever the requirement levels |
| `GridCell.OnCellChange` | EditableTable/components/EditableGrid/GridCell.tsx:33-47 | the pending edit has the row key, the navigation name if non-empty or else the column key, the column's tag and the new value; the row update has `rawValue ?? newValue` under the column key |
| `GridCell.NumberEditFlow` | EditableTable/components/InputComponents/NumberFormat.tsx:60-65 | a number edit stores the parsed number (null for empty input) as the pending edit; the row gets the display string (`''` for empty input) |
| `GridCell.LookupEditSavedAsBinding` | EditableTable/components/EditableGrid/GridCell.tsx:35-40 | a simple-lookup edit made through its navigation name is saved as `name@odata.bind` with the user's value, and as the parent link it suppresses the parent injection |
| `GridCell.NumberCellDisabledOnlyForBaseCurrency` | EditableTable/components/EditableGrid/GridCell.tsx:63-70 | a grid number cell never passes `isDisabled` or `isSecured`, so it is disabled exactly for a base-currency field |
| `NumberFormat.GroupFrom` | EditableTable/components/InputComponents/NumberFormat.tsx:39 | the regular expression's leftmost match: a `(`, one or more characters other than `)`, then a `)` |
| `NumberFormat.TransactionId` | EditableTable/components/InputComponents/NumberFormat.tsx:39 | the group of the first match, non-empty and free of `)`; none iff nothing matches |
| `NumberFormat.TransactionIdOfReference` | EditableTable/components/InputComponents/NumberFormat.tsx:38-39 | for a `/set(id)` reference with no `(` in `set` and a non-empty `id` free of `)`, the extracted id is `id` |
| `NumberFormat.PendingCurrency` | EditableTable/components/InputComponents/NumberFormat.tsx:32-34 | the `transactioncurrencyid` edit of the row's first pending record; none when the row has no pending record, and otherwise none iff that record has no such edit |
| `NumberFormat.ResolveCurrency` | EditableTable/components/InputComponents/NumberFormat.tsx:32-49 | a render throws iff the row's pending currency value is truthy but not a string containing a match; the render-time currency is the row's first cached one, or none, and the requested id is the match's group |
| `NumberFormat.CurrencyIgnoresPendingEdits` | EditableTable/components/InputComponents/NumberFormat.tsx:36-49 | pending edits never change the render-time currency |
| `NumberFormat.CurrencyAtEvent` | EditableTable/components/InputComponents/NumberFormat.tsx:36-49 | a handler sees the fetched currency (for the row, with the fetched symbol and precision) once a requested currency has resolved, and the render-time currency otherwise |
| `NumberFormat.FetchedCurrencyDecidesFormat` | EditableTable/components/InputComponents/NumberFormat.tsx:40-44 | after the requested currency resolves, a currency field with precision 2 is formatted in the fetched currency's precision and symbol |
| `NumberFormat.SpinButton` | EditableTable/components/InputComponents/NumberFormat.tsx:88-94 | disabled iff `isBaseCurrency` is true or `isDisabled` or `isSecured`; precision, minimum and maximum come from the metadata, with precision 0 when there is none |
| `NumberFormat.Render` | EditableTable/components/InputComponents/NumberFormat.tsx:29-49 | the metadata is the first entry whose field name matches, none iff no entry matches; the render fails exactly when currency resolution throws |
| `NumberFormat.ChangeNumberFormat` | EditableTable/components/InputComponents/NumberFormat.tsx:51-61 | the parsed number goes with a currency display in the given precision when there is a currency and `isBaseCurrency` is defined, and with a decimal display in the field's own precision otherwise, the given precision then unused |
| `NumberFormat.OnNumberChange` | EditableTable/components/InputComponents/NumberFormat.tsx:51-78 | the new value is null iff the input is empty, and the display is then `''`; otherwise the parsed number goes with a currency display (when the currency is present and `isBaseCurrency` is defined) in the currency's precision if the field's is 2 and the field's otherwise, or else a decimal display in the field's own precision, each formatting `numberValue \|\| 0` |
| `NumberFormat.EmptyInputShortcut` | EditableTable/components/InputComponents/NumberFormat.tsx:63-65 | empty input gives the same call whatever the formatters, currency and metadata |
| `NumberFormat.NumberInput.constructor` | EditableTable/components/InputComponents/NumberFormat.tsx:27 | the flag starts false |
| `NumberFormat.NumberInput.OnFocus` | EditableTable/components/InputComponents/NumberFormat.tsx:102 | focus clears the flag |
| `NumberFormat.NumberInput.CheckValidation` | EditableTable/components/InputComponents/NumberFormat.tsx:80-84 | the flag becomes true when the field is required and the input is empty, and is never cleared here |
| `NumberFormat.NumberInput.OnBlur` | EditableTable/components/InputComponents/NumberFormat.tsx:95-101 | a changed input is reported through `onNumberChange`, with the fetched currency once it has resolved and the render-time one before, and is validated; an unchanged one does nothing |
| `LookupSlice.ResolveLookup` | EditableTable/store/features/LookupSlice.ts:47-67 | the logical name is the column's field name; the reference is the first relationship whose `fieldNameRef` equals it, or none iff there is no such relationship; the entity name passed on is the match's `entityNameRef`, or `''` when there is no match or it has none |
| `LookupSlice.ResolveLookups` | EditableTable/store/features/LookupSlice.ts:44-69 | one lookup per column, in column order |
| `LookupSlice.LookupState.SetLookupsPayload` | EditableTable/store/features/LookupSlice.ts:46-48 | the thunk resolves the columns against the relationships currently in the store |
| `LookupSlice.LookupState.constructor` | EditableTable/store/features/LookupSlice.ts:31-34 | both fields start empty |
| `LookupSlice.LookupState.SetRelationshipsFulfilled` | EditableTable/store/features/LookupSlice.ts:76-78 | relationships become the payload; lookups stay unchanged |
| `LookupSlice.LookupState.SetRelationshipsRejected` | EditableTable/store/features/LookupSlice.ts:80-85 | relationships become empty; lookups stay unchanged |
| `LookupSlice.LookupState.SetLookupsFulfilled` | EditableTable/store/features/LookupSlice.ts:87-89 | lookups become the payload; relationships stay unchanged |
| `LookupSlice.LookupState.SetLookupsRejected` | EditableTable/store/features/LookupSlice.ts:91-95 | neither field changes |

## Left out

- Network and host calls are not modelled as calls. These are
  `getEntityMetadata`, `getFetchResponse`, the `webAPI` calls,
  `openConfirmDialog`, `openErrorDialog`, `getParentMetadata` and
  `getCurrentUserName`. Their results are parameters, and the create or
  update call is returned as a `SaveRequest` value.
- `getFieldSchemaName` is a fetch. Its result is the
  `subgridParentFieldName` parameter of `SaveRecord`.
- `getEntityPluralName` and `getLookupOptions` are the parameters
  `pluralNameOf` and `optionsOf` of the lookup resolution.
- `deleteRecord` and `openRecordDeleteDialog` are not modelled: they only
  call the host. `deleteRecord` logs failures instead of reporting them.
- `getTimeZoneDefinitions` and `getProvisionedLanguages` are not modelled.
  Each fetches a list and maps it to combo-box options.
- `getDateMetadata` and `getReqirementLevel` are not modelled. Each is a
  fetch that reads one field of the result.
- `getTargetEntityType`, `getContext` and `getAllocatedWidth` are accessors.
  Only the target entity is a field here.
- `RetrieveAllRecords` does not model how the query string is cut from the
  next link. The `k`-th request is answered by `pages[k]`. It requires that
  some page ends the chain, because a finite supply of pages cannot stand
  for a server that keeps returning next links.
- `formatNumber`, `formatCurrency` and `formatDecimal` are not part of this
  model. They are locale-dependent, and the model takes them as arbitrary
  functions.
- The `getCurrencyById` promise in the number editor is not modelled as a
  promise. Its resolved value, if it has arrived, is the `fetched`
  parameter of `NumberFormat.CurrencyAtEvent` and of
  `NumberFormat.NumberInput.OnBlur`. A rejected request leaves the
  render-time currency in place, as a request that has not resolved does.
- `isNewRow` is not part of this model. It is the `isNew` parameter.
- The reducers `setChangedRecords` (the upsert of pending edits) and
  `updateRow` are not part of this model. Pending edits arrive as a given
  `Record.data` sequence, and actions are data.
- React rendering, hooks, `memo` and styles are not modelled. Of the other
  editors (date, lookup, option set, whole number, text), only which editor
  is chosen and which props it gets are modelled.
- The `useCallback(..., [])` closures keep the row and column of their
  first render. The model uses the current ones.
- The double-click handler is not modelled beyond `OpenFormOptions`.
- `GridCell.RenderCell` takes the column as always defined. With an
  undefined column the TypeScript throws when the row has cells, when
  there are requirement levels, or when the row is new. In each case a
  `find` callback or the owner check reads a property of the column.
  Otherwise it renders nothing.
- `DataverseService.GetDropdownOptions` does not model a missing
  `UserLocalizedLabel`. The TypeScript also throws when an option's
  `Label.UserLocalizedLabel` is null. Labels are plain strings here, so
  the model's error condition covers only a missing attribute or missing
  option data.
- `DataverseService.Route` counts characters. JavaScript counts UTF-16
  code units, which differ only outside the Basic Multilingual Plane.
  Record ids are ASCII.
- `DataverseService.Payload` is a map. The JSON key order of the object is
  not modelled.
- `Js.IntToDecimal` models `toString` only for integers below 1e21 in
  magnitude; option values are 32-bit. Numbers are reals or NaN: double
  rounding and infinities are not modelled.
- Dynamic values that the TypeScript types narrow are not modelled as
  `any`. These are field names, tags and labels, which are strings here.
  The lookup navigation argument is an optional string.
