# Alectrion front-end: list filters, paging, option lists and forms

This project models the pure logic inside the React pages and forms of the
DITGO Alectrion equipment-management front-end and proves properties of it
in Dafny. It covers the following:

- The **filter query encoder**, which each list page rebuilds whenever its
  filter form changes. It takes a record of named fields in a fixed key
  order and formats the dates. It drops the entries whose value is
  `undefined` or `''` and joins the rest as `key=value` pairs with `&`.
- The **offset/limit pagination** of the three list pages. The equipment
  and order-service pages step by ten records. The movement page steps by
  one page index.
- The equipment page's **batch selection** toggle and its empty-selection
  guard.
- The **filter-option builders**. They produce the select options of the
  filter panels: distinct non-empty values in first-occurrence order, each
  with `label == value`.
- The **client-side filter** of the legacy equipment page.
- The **equipment registration form**: its validation rules, the fields that
  depend on the chosen type, the acquisition-year list, and the payload it
  posts.
- The **order-service edit form**: its description rule, and the helpers
  it defines for an equipment lookup by tipping number (option mapping,
  search guard, `find`). The form's markup never attaches those helpers to
  an input, so the lookup is modelled both as written (inert) and as
  evidently intended (wired to a select).

Modules follow the program's structure:

- `Strings` holds JavaScript's `join`, `split`, `includes`, digit patterns
  and decimal rendering.
- `Query` is the shared encoder and its decoder.
- `Paging` is the shared pagination state machine, configured per page.
- `SelectOptions` holds the shared option builders.
- `EquipmentsPage`, `OrderServicePage`, `MovementsPage` and
  `LegacyEquipments` are one module per page.
- `EquipmentForm` and `OrderServiceEdit` are one module per form.

Some parts of the program become parameters:

- **Dates.** The locale date formatter (`toLocaleDateString('en-us')`) is an
  uninterpreted parameter `fmt: string -> string`. The current year is a
  parameter of `ListOfYears`.
- **HTTP.** Each response is an `Option<seq<...>>`: `None` is a failed
  request.
- **Debounce.** The debounced `search` state is a plain input string.

A field's value in the encoder is `Undefined`, `Null` or a string. The
template literal writes `null` as `null`, and the encoder keeps it.

## Model

| member | source | states |
|---|---|---|
| Strings.Split | src/pages/equipments/EquipmentsControl.tsx:211-214 | JavaScript `split`, which the source never calls; it reads the joined query back: splitting on `&` yields at least one piece and no piece contains the separator |
| Strings.SplitJoin | src/pages/equipments/EquipmentsControl.tsx:211-214 | splitting a `&`-join of `&`-free parts on `&` gives back exactly those parts |
| Strings.JoinSeparatorCount | src/pages/equipments/EquipmentsControl.tsx:211-214 | joining n parts that contain no separator puts exactly n − 1 separators in the result |
| Strings.IncludesIffOccurs | src/pages/equipaments/EquipamentsControl.tsx:113 | `s.includes(t)` holds exactly when `t` occurs at some position of `s` |
| Strings.Includes | src/pages/equipaments/EquipamentsControl.tsx:113 | every string includes the empty term, and no string includes a term longer than itself |
| Strings.IsDigits | src/components/form-fields/equipment/equipment-form.tsx:139-143 | a value matching `/^[0-9]+$/` is non-empty, carries no sign and reads as a non-negative number |
| Strings.NatToString | src/components/form-fields/equipment/equipment-form.tsx:73 | the decimal rendering is made of digits and has no leading zero |
| Strings.IntToStringRoundTrip | src/components/form-fields/equipment/equipment-form.tsx:73 | reading `year.toString()` back as a number gives the year again |
| Query.FormatDate | src/pages/equipments/EquipmentsControl.tsx:160-164 | a date is formatted exactly when it is a non-empty string; `null`, `''` and `undefined` give `undefined`, which the encoder drops |
| Query.KeptPairs | src/pages/equipments/EquipmentsControl.tsx:205-209 | there are no pairs exactly when every entry is `undefined` or `''`, no pair has an empty value, and there are at most as many pairs as entries |
| Query.KeptPairsSelect | src/pages/equipments/EquipmentsControl.tsx:205-214 | the pairs of the query are the kept entries, picked at strictly increasing positions, with none skipped |
| Query.KeptPairsMembership | src/pages/equipments/EquipmentsControl.tsx:205-209 | a pair reaches the query exactly when some entry has that key and a value that is neither `undefined` nor `''` and renders to it |
| Query.KeptPairAt | src/pages/equipments/EquipmentsControl.tsx:205-214 | with distinct keys, the pair for a given field is in the query exactly when its value is kept and renders as written |
| Query.Encode | src/pages/equipments/EquipmentsControl.tsx:205-214 | the query is `''` exactly when every entry is `undefined` or `''` |
| Query.SeparatorCount | src/pages/equipments/EquipmentsControl.tsx:211-214 | a non-empty query has one `&` fewer than it has kept entries |
| Query.DecodeEncode | src/pages/equipments/EquipmentsControl.tsx:205-214 | splitting the query on `&` and each piece at its first `=` gives back the kept pairs, when no key or value holds `&` and no key holds `=` |
| Paging.Previous | src/pages/equipments/EquipmentsControl.tsx:894-906 | "previous" preserves `offset == (currentPage - 1) * step`, keeps the offset non-negative, and does nothing unless `currentPage > 1` |
| Paging.Next | src/pages/equipments/EquipmentsControl.tsx:909-921 | "next" preserves the offset invariant and does nothing unless the lookahead list is non-empty |
| Paging.Start | src/pages/equipments/EquipmentsControl.tsx:142-143 | the initial state is page one at offset 0, consistent for every page configuration, with neither button shown |
| Paging.CurrentRequest | src/pages/equipments/EquipmentsControl.tsx:291-301 | the current request asks for `limit` items and, for a consistent pager, starts at `(currentPage - 1) * step`, which is non-negative |
| Paging.LookaheadRequest | src/pages/equipments/EquipmentsControl.tsx:303-313 | the lookahead asks for `limit` items one step after the current request, at `currentPage * step` for a consistent pager |
| Paging.LoadCurrent | src/pages/equipments/EquipmentsControl.tsx:291-301 | a response replaces the list; a failure empties it and raises a toast; the position is untouched |
| Paging.LoadLookahead | src/pages/order-service/OrderServiceControl.tsx:409-420 | a failed lookahead empties the next list, which hides "next", and toasts only where the page does so |
| Paging.Apply | src/pages/equipments/EquipmentsControl.tsx:894-921 | a click moves the page by at most one and leaves both lists alone; a response leaves page and offset alone; the offset invariant is kept and the page never drops below one |
| Paging.Run | src/pages/equipments/EquipmentsControl.tsx:894-921 | over any sequence of events the page never drops below one and moves by at most one per event |
| Paging.RunKeepsConsistent | src/pages/equipments/EquipmentsControl.tsx:142-144 | after any sequence of clicks and responses the offset invariant still holds and the offset is non-negative |
| SelectOptions.Labelled | src/pages/order-service/OrderServiceControl.tsx:253-257 | each name becomes one option with `label == value ==` that name, in order |
| SelectOptions.PushUnique | src/pages/equipments/EquipmentsControl.tsx:333-390 | the dedup-on-push list is duplicate-free and holds exactly the non-empty input names |
| SelectOptions.PushUniqueFirstOccurrenceOrder | src/pages/equipments/EquipmentsControl.tsx:333-390 | the options keep the order in which each value first occurs in the input |
| SelectOptions.SetThenFilterIsPushUnique | src/pages/order-service/OrderServiceControl.tsx:245-260 | collecting into a `Set` and then dropping falsy names gives the same list as the dedup-on-push builder |
| SelectOptions.CollectUnique | src/pages/equipments/EquipmentsControl.tsx:333-390 | the imperative `some`/`push` loop builds exactly the labelled first-occurrence list |
| SelectOptions.SomeHasValue | src/pages/equipments/EquipmentsControl.tsx:334 | `uniqueModels.some(item => item.value === x)` holds exactly when some option has value `x` |
| SelectOptions.UniqueOptionsShape | src/pages/equipments/EquipmentsControl.tsx:333-390 | no value appears twice among the built options and none has an empty label |
| SelectOptions.WorkstationOptions | src/pages/order-service/OrderServiceControl.tsx:371-375 | `formattedWorkstations` keeps length and order with `label == value == name`, and an absent response stays absent |
| EquipmentsPage.FilterEntries | src/pages/equipments/EquipmentsControl.tsx:186-204 | the record has the seventeen keys of `dataFormatted` in their fixed order |
| EquipmentsPage.QueryKeyOrder | src/pages/equipments/EquipmentsControl.tsx:186-214 | the query's pairs follow the fixed key order and include every kept field |
| EquipmentsPage.QueryUpdatedAt | src/pages/equipments/EquipmentsControl.tsx:186-189 | `updatedAt` appears exactly when `lastModifiedDate` is a non-empty string, with the formatted date as its value |
| EquipmentsPage.QuerySearch | src/pages/equipments/EquipmentsControl.tsx:186-192 | `search` comes from the debounced state, so the watched search field never changes the query |
| EquipmentsPage.QueryKeepsNull | src/pages/equipments/EquipmentsControl.tsx:205-209 | a `null` type reaches the query as `type=null` |
| EquipmentsPage.QueryRoundTrip | src/pages/equipments/EquipmentsControl.tsx:205-214 | the page's query decodes back to its kept pairs, with one `&` fewer than pairs |
| EquipmentsPage.HandleFilterChange | src/pages/equipments/EquipmentsControl.tsx:166-215 | the stored query is non-empty, so "clear applied filters" is shown, exactly when some filter field is kept; a non-empty search always is |
| EquipmentsPage.CleanFilters | src/pages/equipments/EquipmentsControl.tsx:217-221 | clearing empties `filter` and `search`, hides the clear control, and the reset form encodes to the empty filter again |
| EquipmentsPage.WithoutId | src/pages/equipments/EquipmentsControl.tsx:444 | removing by id drops every record with that id and keeps every copy of each other record, in order |
| EquipmentsPage.ToggleSelection | src/pages/equipments/EquipmentsControl.tsx:441-452 | an absent record is appended at the end; a present one is removed with every record sharing its id, every copy of the others kept in order |
| EquipmentsPage.ToggleTwice | src/pages/equipments/EquipmentsControl.tsx:441-452 | toggling a record whose id is not yet selected twice restores the selection |
| EquipmentsPage.HandleMovement | src/pages/equipments/EquipmentsControl.tsx:431-440 | the movement modal opens exactly when the selection is non-empty; otherwise an error toast is shown |
| EquipmentsPage.BrandOptions | src/pages/equipments/EquipmentsControl.tsx:329-331 | every brand becomes an option with its name as label and its id as value, without dedup |
| EquipmentsPage.SetFilterOptions | src/pages/equipments/EquipmentsControl.tsx:315-401 | each of the eight per-field option lists is the labelled first-occurrence list of that field's non-empty values |
| EquipmentsPage.PagingFromStart | src/pages/equipments/EquipmentsControl.tsx:142-144 | from page one, offset 0 and limit 10, every reachable state has `offset == (currentPage - 1) * 10` |
| OrderServicePage.FilterEntries | src/pages/order-service/OrderServiceControl.tsx:211-225 | the record has the twelve keys type … withdrawalName in their fixed order |
| OrderServicePage.QueryKeyOrder | src/pages/order-service/OrderServiceControl.tsx:211-237 | the query's pairs follow the fixed key order and include every kept field |
| OrderServicePage.QueryDates | src/pages/order-service/OrderServiceControl.tsx:194-207 | each of the three dates appears exactly when it is a non-empty string, as the formatted date |
| OrderServicePage.QuerySearch | src/pages/order-service/OrderServiceControl.tsx:211-219 | `search` comes from the debounced state |
| OrderServicePage.QueryRoundTrip | src/pages/order-service/OrderServiceControl.tsx:226-236 | the page's query decodes back to its kept pairs |
| OrderServicePage.HandleFilterChange | src/pages/order-service/OrderServiceControl.tsx:191-237 | the stored query is non-empty, so the clear control is shown, exactly when some filter field is kept; a non-empty search always is |
| OrderServicePage.CleanFilters | src/pages/order-service/OrderServiceControl.tsx:239-243 | clearing empties `filter` and `search` and hides the clear control |
| OrderServicePage.NameOptions | src/pages/order-service/OrderServiceControl.tsx:245-356 | the builders `formattedSenderName`, `formattedWithdrawalName`, `formattedTechnicianName` and `formattedModels` (modelled as `SenderNameOptions`, `WithdrawalNameOptions`, `TechnicianNameOptions` and `ModelOptions`) give the labelled first-occurrence list of non-empty names, an absent response giving none |
| OrderServicePage.PagingFromStart | src/pages/order-service/OrderServiceControl.tsx:841-870 | the offset invariant holds throughout; a failed current fetch toasts and empties the list, a failed lookahead is silent and hides "next" |
| MovementsPage.FilterEntries | src/pages/movements/MovementControl.tsx:212-220 | the record has the seven keys type … searchTerm in their fixed order |
| MovementsPage.HandleChangeForm | src/pages/movements/MovementControl.tsx:190-235 | the stored query is non-empty exactly when some filter field is kept; a non-empty search term always is |
| MovementsPage.QueryKeyOrder | src/pages/movements/MovementControl.tsx:212-229 | the query's pairs follow the fixed key order and include every kept field |
| MovementsPage.QueryDates | src/pages/movements/MovementControl.tsx:202-210 | `lowerDate` and `higherDate` appear exactly when they are non-empty strings, formatted |
| MovementsPage.QuerySearchTerm | src/pages/movements/MovementControl.tsx:212-219 | `searchTerm` is the debounced `search` state |
| MovementsPage.QueryRoundTrip | src/pages/movements/MovementControl.tsx:222-229 | the page's query decodes back to its kept pairs |
| MovementsPage.CleanFilters | src/pages/movements/MovementControl.tsx:236-240 | clearing empties `filter` and `search` and hides the clear control |
| MovementsPage.DestinationOptions | src/pages/movements/MovementControl.tsx:159-163 | a missing response gives `[]`; otherwise each unit becomes `{ label: name, value: id }`, in order |
| MovementsPage.PagingFromStart | src/pages/movements/MovementControl.tsx:496-526 | paging by page index keeps `offset == currentPage - 1`; the lookahead asks for page `offset + 1` |
| LegacyEquipments.FilteredEquipment | src/pages/equipaments/EquipamentsControl.tsx:112-115 | the result holds every copy of each item whose serial includes the term and whose type is unconstrained or accepted, and nothing else, in list order |
| LegacyEquipments.ResultsMatch | src/pages/equipaments/EquipamentsControl.tsx:112-115 | every shown item has the term at some position of its serial and the selected type, if any |
| LegacyEquipments.EmptySearchShowsAll | src/pages/equipaments/EquipamentsControl.tsx:112-115 | with an empty term and no type, the whole list is shown |
| LegacyEquipments.TypeSelectMatchesNothing | src/pages/equipaments/EquipamentsControl.tsx:136-142 | as written, choosing any type in the select empties the list, whatever the search term |
| LegacyEquipments.EveryCategoryFound | src/pages/equipaments/EquipamentsControl.tsx:136-142 | compared as a category prefix, every option of the type select finds some equipment of the built-in list |
| EquipmentForm.TextOk | src/components/form-fields/equipment/equipment-form.tsx:118-182 | an empty value passes exactly when the input is optional; a passing value respects `required`, `maxLength` and the digit pattern |
| EquipmentForm.Errors | src/components/form-fields/equipment/equipment-form.tsx:107-294 | the form reports no error exactly when every rule holds: the required fields, digits-only numbers, the length limits, and the fields that only some types require |
| EquipmentForm.ChangeType | src/components/form-fields/equipment/equipment-form.tsx:58-66 | choosing a type clears all seven type-specific fields and leaves the common ones alone |
| EquipmentForm.ChangeTypeRequiresReentry | src/components/form-fields/equipment/equipment-form.tsx:58-66 | after switching to CPU, Monitor, Estabilizador or Nobreak, the form cannot be submitted until the type-specific fields are filled again |
| EquipmentForm.Submit | src/components/form-fields/equipment/equipment-form.tsx:78-90 | a form is submitted exactly when it is acceptable; then type, estado and initialUseDate become their `.value`, the optional selects their `.value` or undefined, and every other field passes through |
| EquipmentForm.SubmittedCpu | src/components/form-fields/equipment/equipment-form.tsx:207-247 | a submitted CPU carries a storage type and digit-only memory and storage sizes |
| EquipmentForm.ListOfYears | src/components/form-fields/equipment/equipment-form.tsx:68-76 | 31 options, strictly descending from the current year to thirty years before, each labelled with its value's decimal string |
| EquipmentForm.ErrorsAreRendered | src/components/form-fields/equipment/equipment-form.tsx:205-284 | every failing field is one whose input is on screen for the chosen type |
| EquipmentForm.OnlySizeMissing | src/components/form-fields/equipment/equipment-form.tsx:253-271 | a monitor whose common fields are valid, with a screen type but no size and a short description, reports exactly the size field |
| EquipmentForm.ScreenSizeMessageLost | src/components/form-fields/equipment/equipment-form.tsx:258-283 | as written, a monitor with an empty size is refused for that alone and no input shows the message |
| EquipmentForm.OnlyPowerMissing | src/components/form-fields/equipment/equipment-form.tsx:271-284 | a stabiliser or no-break whose common fields are valid, with no power and a short description, reports exactly the power field |
| EquipmentForm.PowerMessageLost | src/components/form-fields/equipment/equipment-form.tsx:271-284 | as written, a stabiliser with an empty power is refused for that alone and no input shows the message |
| EquipmentForm.EveryErrorShown | src/components/form-fields/equipment/equipment-form.tsx:107-294 | when each input shows its own error, every failing field's message is on screen |
| OrderServiceEdit.FormattedOptions | src/components/order-service-edit-form/index.tsx:97-107 | the options keep length and order, with label and value the string form of the chosen fields; absent data stays absent |
| OrderServiceEdit.HandleChange | src/components/order-service-edit-form/index.tsx:65-70 | the chosen equipment is the first whose tipping number equals the option value, and there is none when nothing matches or the select is cleared |
| OrderServiceEdit.FirstWithTipping | src/components/order-service-edit-form/index.tsx:65-69 | the result is the first index whose tipping number matches, and there is none exactly when no equipment matches |
| OrderServiceEdit.ChosenOptionSelects | src/components/order-service-edit-form/index.tsx:65-107 | choosing the option built from an equipment's tipping number selects that equipment or an earlier one with the same number |
| OrderServiceEdit.HandleSearch | src/components/order-service-edit-form/index.tsx:108-112 | no request is made for the empty string; any other string is searched |
| OrderServiceEdit.SearchQuery | src/components/order-service-edit-form/index.tsx:54-58 | for a non-empty search it is the query the list pages' encoder writes for `searchTipping` and `take` |
| OrderServiceEdit.SearchQueryDecodes | src/components/order-service-edit-form/index.tsx:51-58 | the search query reads back as the search text and `take = 5` |
| OrderServiceEdit.Fetched | src/components/order-service-edit-form/index.tsx:54-63 | a response replaces the equipment list; a failed request keeps the previous one |
| OrderServiceEdit.SelectionNeverChanges | src/components/order-service-edit-form/index.tsx:83-112 | as written, no event changes the selected equipment from the order service's own, and no search is ever requested |
| OrderServiceEdit.TippingSearchSelects | src/components/order-service-edit-form/index.tsx:54-112 | with the helpers attached, a non-empty search is requested, its response fills the list, and choosing the option of its k-th equipment selects one with that tipping number |
| OrderServiceEdit.DescriptionOk | src/components/order-service-edit-form/index.tsx:295-302 | the description is accepted exactly when it has at most 255 characters |

## Left out

- HTTP requests, toasts' text, console logging, and the `onClose`/modal callbacks are not modelled. A response is an `Option` input, and a toast is a boolean or an outcome constructor.
- Debounce timers and the order in which React runs effects are not modelled. The debounced `search` is an input string, and each page's "fetch current + fetch lookahead" effect is a pair of independent events in `Paging.Run`.
- `toLocaleDateString` and `new Date()` are not modelled: the formatter is an uninterpreted function and the year is a parameter.
- The internals of `ControlledSelect`, `NewControlledSelect` and `Datepicker` are not part of this model. A select's value reaches the encoder as a string, or as `null` or `undefined`; whether it is really an option object cannot be seen. The Datepicker's `required` prop is read as "the acquisition date must be present".
- `EquipmentsPage.ToggleSelection` decides membership by value equality. The source's `includes` compares object identity, which the model does not represent.
- String lengths are counted in characters, not UTF-16 code units.
- Query values are not URL-escaped, in the source or in the model. The round-trip lemmas therefore require that no key or value contains `&` and that no key contains `=`.
- OrderServiceEdit.HandleChange, FormattedOptions, ChosenOptionSelects, HandleSearch, SearchQuery, SearchQueryDecodes, Fetched: these model helpers that `order-service-edit-form/index.tsx` defines but never attaches to any input, so none of them runs in the form as written; they state what the helpers compute, and `TippingSearchSelects` states what they would do once attached.
- The encoder keeps a `null` value and writes it as `null`; only `undefined` and `''` are dropped.
- The order-service edit form's `onSubmit` payload is not modelled. It stores method references (`receiverName.valueOf`) rather than values, and it flips `setRefreshRequest` itself rather than the flag, so it states no meaningful behaviour.
- The composition page `movimentacao/index.tsx` is not modelled. It only arranges components with fixed props.
- JSX layout, modals, styling, the report and print views, the type search on the equipment page, and the edit and view handlers are not modelled.
- `SelectOptions.WorkstationOptions` models `data?.map` over a present or absent response. Items with a missing name are not represented.

## Findings

| source | as written | input that shows it | evidently intended | confidence | as-written member | corrected member |
|---|---|---|---|---|---|---|
| src/components/form-fields/equipment/equipment-form.tsx:263 | the screen-size input displays `errors.storageAmount` | a Monitor with every field valid except an empty screen size: the form is refused, and no input shows a message | the input displays its own error, `errors.screenSize` | high, not executed | EquipmentForm.ScreenSizeMessageLost | EquipmentForm.EveryErrorShown |
| src/components/form-fields/equipment/equipment-form.tsx:275 | the power input displays `errors.storageAmount` | an Estabilizador with every field valid except an empty power: the form is refused, and no input shows a message | the input displays its own error, `errors.power` | high, not executed | EquipmentForm.PowerMessageLost | EquipmentForm.EveryErrorShown |
| src/components/order-service-edit-form/index.tsx:65-112 | `handleChange`, `formattedOptions` and `handleSearch` are defined but no input refers to them, so `fetchEquipments` never runs | typing any tipping number, or any other interaction: no request is made and `selectedEquipment` keeps the order service's own equipment | a tipping-number select searches on input and selects the chosen equipment | medium, not executed | OrderServiceEdit.SelectionNeverChanges | OrderServiceEdit.TippingSearchSelects |
| src/pages/equipaments/EquipamentsControl.tsx:114 | the chosen type must equal the equipment's whole type string | any option of the type select, such as `Monitor`: every built-in type is a longer string (`Monitor LG 22MK400H`), so the list becomes empty | an option selects the equipments of that category, whose type begins with it | medium, not executed | LegacyEquipments.TypeSelectMatchesNothing | LegacyEquipments.EveryCategoryFound |
