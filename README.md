# pando-project-web admin dashboard — a Dafny model

A verified model of the logic of the pando-project-web admin dashboard. The dashboard is a
React front end over a REST API for shipments, materials, transporters and vehicle types.
The model covers four pieces of it:

- **The shipment editor** (`components/shipments/shipment-panel.tsx`). It is a class `Panel` holding the edit buffer:
  - a transporter id and a vehicle id, both as text;
  - an ordered list of route legs, each carrying ordered material lines.

  It has one method per handler: the open effect, add and remove leg, update a leg's endpoints, and add, update and remove a material line. Beside them sit the derived total weight, the ordered three-stage submit check, and the flattened `routePairs` payload given to the save callback.
- **The generic CRUD page** (`components/crud-page.tsx`). It is a class `CrudPageState` holding the page state (`data`, `isOpen`, `filterOpen`, `editingItem`, `search`, `filters`), plus these functions:
  - dotted-path lookup (`getValue`);
  - the combobox option-label chain;
  - the search/filter parameter spread;
  - the `forEach` loop that coerces numeric and select fields, as a method with a loop;
  - the create-or-update dispatch and its outcome.
- **The API client** (`lib/api-client.ts`). This part turns a reply envelope into the reply itself or the error message `apiRequest` throws. It also gives the method, endpoint and body each `crud` helper asks for.
- **The shipment filter bar** (`components/shipments/filter-bar.tsx`): its search and select update rules.

The JavaScript semantics the code relies on are written out:
- **Numbers.** `Number(...)` of a form text is an integer or NaN (`JsNumber`). `|| 0` counts NaN as nothing. A selection is unset when it is 0 or NaN.
- **Values.** A JSON-like value (`JsValue`) has truthiness, optional member access and `String(...)`.
- **Arrays.** `splice(start, 1)` follows its rules for negative and too-large starts.
- **Records.** String-keyed records keep insertion order (`Record`). A spread assignment keeps an existing key in place and appends a new one, and `delete` removes a key.

Two behaviours of the code are worth knowing when reading the model:
- The material-category field of `app/materials/page.tsx:14` has name `categoryId` and display key `category.name`. Stripping `"categoryId."` leaves that key unchanged. On a category option, which has no `category` member, the lookup therefore gives `undefined`, and the label comes from the `name` fallback (`CrudPage.CategoryOptionLabel`).
- `updateMaterialQuantity` and `removeMaterialFromRoute` change a leg's material array in place, and the previous state shares that array. Only the new state is ever read afterwards, so the model treats legs as values.

The shipment editor keeps the legs as a `seq` field that each handler reassigns. Every handler states its new buffer in full, as a change to one index or a splice of the old buffer. It also states how the total weight moves. Lemmas connect that weight to the sum over all lines and to the quantities the payload carries. `Scenarios` walks through three flows on concrete inputs: the new-shipment flow, the edit flow that fails the material check, and the list search.

## Model

| member | source | states |
|---|---|---|
| Text.Split | components/crud-page.tsx:53 | `split` yields at least one piece and no piece contains the separator |
| Text.JoinSplit | components/crud-page.tsx:53 | joining the pieces of a split with the separator gives the original string back |
| Text.SplitJoin | lib/api-client.ts:27 | splitting a join of separator-free pieces gives the pieces back |
| Text.SplitAround | components/crud-page.tsx:53 | splitting `p + c + q` is splitting `p` followed by splitting `q` |
| Text.SplitNoSeparator | components/crud-page.tsx:53 | a string without the separator splits into itself alone |
| Text.IndexOf | components/crud-page.tsx:222 | the result is the first position where the pattern occurs, or none when it occurs nowhere |
| Text.ReplaceFirst | components/crud-page.tsx:222 | `replace` with a string pattern changes nothing when the pattern is absent, and otherwise puts the replacement in place of its first occurrence, keeping what comes before and after |
| Text.ReplaceLeadingPattern | components/crud-page.tsx:222 | removing a leading `name.` prefix leaves exactly the rest of the key |
| Text.LowerAscii | components/crud-page.tsx:128 | `toLowerCase` keeps the length, leaves no capital, maps each capital to its small letter and leaves every other character |
| Text.LowerAsciiIdempotent | components/crud-page.tsx:128 | lower-casing twice is lower-casing once |
| JsValues.NatToDigits | components/shipments/shipment-panel.tsx:49-50 | `toString` of an id is a non-empty run of digits, with a leading zero only for zero |
| JsValues.ParseNumber | components/shipments/shipment-panel.tsx:165-166 | `Number` of text gives an integer exactly when the text is a run of digits (the empty run included) or a sign followed by a non-empty run; the empty string gives 0, a run gives its digits' value, negated after `-` and unchanged after `+` |
| JsValues.DigitsRoundTrip | components/shipments/shipment-panel.tsx:49-50 | reading back the digits of a natural number gives the number |
| JsValues.ParseNumberToText | components/shipments/shipment-panel.tsx:49-50 | `Number(String(n))` gives back `n` for every integer, and NaN stays NaN |
| JsValues.Member | components/crud-page.tsx:53 | reading a key off anything but an object, array or string gives `undefined` |
| JsValues.TruthyTextNonEmpty | lib/api-client.ts:17 | a truthy non-array value never prints as the empty string |
| JsValues.SpliceIndex | components/shipments/shipment-panel.tsx:99 | `splice` picks `start` when in range, counts a negative start from the end, clamps below at 0 and removes nothing at or past the end |
| JsValues.Splice | components/shipments/shipment-panel.tsx:142 | `splice(start, 1)` removes exactly the element `SpliceIndex` picks and keeps the rest in order |
| Records.Lookup | components/crud-page.tsx:154 | a lookup finds a value exactly when the key is present |
| Records.LookupAt | components/crud-page.tsx:154 | with unique keys, looking up an entry's key finds that entry's value |
| Records.Set | components/crud-page.tsx:154 | after `{ ...r, [k]: v }` the key holds `v` and every other key is unchanged |
| Records.SetKeys | components/crud-page.tsx:154 | an existing key keeps its position and a new key is appended at the end |
| Records.SetPresentKeys | components/crud-page.tsx:154 | assigning a key already present leaves the key list unchanged |
| Records.SetAbsentAppends | components/crud-page.tsx:154 | assigning a new key appends exactly one entry |
| Records.SetUnique | components/crud-page.tsx:154 | a spread assignment never duplicates a key |
| Records.SetKeepsPrefix | components/crud-page.tsx:112 | a spread assignment never reorders the keys already present |
| Records.Delete | components/crud-page.tsx:155 | after `delete r[k]` the key is absent, every other key is unchanged and the record does not grow |
| Records.DeleteEntries | components/crud-page.tsx:155 | `delete` keeps exactly the entries with other keys |
| Records.DeleteAbsent | components/crud-page.tsx:155 | deleting an absent key changes nothing |
| Records.DeleteUnique | components/crud-page.tsx:155 | deleting keeps keys unique |
| Records.DeleteAfterSet | components/crud-page.tsx:154-155 | assigning a key and then deleting it is the same as deleting it |
| Records.LastValue | components/crud-page.tsx:108 | the value a run of assignments leaves at a key; with unique keys it is the value stored with that key |
| Records.Merge | components/crud-page.tsx:69-72 | in `{ ...a, ...b }` a key holds b's last value for it when b has it and a's value otherwise; a's keys come first in their order; unique keys stay unique |
| Records.MergeOnto | components/crud-page.tsx:69-72 | spreading b over a record that starts with k0 keeps k0 first (with b's value if b has k0), then the rest of the record, then b's other entries in order |
| Records.MergeFresh | components/crud-page.tsx:69-72 | spreading a record of new keys appends its entries in order |
| ApiClient.ErrorMessages | lib/api-client.ts:16 | one message per error entry |
| ApiClient.Settle | lib/api-client.ts:14-21 | a reply fails exactly when `success` is `false`, and otherwise comes back unchanged |
| ApiClient.SettleSingleError | lib/api-client.ts:17 | a non-array error gives its own text when truthy and `API request failed` otherwise, never an empty message |
| ApiClient.SettleErrorList | lib/api-client.ts:15-16 | an error list gives the entries' messages joined with `, ` in order |
| ApiClient.QueryString | lib/api-client.ts:27 | the query string is empty exactly when there are no params, and otherwise starts with the first `name=value` pair |
| ApiClient.QueryPairs | lib/api-client.ts:27 | one `name=value` piece per parameter, in insertion order; when the encoder never emits `=`, each piece splits on `=` back into the encoded name and value |
| ApiClient.PairsSplit | lib/api-client.ts:27 | a `name=value` piece of `=`-free encoded text splits on `=` into the name and the value |
| ApiClient.QueryStringRoundTrip | lib/api-client.ts:27 | the query string splits on `&` into one piece per parameter, and each splits on `=` into its encoded name and value |
| ApiClient.GetAll | lib/api-client.ts:25-29 | a GET without body; for a model name and an encoder free of `?`, the endpoint splits on `?` into `/model` alone when no params object is given, and into `/model` and the query string when one is |
| ApiClient.PathQuerySplit | lib/api-client.ts:26-29 | `/model` holds no `?` and `/model?query` splits at the one `?` added, when model and encoder never produce `?` |
| ApiClient.GetById | lib/api-client.ts:31 | a GET without body whose endpoint, for a model and an id free of `/`, splits on `/` into an empty piece, the model and the id's text |
| ApiClient.Create | lib/api-client.ts:32 | a POST of the data whose endpoint, for a model free of `/`, splits on `/` into an empty piece and the model |
| ApiClient.Update | lib/api-client.ts:33 | a PATCH of the data whose endpoint, for a model and an id free of `/`, splits on `/` into an empty piece, the model and the id's text |
| ApiClient.DeleteById | lib/api-client.ts:34 | a DELETE without body whose endpoint, for a model and an id free of `/`, splits on `/` into an empty piece, the model and the id's text |
| ApiClient.GetAllEndpoint | lib/api-client.ts:25-29 | `getAll` is a GET without body; no params object means no `?`, any params object (even empty) means path `?` query |
| ApiClient.QueryHasNo | lib/api-client.ts:27 | the query string holds no character the encoder never emits apart from `&` and `=` |
| ApiClient.JoinHasNo | lib/api-client.ts:16 | joining pieces free of a character, with a separator free of it, gives text free of it |
| ApiClient.ItemRequests | lib/api-client.ts:31-34 | `create` POSTs to `/model`; `getById`, `update` and `delete` share `/model/id` with GET, PATCH and DELETE; only create and update carry the body |
| ApiClient.CollectionSegments | lib/api-client.ts:29 | `/model` splits on `/` into an empty piece and the model name |
| ApiClient.ItemSegments | lib/api-client.ts:31-34 | `/model/id` splits on `/` into an empty piece, the model name and the id's text |
| FilterBar.SearchChange | components/shipments/filter-bar.tsx:30-32 | `search` is set to the typed text (even empty) and every other filter is kept |
| FilterBar.SelectChange | components/shipments/filter-bar.tsx:34-38 | a non-empty value sets the key, an empty one removes it, every other key is unchanged |
| FilterBar.ClearUnsetSelect | components/shipments/filter-bar.tsx:34-36 | clearing a select that was never set leaves the filters exactly as they were |
| CrudPage.GetValue | components/crud-page.tsx:51-54 | an empty path gives `undefined`; a path without dots reads that member of a truthy value and gives `undefined` on a falsy one |
| CrudPage.Walk | components/crud-page.tsx:53 | no segments leave the start value; a falsy start gives `undefined` whatever segments follow |
| CrudPage.WalkConcat | components/crud-page.tsx:53 | walking a path in two parts is walking the first and then the second from its result |
| CrudPage.GetValueShortCircuits | components/crud-page.tsx:53 | a falsy intermediate value (0, '', null, missing) makes the whole lookup `undefined`, never failing |
| CrudPage.GetValueCompose | components/crud-page.tsx:51-54 | looking up `p.q` is looking up `q` in the result of looking up `p` |
| CrudPage.LabelKey | components/crud-page.tsx:222 | the label key is never empty; an absent or empty display key, or one that is only `name.`, gives `name`; a non-empty display key without `name.` in it is used as it is |
| CrudPage.LabelKeyStripsOwnName | components/crud-page.tsx:222 | a display key `name.rest` for a field called `name` becomes `rest` |
| CrudPage.OptionFor | components/crud-page.tsx:221-224 | the label is the first truthy of the display-key lookup, `name` and `label`, else `String(id)`; the value is `String(id)` |
| CrudPage.CategoryKeyKept | components/crud-page.tsx:222 | for the material-category field the display key `category.name` is kept as it is |
| CrudPage.CategoryOptionLabel | components/crud-page.tsx:221-224 | a category option without a `category` member is labelled by its own name |
| CrudPage.QueryParams | components/crud-page.tsx:69-72 | without search text the params are the filters; with it, `search` comes first, holding the text unless a filter named `search` overrides it, and the other filters follow in their order; keys stay unique |
| CrudPage.SearchLookups | components/crud-page.tsx:69-72 | after spreading the filters onto `{ search }`, `search` holds the filter of that name if any, else the non-empty text; every other key holds its filter; keys stay unique |
| CrudPage.SearchFirst | components/crud-page.tsx:69-72 | with search text the first key is `search`, followed by the filters in their order, less a filter named `search` whose value it takes |
| CrudPage.FromEntries | components/crud-page.tsx:108 | each input name appears once and holds the text of its last entry; with distinct names the payload is the form's entries as text, in form order |
| CrudPage.AsTextLast | components/crud-page.tsx:108 | turning entries into text values keeps the names and the last value under each |
| CrudPage.CoercedByStep | components/crud-page.tsx:110-114 | one more field coerces a key exactly when it is numeric or select and has that name |
| CrudPage.CoercePayload | components/crud-page.tsx:110-114 | every key named by a number or select field holds `Number` of its form text (NaN when missing); other keys keep their text; existing keys keep their order |
| CrudPage.CoerceStep | components/crud-page.tsx:111-113 | one turn of the `forEach` adds that field's name to the coerced keys and keeps key order and uniqueness |
| CrudPage.Notice | components/crud-page.tsx:127-129 | the reported message is the error's own message when it has one, and otherwise exactly `Failed to <action> <title in lower case>`; it is never empty |
| CrudPage.CrudPageState.constructor | components/crud-page.tsx:56-63 | a page starts with no rows, both dialogs closed, no edited item, empty search and no filters |
| CrudPage.CrudPageState.HandleSearch | components/crud-page.tsx:149-151 | the search text becomes the typed text |
| CrudPage.CrudPageState.HandleFilterChange | components/crud-page.tsx:153-157 | a non-empty value sets the filter, an empty one removes it, other filters unchanged, keys stay unique |
| CrudPage.CrudPageState.ApplyFilters | components/crud-page.tsx:159 | applying only closes the filter sheet |
| CrudPage.CrudPageState.ResetFilters | components/crud-page.tsx:161-164 | no filter remains and the sheet closes |
| CrudPage.CrudPageState.Edit | components/crud-page.tsx:377-380 | the row becomes the edited item and the dialog opens |
| CrudPage.CrudPageState.OpenChange | components/crud-page.tsx:174-177 | the dialog takes the new state; closing it forgets the edited item |
| CrudPage.CrudPageState.ListRequest | components/crud-page.tsx:66-72 | the list fetch is a GET without body of `/model?` followed by the query string of the search and filter params |
| CrudPage.CrudPageState.ReceiveList | components/crud-page.tsx:73-76 | a successful reply replaces the rows with its `data` or an empty list; a failure keeps the rows and reports |
| CrudPage.CrudPageState.HandleSubmit | components/crud-page.tsx:105-130 | the body sent has each key once and is the form's entries with every number or select field coerced; it goes to update when the edited item has a truthy id and to create otherwise; success closes the dialog, clears the item and re-lists; failure changes nothing and reports |
| ShipmentPanel.BufferLegs | components/shipments/shipment-panel.tsx:51-63 | one buffer leg per stored leg, in order, with the same ids, names and material lines |
| ShipmentPanel.SumAppend | components/shipments/shipment-panel.tsx:80-85 | the quantity sum of two lists of lines is the sum of their sums |
| ShipmentPanel.AllMaterialsAppend | components/shipments/shipment-panel.tsx:80-85 | the lines of two lists of legs are the lines of each in turn |
| ShipmentPanel.MaterialsWeight | components/shipments/shipment-panel.tsx:82 | the inner `reduce` adds the quantity sum of the lines to its start |
| ShipmentPanel.RoutesWeight | components/shipments/shipment-panel.tsx:81-84 | the outer `reduce` adds the quantity sum of all lines of all legs to its start |
| ShipmentPanel.TotalWeight | components/shipments/shipment-panel.tsx:80-85 | the total weight is the sum of every quantity over every leg, NaN counting 0 |
| ShipmentPanel.TotalWeightReplaceLeg | components/shipments/shipment-panel.tsx:106-110 | replacing a leg moves the total by the difference of the two legs' weights |
| ShipmentPanel.TotalWeightRemoveLeg | components/shipments/shipment-panel.tsx:96-104 | removing a leg takes exactly its weight off the total |
| ShipmentPanel.TotalWeightAppendLeg | components/shipments/shipment-panel.tsx:87-94 | appending a leg adds exactly its weight |
| ShipmentPanel.SumAppendLine | components/shipments/shipment-panel.tsx:112-131 | appending a line adds its quantity |
| ShipmentPanel.SumReplaceLine | components/shipments/shipment-panel.tsx:133-138 | replacing a line moves the sum by the difference of the quantities |
| ShipmentPanel.SumRemoveLine | components/shipments/shipment-panel.tsx:140-144 | removing a line takes exactly its quantity off |
| ShipmentPanel.FindChoice | components/shipments/shipment-panel.tsx:114 | the first option with that value, or none when no option has it |
| ShipmentPanel.SomeLegWithoutEndpoints | components/shipments/shipment-panel.tsx:152 | true exactly when some leg has an unset source or destination |
| ShipmentPanel.SomeLegWithoutMaterials | components/shipments/shipment-panel.tsx:157 | true exactly when some leg has no material line |
| ShipmentPanel.Validate | components/shipments/shipment-panel.tsx:146-160 | the three checks in order, first failure winning, each outcome stated as an if-and-only-if over the buffer |
| ShipmentPanel.LinesOf | components/shipments/shipment-panel.tsx:170-173 | one `{materialId, quantity}` per line, in order |
| ShipmentPanel.PairsOf | components/shipments/shipment-panel.tsx:167-174 | one route pair per leg, in order, with that leg's endpoints and lines |
| ShipmentPanel.BuildPayload | components/shipments/shipment-panel.tsx:163-175 | the ids are `Number` of the selections; one route pair per leg, in order, with its endpoints and lines; the quantities sent add up to the total weight |
| ShipmentPanel.ValidPayloadPairs | components/shipments/shipment-panel.tsx:146-175 | a payload that passed validation has, per leg, set endpoints and at least one line |
| ShipmentPanel.LinesQuantityIsSum | components/shipments/shipment-panel.tsx:170-173 | the quantities sent for a leg add up to that leg's weight |
| ShipmentPanel.PayloadQuantityIsTotalWeight | components/shipments/shipment-panel.tsx:163-175 | the quantities sent add up to the total weight the editor shows |
| ShipmentPanel.EditRoundTrip | components/shipments/shipment-panel.tsx:49-63 | opening a stored shipment and submitting it untouched sends back its own transporter, vehicle, endpoints and lines |
| ShipmentPanel.Panel.constructor | components/shipments/shipment-panel.tsx:41-43 | an empty buffer: no selections and no legs |
| ShipmentPanel.Panel.Sync | components/shipments/shipment-panel.tsx:46-78 | opening on no shipment gives empty ids and one empty leg (weight 0); opening on a shipment loads it leg by leg; closing keeps the buffer |
| ShipmentPanel.Panel.SelectTransporter | components/shipments/shipment-panel.tsx:200 | the transporter id becomes the chosen value |
| ShipmentPanel.Panel.SelectVehicle | components/shipments/shipment-panel.tsx:210 | the vehicle id becomes the chosen value |
| ShipmentPanel.Panel.AddRoute | components/shipments/shipment-panel.tsx:87-94 | exactly one empty leg is appended, earlier legs and the weight unchanged |
| ShipmentPanel.Panel.RemoveRoute | components/shipments/shipment-panel.tsx:96-104 | with more than one leg the spliced leg goes and the rest keep their order, the weight dropping by that leg's; otherwise nothing changes and an error is reported; at least one leg always remains |
| ShipmentPanel.Panel.UpdateRoute | components/shipments/shipment-panel.tsx:106-110 | only that leg's source or destination changes; the weight is unchanged |
| ShipmentPanel.Panel.AddMaterialToRoute | components/shipments/shipment-panel.tsx:112-131 | an unknown id changes nothing; otherwise `{id, option text, 1}` is appended to that leg only and the weight grows by 1 |
| ShipmentPanel.Panel.UpdateMaterialQuantity | components/shipments/shipment-panel.tsx:133-138 | only that line's quantity changes, to `Number` of the text; the weight moves by the difference |
| ShipmentPanel.Panel.RemoveMaterialFromRoute | components/shipments/shipment-panel.tsx:140-144 | the spliced line leaves that leg only; the weight drops by its quantity |
| ShipmentPanel.Panel.Submit | components/shipments/shipment-panel.tsx:146-184 | a failed check is reported and nothing is sent; otherwise the payload is sent and the panel closes only when the save succeeds |
| Scenarios.NewShipmentFlow | components/shipments/shipment-panel.tsx:146-184 | a fresh editor with transporter 4, vehicle 9, leg 3→7 and Sand added sends exactly that payload |
| Scenarios.NewShipmentLeg | components/shipments/shipment-panel.tsx:46-110 | opening the editor on no shipment, choosing transporter 4 and vehicle 9 and setting the leg to 3→7 gives one empty leg with those endpoints |
| Scenarios.NewShipmentEditor | components/shipments/shipment-panel.tsx:112-131 | adding Sand to that leg gives it one line of quantity 1 |
| Scenarios.NewShipmentPayload | components/shipments/shipment-panel.tsx:146-175 | that buffer passes the checks and becomes the payload with ids 4 and 9 and one pair 3→7 carrying material 5, quantity 1 |
| Scenarios.EditShipmentFlow | components/shipments/shipment-panel.tsx:146-160 | two stored legs of 10 weigh 20; removing a leg's only line makes submit fail on the material check and send nothing |
| Scenarios.StoredShipmentEditor | components/shipments/shipment-panel.tsx:46-63 | opening the editor on the stored two-leg shipment loads both legs with their ids, names and lines |
| Scenarios.EditWeight | components/shipments/shipment-panel.tsx:80-85 | two legs of one 10-unit line each weigh 20 |
| Scenarios.EditValidation | components/shipments/shipment-panel.tsx:146-160 | with both legs' endpoints set and no line on the first, the check fails on the missing materials |
| Scenarios.SearchParams | components/crud-page.tsx:69-72 | search text `acme` with filter category 2 gives the params `search`, then `category` |
| Scenarios.SearchQuery | lib/api-client.ts:25-29 | those params become `search=acme&category=2` |
| Scenarios.MaterialSearchFlow | components/crud-page.tsx:66-73 | the materials page searched for `acme` and filtered on category 2 requests `GET /materials?search=acme&category=2` |
| Scenarios.SearchRequest | lib/api-client.ts:25-29 | the list request for those params is `GET /materials?search=acme&category=2` |

## Left out

- Network I/O: `fetch`, `response.json()`, header merging and the base-URL lookup. A reply is a parameter of the model (a parsed `JsValue`), as is the success of the save callback. Transport errors and JSON parse errors are not modelled.
- ApiClient.Settle: a reply that is itself `null` or `undefined` makes `result.success` throw a TypeError, and so does an error list with a `null` or `undefined` entry at `e.message`. `IsEnvelope` excludes both kinds of reply; the exception is not modelled.
- CrudPage.OptionFor: a `null` or `undefined` option makes `opt.name` throw a TypeError. The function requires a non-nullish option; the exception is not modelled.
- ApiClient.QueryString: the encoding of `URLSearchParams` is an abstract function `enc` of each name and value. Only the `k=v&...` layout is modelled.
- Toasts and `console.error` are returned values (`Option<string>` or `SubmitError`). Their wording is not modelled beyond the fallback `Failed to <action> <title>` of the CRUD page.
- JsValues.ParseNumber: accepts the empty string and optionally signed runs of ASCII digits. Fractions, exponents, hexadecimal, surrounding white space and `Infinity` become NaN, and floating-point numbers are not modelled.
- Text.LowerAscii: `toLowerCase` is modelled on ASCII letters only.
- Records: JavaScript lists integer-like keys of an object before the others, whatever the insertion order. The model keeps insertion order for every key. Prototype properties are not modelled.
- The debounce timer of the list fetch (`setTimeout`/`clearTimeout`), the `loading` flags and the out-of-order arrival of list replies are timing, not sequential logic.
- `fetchOptions`, the option refresh button and `handleDelete` with its confirmation toast are not modelled; they are asynchronous orchestration around the API client. The requests `crud.delete` and `crud.getAll` build are modelled.
- The combobox `onChange` that writes a select value into the edited item, and all rendering, are presentation. This includes the table cells' `getValue` and `toFixed(2)` on the weight.
- `tempId`, generated from `Date.now()`, is dropped: it is clock-dependent and never sent.
- The display-only shipment fields (`fromSource`, `endDestination`, transporter and vehicle details, `summedWeight`, `createdAt`) are not modelled.
- ShipmentPanel.Panel.UpdateRoute: requires the index of an existing leg, because the editor passes only indices of rendered rows; out of range, the code would add a leg holding only that field at the end (index equal to the length), leave holes before such a leg (a larger index), or set a property that is not an element (a negative index); none of this is modelled.
- ShipmentPanel.Panel.AddMaterialToRoute: requires the index of an existing leg, for the same reason; out of range with a known material id, the code would throw reading `materials`, which is not modelled.
- ShipmentPanel.Panel.UpdateMaterialQuantity: requires the indices of an existing leg and line, for the same reason; an out-of-range leg would throw, and an out-of-range line would become an entry holding only a quantity, neither of which is modelled.
- ShipmentPanel.Panel.RemoveMaterialFromRoute: requires the index of an existing leg, for the same reason; out of range, the code would throw reading `materials`, which is not modelled. The line index follows the rules of `splice`.
- `updateMaterialQuantity` and `removeMaterialFromRoute` update a leg's material array in place, shared with the previous state. The model updates by value, so that sharing is not captured.
