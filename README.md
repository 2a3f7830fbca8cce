# Admin back-office front end: a Dafny model

This project models the logic of a back-office web front end for a freight brokerage. The front end manages leads, lead quotations, orders, customers, carriers, brokers, follow-ups and users. The model covers five groups:

- **List tables.** These are the lead-quotation table and the user table. Each has a search filter, a sort by column with a direction toggle, pagination, row selection with select-all, a batch delete, an update after an edit, and the conversion of a lead to a customer.
- **Add and edit hooks.** These hold the draft of an order, carrier, customer, follow-up, lead, user or broker. The modelled behaviour is:
  - seeding the draft from the selected record, including JSON-decoding its stored collections;
  - adding, removing and changing rows of the nested lists;
  - the required-field gate;
  - the save, with the request it sends and the notice it shows.
- **Form sections.** These hold zod-style schemas. Each stores the first issue of the edited field under `errors[field]` and updates the draft whether the value is valid or not. The model includes:
  - the regular expressions of every rule;
  - the address auto-fill from a picked place;
  - the "same as primary" toggle;
  - the broker match;
  - the credit-agreement upload result.
- **Read-only views.** These are the order view's decoding of the four collections and the customer-credit view's download link.
- **Shared helpers.** They cover JavaScript values: truthiness, property access, spreading, string conversion, `Number(...)`, and `Array.prototype` filter, map, slice and sort.

A value is a `Values.Val`: undefined, null, a boolean, an integer number, NaN, a string, an array, an object or a picked file. A record is a map from property names to values, because the code reads and writes computed keys its types do not declare.

Each handler is modelled as one atomic step. The server's reply, the login token, a confirmation answer and the picked place are parameters of that step. What the handler does to the outside world is returned as a sequence of `Effects.Effect` values: requests, notices, alerts and calls to the parent's callbacks. State the hook or component keeps is a class field that the handler's method updates. The follow-on properties are proved as lemmas about the specification functions those methods are tied to.

The foreign functions are parameters with no interpretation:

- `JSON.parse` is `string -> Option<Val>`, with `None` meaning it throws;
- `DOMPurify.sanitize`;
- zod's e-mail check;
- `String.prototype.localeCompare`, taken as a total preorder;
- `formatDateForInput`.

A few rules look like slips, but the model reproduces them as written and proves what follows from them:

- The grouped-amount rule of the order revenue section rejects "1000", although its message offers that value.
- The temperature rule rejects "5°C".
- The broker special-notes field allows 500 characters, although its message says 100.
- The customer's accounts-payable name rejects the empty string.
- The order view throws on an empty collection string that the edit hook reads as `[]`.

## Model

| member | source | states |
|---|---|---|
| UserHooks.GateIgnoresConfirmation | src/hooks/add/useAddUser.ts:21-23 | the six-field user gate ignores the password confirmation, whatever value it holds |
| UserHooks.SeededUserGate | src/hooks/edit/useEditUser.ts:27-46 | a draft seeded from a user passes the gate exactly when that user has all six required fields truthy |
| UserHooks.RequiredDefaultsFalsy | src/hooks/edit/useEditUser.ts:30-39 | every gated field has a default in the seed, and each of those defaults is falsy |
| UserHooks.AddUser.constructor | src/hooks/add/useAddUser.ts:8-19 | the draft starts as the empty user: id 0 and nine empty strings |
| UserHooks.AddUser.HandleSubmit | src/hooks/add/useAddUser.ts:25-58 | a failed gate fires the validation notice; a missing token fires "No token found"; neither sends a request or changes the draft. Otherwise it sends a PUT to `/user/{id}` when the id is truthy and a POST to `/user` when it is not. Success fires the matching success notice, resets the draft and calls `onSuccess`; failure fires the error notice and keeps the draft |
| UserHooks.AddUser.ClearUserForm | src/hooks/add/useAddUser.ts:60-73 | the draft is the empty user again |
| UserHooks.EditUser.constructor | src/hooks/edit/useEditUser.ts:13-24 | the draft starts as the empty user |
| UserHooks.EditUser.Load | src/hooks/edit/useEditUser.ts:27-42 | setting a user seeds the draft from exactly the ten user fields, each falsy one replaced by its default; a null user leaves the draft alone |
| UserHooks.EditUser.UpdateUser | src/hooks/edit/useEditUser.ts:48-75 | the gate, then the token (the "not logged in" notice), then a PUT of the draft to `/user/{id}`. Success fires the notice, passes the reply to `onUpdate` and calls `onClose`; a failure's message depends on whether the status is 401. No request is sent unless the gate and the token both pass |
| BrokerHook.SeededBrokerFields | src/hooks/edit/UseEditBroker.ts:31-49 | every field of the seeded draft holds the broker's own value, or the falsy default when the broker's value is falsy |
| BrokerHook.EditBroker.constructor | src/hooks/edit/UseEditBroker.ts:13-27 | the draft starts as the thirteen broker defaults |
| BrokerHook.EditBroker.Load | src/hooks/edit/UseEditBroker.ts:31-49 | setting a broker seeds the draft from it; a null broker leaves the draft alone |
| BrokerHook.EditBroker.UpdateBroker | src/hooks/edit/UseEditBroker.ts:51-82 | the broker-name gate, then the token, then a PUT to `/broker/{id}`, with the success and failure effects of the source (the failure message depends on whether the status is 401). No request is sent unless both checks pass |
| TableView.FilterRows | src/hooks/table/useLeadQuoteTable.ts:65-67 | a row is kept exactly when one of its non-nullish values, as a string, contains the query regardless of ASCII case; every kept row comes from the input |
| TableView.EmptyQueryKeepsNonEmptyRows | src/hooks/table/useUserTable.ts:51 | with an empty search a row is shown exactly when it has at least one non-nullish field |
| TableView.SortedFromInput | src/hooks/table/useLeadQuoteTable.ts:69-80 | every row of a sorted table comes from the filtered rows |
| TableView.LeadSortOrdersStrings | src/hooks/table/useLeadQuoteTable.ts:69-80 | when `localeCompare` is a total preorder, a column of strings comes out in its order, reversed when descending |
| TableView.LeadSortOrdersNumbers | src/hooks/table/useLeadQuoteTable.ts:69-80 | a numeric column comes out ascending, or descending when `sortDesc` is set |
| TableView.UserSortByDateKeepsOrder | src/hooks/table/useUserTable.ts:53-64 | sorting users by `created_at` or `updated_at` turns both values into numbers, so the comparator always answers 0 and the filtered order is kept |
| TableView.UserSortWithoutStringsKeepsOrder | src/hooks/table/useUserTable.ts:53-64 | a column holding no strings leaves the user table in its filtered order |
| TableView.UserSortOrdersStrings | src/hooks/table/useUserTable.ts:60-62 | any other string column of the user table is ordered by `localeCompare` as in the lead table |
| TableView.JsSlice | src/hooks/table/useUserTable.ts:66 | `Array.prototype.slice`: negative bounds count from the end, both bounds are clamped, and the slice is never longer than the input |
| TableView.Page | src/hooks/table/useLeadQuoteTable.ts:82 | a page holds at most ten rows; for page 1 or later it is the run of sorted rows from `(page-1)*10` to `page*10`, clamped to the table |
| TableView.TotalPages | src/hooks/table/useLeadQuoteTable.ts:83 | the page count is the least number of ten-row pages that holds all filtered rows (0 for an empty table) |
| TableView.PagesUpToPrefix | src/hooks/table/useLeadQuoteTable.ts:82-83 | pages 1 to k laid end to end are the first `k*10` rows |
| TableView.PagesCoverRows | src/hooks/table/useLeadQuoteTable.ts:82-83 | pages 1 to `totalPages` show every row exactly once, in sorted order |
| TableView.PageBeyondLastIsEmpty | src/hooks/table/useLeadQuoteTable.ts:82-83 | a page number past `totalPages` shows no rows |
| TableView.NextSort | src/hooks/table/useLeadQuoteTable.ts:56-63 | sorting always moves to the clicked column; it is descending exactly when that column was already the sort column and was ascending |
| TableView.NextSortTwice | src/hooks/table/useUserTable.ts:73-80 | clicking the current column twice restores the direction; clicking a new column twice ends descending |
| TableView.ToggleSelect | src/hooks/table/useLeadQuoteTable.ts:98-100 | an id becomes selected exactly when it was not selected before; every other id keeps its state |
| TableView.ToggleSelectTwice | src/hooks/table/useUserTable.ts:90-92 | toggling an unselected id twice restores the selection exactly |
| TableView.PageIds | src/hooks/table/useLeadQuoteTable.ts:95 | the ids of the page's rows, position by position |
| TableView.LeadToggleAll | src/hooks/table/useLeadQuoteTable.ts:90-96 | when the selection has as many ids as the page has rows, select-all clears it; otherwise it selects the page's ids |
| TableView.UserToggleAll | src/hooks/table/useUserTable.ts:82-88 | as the lead table, but only ids that are not undefined are selected |
| TableView.LeadToggleAllTwice | src/hooks/table/useLeadQuoteTable.ts:90-96 | select-all twice on the same page ends with an empty selection, unless the first call already cleared it |
| TableView.UserToggleAllTwice | src/hooks/table/useUserTable.ts:82-88 | the same for users, when every row on the page has an id |
| TableView.ToggleAllCountsOnly | src/hooks/table/useLeadQuoteTable.ts:91 | select-all looks only at the counts: one selected id that is not on a one-row page still clears the selection |
| TableView.RemoveSelected | src/hooks/table/useLeadQuoteTable.ts:205 | a row survives a bulk delete exactly when its id is not selected |
| TableView.MergeById | src/hooks/table/useLeadQuoteTable.ts:173-175 | same length; a row with a different id is unchanged; a row with the update's id takes every field of the update and keeps its other fields |
| LeadQuoteTable.Quotations | src/hooks/table/useLeadQuoteTable.ts:31 | the fetched leads kept are exactly those whose `lead_status` is "Quotations" |
| LeadQuoteTable.LeadQuoteTable.constructor | src/hooks/table/useLeadQuoteTable.ts:8-19 | the initial state: no leads, loading, empty search, sorted by `created_at` descending, page 1, no lead selected, every modal closed, no ids selected |
| LeadQuoteTable.LeadQuoteTable.PaginatedData | src/hooks/table/useLeadQuoteTable.ts:82 | the current page holds at most ten rows, each a lead that matches the search |
| LeadQuoteTable.LeadQuoteTable.FetchLeads | src/hooks/table/useLeadQuoteTable.ts:22-53 | without a token nothing is requested and the list stays. A successful GET of `/lead` replaces the list with its Quotations; a failed one keeps the list and fires the "Unauthorized" notice only for a 401. Loading ends false on every path |
| LeadQuoteTable.LeadQuoteTable.SetSearchQuery | src/hooks/table/useLeadQuoteTable.ts:10 | the search is the new query |
| LeadQuoteTable.LeadQuoteTable.HandleSort | src/hooks/table/useLeadQuoteTable.ts:56-63 | the sort column and direction become `NextSort` of the old ones |
| LeadQuoteTable.LeadQuoteTable.HandlePageChange | src/hooks/table/useLeadQuoteTable.ts:85-87 | the current page is the requested one, unchecked |
| LeadQuoteTable.LeadQuoteTable.ToggleSelectAll | src/hooks/table/useLeadQuoteTable.ts:90-96 | the selection becomes `LeadToggleAll` of the old selection and the current page |
| LeadQuoteTable.LeadQuoteTable.ToggleSelect | src/hooks/table/useLeadQuoteTable.ts:98-100 | the selection becomes `ToggleSelect` of the old one |
| LeadQuoteTable.LeadQuoteTable.OpenEditModal | src/hooks/table/useLeadQuoteTable.ts:103-106 | the lead is selected and the edit modal is open |
| LeadQuoteTable.LeadQuoteTable.CloseEditModal | src/hooks/table/useLeadQuoteTable.ts:108-111 | the edit modal is closed and no lead is selected |
| LeadQuoteTable.LeadQuoteTable.OpenViewModal | src/hooks/table/useLeadQuoteTable.ts:113-116 | the lead is selected and the view modal is open |
| LeadQuoteTable.LeadQuoteTable.CloseViewModal | src/hooks/table/useLeadQuoteTable.ts:118-121 | the view modal is closed and no lead is selected |
| LeadQuoteTable.LeadQuoteTable.ConvertToCustomer | src/hooks/table/useLeadQuoteTable.ts:124-171 | after confirmation and with a token: a POST to `/customer` of the name, email and state taken from the lead, then a DELETE of `/lead/{id}`. Only when both succeed is every lead with that id dropped and "Converted!" fired; any other path fires the failure notice or nothing, and the list is unchanged |
| LeadQuoteTable.LeadQuoteTable.UpdateLead | src/hooks/table/useLeadQuoteTable.ts:173-175 | the list becomes `MergeById` of the old list and the update |
| LeadQuoteTable.LeadQuoteTable.DeleteSelected | src/hooks/table/useLeadQuoteTable.ts:177-213 | an empty selection only warns. Otherwise it asks for confirmation; after confirmation and with a token, it issues one DELETE per selected id. When they all succeed the selected leads go and the selection is cleared; every other path leaves leads and selection as they were and fires the failure notice where the source does |
| LeadQuoteTable.DeleteRemovesExactlySelected | src/hooks/table/useLeadQuoteTable.ts:205-206 | after a bulk delete no remaining lead carries a selected id, and every lead whose id was not selected remains |
| UserTable.UserTable.constructor | src/hooks/table/useUserTable.ts:8-19 | the initial state: no users, loading, empty search, sorted by `created_at` descending, page 1, no user selected, every modal closed, no ids selected |
| UserTable.UserTable.PaginatedData | src/hooks/table/useUserTable.ts:66 | the current page holds at most ten rows, each a user that matches the search |
| UserTable.UserTable.FetchUsers | src/hooks/table/useUserTable.ts:21-50 | without a token nothing is requested and the list stays. A successful GET of `/user` replaces the list with the reply; a failed one keeps the list and fires the "Unauthorized" notice only for a 401. Loading ends false on every path |
| UserTable.UserTable.SetSearchQuery | src/hooks/table/useUserTable.ts:10 | the search is the new query |
| UserTable.UserTable.HandlePageChange | src/hooks/table/useUserTable.ts:69-71 | the current page is the requested one |
| UserTable.UserTable.HandleSort | src/hooks/table/useUserTable.ts:73-80 | the sort column and direction become `NextSort` of the old ones |
| UserTable.UserTable.ToggleSelectAll | src/hooks/table/useUserTable.ts:82-88 | the selection becomes `UserToggleAll` of the old selection and the current page |
| UserTable.UserTable.ToggleSelect | src/hooks/table/useUserTable.ts:90-92 | the selection becomes `ToggleSelect` of the old one |
| UserTable.UserTable.DeleteSelected | src/hooks/table/useUserTable.ts:94-124 | an empty selection only warns. Otherwise it asks for confirmation; a confirmed delete with a token issues one DELETE per selected id. The selected users go and the selection clears only when every DELETE succeeds; a missing token or a failure fires the error notice and changes nothing |
| UserTable.UserTable.OpenEditModal | src/hooks/table/useUserTable.ts:126-129 | the user is selected and the edit modal is open |
| UserTable.UserTable.OpenViewModal | src/hooks/table/useUserTable.ts:131-134 | the user is selected and the view modal is open |
| UserTable.UserTable.UpdateUser | src/hooks/table/useUserTable.ts:136-138 | the list becomes `MergeById` of the old list and the update |
| Seqs.SortBy | src/hooks/table/useLeadQuoteTable.ts:69 | the sorted table is a permutation of the filtered rows (same rows, same multiplicities) |
| Seqs.SortByNeutral | src/hooks/table/useUserTable.ts:63 | a comparator that answers 0 for every pair leaves the rows in their order |
| Seqs.SortByOrdered | src/hooks/table/useLeadQuoteTable.ts:69-80 | when the comparator is a total preorder on the rows, the sorted rows are in its order |
| LeadHook.EmptyLeadIsBlank | src/hooks/add/useAddLead.ts:8-36 | the initial lead has an empty number and no contacts, and fails the four-field gate |
| LeadHook.AddLead.constructor | src/hooks/add/useAddLead.ts:8-32 | the draft and the rendered snapshot both start as the empty lead |
| LeadHook.AddLead.Render | src/hooks/add/useAddLead.ts:8 | a render makes the latest draft the state the handlers' closures read |
| LeadHook.AddLead.HandleSubmit | src/hooks/add/useAddLead.ts:38-65 | the gate reads the rendered lead. A failed gate or a missing token fires its notice and changes nothing. Otherwise it sends a PUT to `/lead/{id}` for a truthy id or a POST to `/lead`. Success fires the success notice, clears the draft and calls `onSuccess`; failure fires the error notice and keeps the draft |
| LeadHook.AddLead.ClearLeadForm | src/hooks/add/useAddLead.ts:67-93 | the draft is the empty lead again |
| LeadHook.AddLead.HandleAddContact | src/hooks/add/useAddLead.ts:95-100 | one blank contact is appended to the latest draft's contacts; nothing else changes |
| LeadHook.AddLead.HandleRemoveContact | src/hooks/add/useAddLead.ts:102-107 | the contact at that position is dropped from the latest draft; an index out of range changes nothing |
| LeadHook.AddLead.HandleContactChange | src/hooks/add/useAddLead.ts:109-115 | the contacts are mapped from the rendered draft, with that position replaced, and written into the latest draft, whose other fields are kept |
| FollowupHook.WithOwnId | src/hooks/edit/useEditFollowup.ts:41-44 | the copy of an item that is neither null nor undefined (for those, reading `id` throws) is an object that has an `id` key, and every property reads as in the original |
| FollowupHook.CopiedList | src/hooks/edit/useEditFollowup.ts:39-52 | the copy throws exactly when the value is an array holding a null or undefined item; otherwise a non-empty array is copied item by item, keeping its length, and anything else, an empty array included, becomes `[]` |
| FollowupHook.CopyOfIdentifiedItem | src/hooks/edit/useEditFollowup.ts:41-44 | an object that already has an `id` key is copied unchanged |
| FollowupHook.LoadedFollowup | src/hooks/edit/useEditFollowup.ts:35-55 | the load throws exactly when copying either list throws; otherwise the loaded draft has both lists copied, and every other field as the follow-up holds it |
| FollowupHook.WithoutId | src/hooks/edit/useEditFollowup.ts:132-137 | removal by id drops every item with that id and keeps every other item with its multiplicity |
| FollowupHook.ReplacingId | src/hooks/edit/useEditFollowup.ts:124-130 | a change by id replaces every item with that id and keeps the length and every other item |
| FollowupHook.RemoveAfterReplaceById | src/hooks/edit/useEditFollowup.ts:124-137 | removing an id after replacing it, with a replacement that keeps the id, is the same as removing it straight away |
| FollowupHook.ReplaceMissingId | src/hooks/edit/useEditFollowup.ts:124-130 | changing by an id that no item has leaves the list as it was |
| FollowupHook.EditFollowup.constructor | src/hooks/edit/useEditFollowup.ts:8-33 | the draft starts as the empty follow-up |
| FollowupHook.EditFollowup.Load | src/hooks/edit/useEditFollowup.ts:35-55 | a follow-up whose lists copy replaces the draft with `LoadedFollowup` of it; null, or a copy that throws, leaves the draft alone |
| FollowupHook.EditFollowup.UpdateFollowup | src/hooks/edit/useEditFollowup.ts:57-100 | the four-field gate, the token, then a PUT of the draft to `/lead-followup/{id}`. Success fires "Updated!", then `onUpdate` and `onClose`; every failure fires the same error notice. No request is sent unless both checks pass |
| FollowupHook.EditFollowup.HandleAdd | src/hooks/edit/useEditFollowup.ts:103-122 | a blank contact or product with an empty id is appended to its list |
| FollowupHook.EditFollowup.HandleRemove | src/hooks/edit/useEditFollowup.ts:132-153 | the list becomes `WithoutId` of itself; the rest of the draft is kept |
| FollowupHook.EditFollowup.HandleChange | src/hooks/edit/useEditFollowup.ts:124-145 | the list becomes `ReplacingId` of itself; the rest of the draft is kept |
| Effects.RequiredFilledLocal | src/hooks/edit/useEditOrder.ts:63-65 | a required-field gate reads nothing but its listed fields: two drafts that agree on them pass or fail together |
| Effects.SaveRequest | src/hooks/add/useAddOrder.ts:65-67 | a draft with a truthy id is saved with a PUT to `/<resource>/<id>`, any other draft with a POST to `/<resource>` |
| Effects.UpdateFailed | src/hooks/edit/useEditOrder.ts:86-93 | the failure notice is "Oops..." with an error icon; its text is "Unauthorized. Please log in again." exactly when the rejection has status 401, and the hook's own message otherwise |
| Effects.DeleteRequests | src/hooks/table/useUserTable.ts:114 | one DELETE of `/<resource>/<id>` per selected id, in selection order |
| Drafts.Normalised | src/hooks/edit/useEditOrder.ts:44-56 | an array is kept as it is. Anything else is JSON-decoded from `String(v \|\| '[]')`, and the load fails exactly when JSON.parse throws or yields null, whose `.length` throws. Any other decoded value without a positive `length` (an object's `length` converted to a number as `> 0` does) becomes `[]` |
| Drafts.FalsyCollectionIsEmpty | src/hooks/edit/useEditOrder.ts:44 | a missing, null or empty-string collection loads as `[]` |
| Drafts.ShortDecodedValueIsEmpty | src/hooks/edit/useEditOrder.ts:53-56 | a stored value that decodes to something other than null without a positive length, such as a number, loads as `[]` |
| Drafts.StoredNullThrows | src/hooks/edit/useEditOrder.ts:53-56 | a collection stored as the text "null" decodes to null, and reading its `.length` throws |
| Drafts.StoredNullFailsLoad | src/hooks/edit/useEditOrder.ts:42-61 | one listed collection stored as "null" makes the whole load fail, so the edit hooks keep their draft |
| Drafts.NormalisedArrayIsStable | src/hooks/edit/useEditOrder.ts:44-56 | loading a collection a second time changes nothing once it is an array |
| Drafts.DecodeKeys | src/hooks/edit/useEditOrder.ts:51-57 | the load fails exactly when one listed collection fails to decode. Otherwise every listed key holds its decoded value, every other field is copied, and the key set is the record's plus the listed keys |
| Drafts.DecodedAt | src/hooks/edit/useEditOrder.ts:51-57 | after a successful load, each listed key holds the decoded value of that key |
| Drafts.DecodeKeysAgree | src/hooks/edit/useEditOrder.ts:51-57 | two decoders that give the same result on every listed field load the record alike |
| Drafts.ArrayCollectionsLoadUnchanged | src/hooks/edit/useEditOrder.ts:42-61 | a record whose collections are already arrays loads as itself |
| Drafts.Appended | src/hooks/edit/useEditOrder.ts:97-125 | an add leaves the draft's keys and every other field untouched and appends exactly one blank item to the collection |
| Drafts.RemovedInto | src/hooks/edit/useEditOrder.ts:127-136 | a remove writes the collection with that position dropped (unchanged when the index is out of range) under the target key, and keeps every other field |
| Drafts.ReplacedInto | src/hooks/edit/useEditOrder.ts:138-147 | a change writes the source collection, with that position replaced and its length kept, under the target key of the previous state, and keeps every other field of that state |
| Drafts.RemoveInRange | src/hooks/edit/useEditOrder.ts:127-136 | removing a position that exists shortens the collection by one and keeps the other items in order |
| Drafts.RemoveOutOfRange | src/hooks/edit/useEditOrder.ts:132 | removing a position the collection does not have leaves the draft as it was |
| Drafts.RemoveUndoesAppend | src/hooks/edit/useEditOrder.ts:97-136 | removing the item just appended gives back the draft from before the add |
| Drafts.ReplaceWithSameIsIdentity | src/hooks/edit/useEditOrder.ts:138-147 | replacing an item with the value it already holds leaves the draft as it was |
| Drafts.ChangeFromRenderDropsQueuedAdd | src/hooks/add/useAddOrder.ts:147-153 | because the add hook maps over the rendered list, a change made after an add queued since that render writes back the rendered length and loses the added item |
| Drafts.Seeded | src/hooks/edit/useEditUser.ts:29-40 | the seeded draft has exactly the listed keys, each holding the source's value when it is truthy and its default otherwise |
| Drafts.SeededFalsyDefault | src/hooks/edit/UseEditBroker.ts:33-47 | where the default is falsy, the seeded field is truthy exactly when the source's field is |
| Drafts.SeededIsTruthyWhereDefaultIs | src/hooks/edit/UseEditBroker.ts:33-47 | where the default is truthy, the seeded field is truthy whatever the source holds |
| Drafts.FieldPart | src/hooks/edit/useEditCarrier.ts:119-127 | a flag key yields '1' or '0' according to its truthiness; a file key that is not a flag yields nothing; any other key yields `String(value \|\| '')` |
| Drafts.FileParts | src/hooks/edit/useEditCarrier.ts:129-135 | every file part belongs to a file key whose value is a File, and carries that File |
| Drafts.EncodeFormData | src/hooks/edit/useEditCarrier.ts:117-135 | the loop over the keys, then the file appends, yield exactly the loop's parts followed by the file parts |
| Drafts.DraftFieldsEncoded | src/hooks/edit/useEditCarrier.ts:119-127 | looping over the draft's own keys, each field that is a flag or not a file key gets its part, and the loop appends no more parts than there are keys |
| Drafts.LoopPartsEncode | src/hooks/edit/useEditCarrier.ts:119-127 | every part the loop appends belongs to a listed key that is a flag or not a file key, and holds that key's encoding; every such key gets its part |
| Drafts.FilePartsPresent | src/hooks/edit/useEditCarrier.ts:129-135 | a file key whose value is a File gets a File part |
| OrderHooks.EmptyOrderIsBlank | src/hooks/add/useAddOrder.ts:8-46 | the initial order has a falsy id and four empty collections, and fails the gate |
| OrderHooks.OrderGateFields | src/hooks/edit/useEditOrder.ts:63-65 | the order gate passes exactly when the customer, the customer reference number, the equipment and the load type are all truthy |
| OrderHooks.EditOrder.constructor | src/hooks/edit/useEditOrder.ts:8-40 | the draft starts as the empty order |
| OrderHooks.EditOrder.Load | src/hooks/edit/useEditOrder.ts:42-61 | an order whose four collections all decode becomes the draft, with those collections normalised; without an order, or when JSON.parse throws or a collection decodes to null, the draft stays as it was |
| OrderHooks.EditOrder.UpdateOrder | src/hooks/edit/useEditOrder.ts:67-94 | the gate, then the token ("Please log in again."), then a PUT of the whole draft to `/order/{id}`. Success fires "Updated!" and passes the reply to `onUpdate` before `onClose`; a failure's message depends on whether the status is 401. No request is sent unless both checks pass |
| OrderHooks.EditOrder.HandleAdd | src/hooks/edit/useEditOrder.ts:97-125 | the chosen collection of the latest draft gets one blank stop, charge or discount appended |
| OrderHooks.EditOrder.HandleRemove | src/hooks/edit/useEditOrder.ts:127-136 | the chosen collection of the latest draft loses the item at that position |
| OrderHooks.EditOrder.HandleChange | src/hooks/edit/useEditOrder.ts:138-147 | the item at that position of the latest draft is replaced |
| OrderHooks.AddOrder.constructor | src/hooks/add/useAddOrder.ts:8-42 | the latest and the rendered order both start as the empty order |
| OrderHooks.AddOrder.Render | src/hooks/add/useAddOrder.ts:42 | a render makes the latest order the one the handlers' closures read |
| OrderHooks.AddOrder.HandleSubmit | src/hooks/add/useAddOrder.ts:48-76 | the gate reads the rendered order. A failed gate or a missing token fires its notice and keeps the draft. Otherwise it sends a PUT for a truthy id or a POST; success fires "Success!" or "Saved!" by id, clears the draft and calls `onSuccess`; failure keeps the draft. The form is never closed |
| OrderHooks.AddOrder.ClearOrderForm | src/hooks/add/useAddOrder.ts:78-112 | the draft is the empty order again |
| OrderHooks.AddOrder.HandleAdd | src/hooks/add/useAddOrder.ts:114-138 | one blank item is appended to the chosen collection of the latest order |
| OrderHooks.AddOrder.HandleRemove | src/hooks/add/useAddOrder.ts:140-145 | the item at that position is dropped from the latest order |
| OrderHooks.AddOrder.HandleChange | src/hooks/add/useAddOrder.ts:147-153 | the collection is mapped from the rendered order and written into the latest one |
| CarrierHook.WithFormatted | src/hooks/edit/useEditCarrier.ts:86-89 | each listed date holds the formatted value of the source's date, and every other field is left as it was |
| CarrierHook.LoadedCarrier | src/hooks/edit/useEditCarrier.ts:75-94 | the load succeeds exactly when the three collections decode to something other than null |
| CarrierHook.LoadedCarrierDates | src/hooks/edit/useEditCarrier.ts:86-89 | the four insurance dates are reformatted from the carrier as it arrived |
| CarrierHook.LoadedCarrierCollection | src/hooks/edit/useEditCarrier.ts:77-85 | contacts, equipment and lanes each hold their decoded value |
| CarrierHook.CollectionIsNoDate | src/hooks/edit/useEditCarrier.ts:77-89 | no collection key is also a date key, so the date pass cannot undo a decoded collection |
| CarrierHook.LoadedCarrierCopies | src/hooks/edit/useEditCarrier.ts:81-82 | every field other than the dates and the collections is copied from the carrier |
| CarrierHook.CarrierFormDataEncoding | src/hooks/edit/useEditCarrier.ts:117-135 | the five flags reach the FormData only as '1' or '0', the two uploads only as Files, and every other key only as `String(value \|\| '')` |
| CarrierHook.EditCarrier.constructor | src/hooks/edit/useEditCarrier.ts:16-73 | the draft starts as the empty carrier |
| CarrierHook.EditCarrier.Load | src/hooks/edit/useEditCarrier.ts:75-94 | a carrier whose collections decode to values other than null becomes the draft as `LoadedCarrier` builds it; otherwise (a JSON.parse throw, or `.length` of a decoded null) the draft stays |
| CarrierHook.EditCarrier.UpdateCarrier | src/hooks/edit/useEditCarrier.ts:100-148 | the dba and legal-name gate, then the token, then the FormData (exactly `FormParts` of the draft over its own keys, each once), then a PUT or POST whose body is the draft itself, not the FormData. Success fires "Success!" or "Saved!" and calls `onUpdate` and `onClose`; every failure has the same message. No request is sent unless both checks pass |
| CarrierHook.EditCarrier.HandleAdd | src/hooks/edit/useEditCarrier.ts:150-190 | a blank contact, equipment or lane is appended to its list |
| CarrierHook.EditCarrier.HandleRemove | src/hooks/edit/useEditCarrier.ts:158-193 | the item at that position is dropped from its list |
| CarrierHook.EditCarrier.HandleChange | src/hooks/edit/useEditCarrier.ts:162-200 | the item at that position of its list is replaced |
| CustomerHook.EditsMissTheCollection | src/hooks/edit/useEditCustomer.ts:192-255 | a remove or a change leaves `cust_contact` and `cust_equipment` exactly as they were; only the stray `contacts` or `equipments` key takes the new list |
| CustomerHook.AddAfterRemoveKeepsRemoved | src/hooks/edit/useEditCustomer.ts:171-201 | an add after a remove appends to the untouched list, so the removed contact is still shown |
| CustomerHook.CustomerFormDataEncoding | src/hooks/edit/useEditCustomer.ts:110-140 | the credit-application flag reaches the FormData as '1' or '0', the two agreements only as Files, and every other key gets its part |
| CustomerHook.EditCustomer.constructor | src/hooks/edit/useEditCustomer.ts:12-64 | the draft starts as the empty customer |
| CustomerHook.EditCustomer.Load | src/hooks/edit/useEditCustomer.ts:66-83 | a customer whose contacts and equipment decode to values other than null becomes the draft; otherwise (a JSON.parse throw, or `.length` of a decoded null) the draft stays |
| CustomerHook.EditCustomer.UpdateCustomer | src/hooks/edit/useEditCustomer.ts:85-168 | the name and reference-number gate, the token, the FormData (exactly `FormParts` of the draft over its own keys, each once), then a PUT or POST of the draft itself. Success fires "Success!" or "Saved!" and calls `onUpdate` and `onClose`; every failure has the same message |
| CustomerHook.EditCustomer.HandleAdd | src/hooks/edit/useEditCustomer.ts:171-226 | a blank contact or equipment is appended to `cust_contact` or `cust_equipment` |
| CustomerHook.EditCustomer.HandleRemove | src/hooks/edit/useEditCustomer.ts:192-239 | the list without that position is written under `contacts` or `equipments`; the list that is shown is untouched |
| CustomerHook.EditCustomer.HandleChange | src/hooks/edit/useEditCustomer.ts:203-255 | the list with that position replaced is written under `contacts` or `equipments`; the list that is shown is untouched |
| Views.ViewDecoded | src/components/Orders/ViewOrder/ViewOrderForm.tsx:57-61 | a collection fails to decode exactly when it is a string that JSON.parse rejects; any value that is not a string shows as an array (itself, or `[]`) |
| Views.ViewLoaded | src/components/Orders/ViewOrder/ViewOrderForm.tsx:53-74 | without an order the view keeps its template; with one it shows the decoded order, or keeps its state when a decode throws |
| Views.ViewFailsOnlyOnBadStrings | src/components/Orders/ViewOrder/ViewOrderForm.tsx:55-72 | the view's load fails exactly when one of the four collections is a string that JSON.parse rejects |
| Views.ViewedCollection | src/components/Orders/ViewOrder/ViewOrderForm.tsx:57-71 | each shown collection is the stored array, the decoded string, or `[]` for anything else |
| Views.ViewedScalars | src/components/Orders/ViewOrder/ViewOrderForm.tsx:56 | every field other than the four collections is shown as the order holds it |
| Views.ViewAgreesWithEditOnMissingCollections | src/components/Orders/ViewOrder/ViewOrderForm.tsx:53-74 | an order that stores none of the four collections loads the same in the view and in the edit hook (`src/hooks/edit/useEditOrder.ts`), with four empty lists |
| Views.ViewIsStricterThanEdit | src/components/Orders/ViewOrder/ViewOrderForm.tsx:57-61 | the two loads differ: an empty string is `[]` to the edit hook but makes the view's JSON.parse throw, and a stored "5" is `[]` to the edit hook but the number 5 to the view |
| Views.ViewedArraysUnchanged | src/components/Orders/ViewOrder/ViewOrderForm.tsx:55-72 | an order whose collections are already arrays is shown exactly as it is |
| Views.FileObject | src/components/Customers/ViewCustomer/ViewCustomerCredit.tsx:13-29 | a string is JSON-decoded and fails exactly when JSON.parse throws; any other value is used as it is |
| Views.RenderDownloadLink | src/components/Customers/ViewCustomer/ViewCustomerCredit.tsx:9-42 | a falsy value shows nothing. A string that JSON rejects links to itself, labelled "Download {label}". A decoded object with a truthy `url` links to that url, labelled "Download {label}: {name}"; without one nothing shows. A shown link always has a truthy target |
| Views.LinkShownIff | src/components/Customers/ViewCustomer/ViewCustomerCredit.tsx:9-42 | a link shows exactly when the value is truthy and is either a string JSON rejects or an object with a truthy `url`; a link for a value that is not a string points at that object's own `url` |
| Views.StoredFileLinks | src/components/Customers/ViewCustomer/ViewCustomerCredit.tsx:31-38 | a stored JSON file record links to its url and names the file |
| Views.DecodedWithoutUrlShowsNothing | src/components/Customers/ViewCustomer/ViewCustomerCredit.tsx:31-41 | a string that decodes to a value without a `url`, such as "123", shows no link, and neither does a File just picked in the form |
| EditOrderSections.EditOrderShipment.constructor | src/components/Orders/EditOrder/EditOrderShipment.tsx:35-36 | the section edits the parent's order and starts with no errors |
| EditOrderSections.EditOrderShipment.ValidateAndSetOrder | src/components/Orders/EditOrder/EditOrderShipment.tsx:41-55 | the value is stored as entered, and the field's error becomes the first issue the whole-object parse reports for that field, or "" |
| EditOrderSections.EditOrderShipment.SelectEquipment | src/components/Orders/EditOrder/EditOrderShipment.tsx:64 | the equipment select stores its value without validating; the errors are unchanged |
| EditOrderSections.EditOrderShipment.SelectLoadType | src/components/Orders/EditOrder/EditOrderShipment.tsx:80 | the load-type select stores its value without validating; the errors are unchanged |
| EditOrderSections.TemperatureErrorIff | src/components/Orders/EditOrder/EditOrderShipment.tsx:17-25 | a temperature typed as text is accepted exactly when it has at most 10 characters and matches `-?digits(.digits)? ?[°CFK]?` |
| EditOrderSections.TemperatureChecksPass | src/components/Orders/EditOrder/EditOrderShipment.tsx:21-22 | both string checks of the temperature pass exactly when the length and the pattern hold |
| EditOrderSections.NumericTemperatureAccepted | src/components/Orders/EditOrder/EditOrderShipment.tsx:23 | a temperature held as a number always passes |
| EditOrderSections.MessageExampleRejected | src/components/Orders/EditOrder/EditOrderShipment.tsx:22 | "5°C", the first example in the message itself, is reported with that message, since the pattern allows only one unit character |
| EditOrderSections.EquipmentError | src/components/Orders/EditOrder/EditOrderShipment.tsx:26 | the equipment's error is "" exactly for one of the three trailer types, and the enum message otherwise, missing equipment included |
| EditOrderSections.LoadTypeError | src/components/Orders/EditOrder/EditOrderShipment.tsx:27 | the load type's error is "" exactly for Partial, FTL or LTL, and the enum message otherwise |
| EditOrderSections.EditOrderRevenue.constructor | src/components/Orders/EditOrder/EditOrderRevenue.tsx:22-23 | the section edits the parent's order and starts with no errors |
| EditOrderSections.EditOrderRevenue.ValidateAndSetOrder | src/components/Orders/EditOrder/EditOrderRevenue.tsx:26-40 | the value is stored as entered, and the field's error is the first issue the parse reports for that field, or "" |
| EditOrderSections.EditOrderRevenue.SelectCurrency | src/components/Orders/EditOrder/EditOrderRevenue.tsx:60 | the currency select stores its value without validating |
| EditOrderSections.BasePriceErrorIff | src/components/Orders/EditOrder/EditOrderRevenue.tsx:11-15 | a base price is accepted exactly when it has at most 20 characters and is comma-grouped in threes with at most two decimals |
| EditOrderSections.UngroupedBasePriceRejected | src/components/Orders/EditOrder/EditOrderRevenue.tsx:14 | any run of four or more digits without commas is reported with the pattern's message |
| EditOrderSections.BasePriceExamples | src/components/Orders/EditOrder/EditOrderRevenue.tsx:14 | of the message's two examples, "1000" is rejected and "1,000.50" accepted |
| EditOrderSections.RevenueCurrencyError | src/components/Orders/EditOrder/EditOrderRevenue.tsx:17 | the currency may be absent; a present currency other than CAD or USD gets the enum message |
| EditOrderSections.EditOrderTax.constructor | src/components/Orders/EditOrder/EditOrderTax.tsx:50-51 | the section edits the parent's order and starts with no errors |
| EditOrderSections.EditOrderTax.ValidateAndSetOrder | src/components/Orders/EditOrder/EditOrderTax.tsx:53-67 | the trimmed value is stored, and the field's error is the first issue the parse reports for it, or "" |
| EditOrderSections.TaxAmountErrorIff | src/components/Orders/EditOrder/EditOrderTax.tsx:11-34 | each amount is accepted exactly when it is digits with an optional one- or two-digit decimal part |
| EditOrderSections.EmptyTaxAmountRejected | src/components/Orders/EditOrder/EditOrderTax.tsx:15-34 | clearing an amount reports it, because `.optional()` does not admit the empty string |
| EditOrderSections.TaxNotesErrorIff | src/components/Orders/EditOrder/EditOrderTax.tsx:35-39 | notes are accepted exactly when they have at most 500 characters, all letters, digits, white space or `,.'-` |
| EditOrderSections.TaxEditIgnoresPadding | src/components/Orders/EditOrder/EditOrderTax.tsx:54 | white space typed around an entry is neither stored nor judged |
| Schema.StrIssues | src/components/Orders/EditOrder/EditOrderTax.tsx:58-61 | a string field reports no issue exactly when every one of its checks passes, and never more issues than checks |
| Schema.NumIssues | src/components/Orders/OrderDestination.tsx:78-79 | a number field reports no issue exactly when every one of its checks passes |
| Schema.RuleOf | src/components/Orders/EditOrder/EditOrderTax.tsx:61 | a rule is found exactly for a declared field, and it is the declared one |
| Schema.FieldError | src/components/Orders/EditOrder/EditOrderTax.tsx:58-62 | the stored error is the first issue of the field's own rule. When that rule has none, it is the refinement's message when the refinement fails on this field, and "" otherwise |
| Schema.ParsedHasNoErrors | src/components/Orders/EditOrder/EditOrderTax.tsx:60-62 | a draft that parses gives every field the error "" |
| Schema.FieldErrorByRule | src/components/Orders/EditOrder/EditOrderTax.tsx:58-62 | without a refinement on the field, its error is the first issue of its own rule, or "" |
| Schema.UndeclaredFieldHasNoError | src/components/Orders/EditOrder/EditOrderTax.tsx:61-62 | a field the schema does not declare never gets an error, unless a refinement reports there |
| Schema.FieldErrorIsLocal | src/components/Orders/EditOrder/EditOrderTax.tsx:57-62 | without a refinement, a field's error depends only on that field's value, not on the rest of the draft |
| Schema.SameRuleSameError | src/components/Orders/EditOrder/EditOrderTax.tsx:58-62 | two fields with the same rule and the same value get the same error, whatever schema and draft hold them |
| Schema.FirstFailingCheck | src/components/Orders/EditOrder/EditOrderTax.tsx:35-39 | the error of a string field is the message of its first failing check |
| Schema.StrIssuesIgnoreEmail | src/components/Orders/EditOrder/EditOrderTax.tsx:10-40 | the issues of checks without `.email()` do not depend on the e-mail test |
| Schema.FieldErrorIgnoresEmail | src/components/Orders/EditOrder/EditOrderTax.tsx:10-40 | for a schema without `.email()`, the stored error does not depend on the e-mail test |
| Values.ToNumeric | src/hooks/edit/useEditOrder.ts:53-56 | the numeric conversion `> 0` applies is always a number or NaN; a number is kept and a string is read as `Number` reads it |
| Values.CoercedLengths | src/hooks/edit/useEditOrder.ts:53-56 | an object whose `length` is "5" or true has a positive length and one whose `length` is null has not, as `> 0` compares them |
| Values.ToNumber | src/components/Orders/OrderDestination.tsx:128 | `Number(s)` of a typed string is always a number or NaN |
| Values.NumberOfTrimmed | src/components/Orders/OrderDestination.tsx:128 | once the surrounding white space is gone, a string is read as a number or NaN |
| Values.TrimOfIntToString | src/components/Orders/OrderDestination.tsx:128 | a printed integer has no surrounding white space |
| Values.ToNumberNegative | src/components/Orders/OrderDestination.tsx:128 | a minus sign followed by digits reads as the negated digits |
| Values.NegativeOfTrimmed | src/components/Orders/OrderDestination.tsx:128 | the same, for a string already trimmed |
| Values.ToNumberOfNatToString | src/components/Orders/OrderDestination.tsx:128 | a printed natural number reads back as itself |
| Values.ToNumberOfNegative | src/components/Orders/OrderDestination.tsx:128 | a printed negative integer reads back as itself |
| Values.ToNumberOfToStr | src/components/Orders/OrderDestination.tsx:128 | `Number(String(n))` is n for every integer n |
| Values.ToNumberOfWord | src/components/Orders/OrderDestination.tsx:128 | a word that starts with a letter, other than "Infinity", reads as NaN |
| Values.ForeignCharIsNaN | src/components/Orders/OrderDestination.tsx:128 | text holding a printable ASCII character that no JavaScript number syntax uses (not a letter, digit, sign, '.' or white space) reads as NaN |
| OrderForms.DestinationValue | src/components/Orders/OrderDestination.tsx:123-129 | packages and weight are read by the model's integer `Number` (NaN for text that reading rejects, 0 when empty); every other field keeps the sanitised text |
| OrderForms.PlaceAt | src/components/Orders/OrderDestination.tsx:104-115 | only the location at the section's index changes, and it gets the filled place fields; the list keeps its length and every other location |
| OrderForms.PlacedLocation | src/components/Orders/OrderDestination.tsx:106-113 | the filled location has the trimmed street line, city, state, country and postal code from the components and every other key of the old location |
| OrderForms.OrderDestination.constructor | src/components/Orders/OrderDestination.tsx:88-97 | a destination section for one index of the parent's order, with no errors |
| OrderForms.OrderDestination.ValidateAndSetDestination | src/components/Orders/OrderDestination.tsx:121-144 | the edited row (the row at the index, or `{}`, with the converted value) is forwarded whatever the verdict, and the field's error is the first issue for that field or ""; the order itself is not touched |
| OrderForms.OrderDestination.UpdateAddressFields | src/components/Orders/OrderDestination.tsx:99-117 | the autocomplete rewrites only this destination's address fields in the order; the errors are unchanged |
| OrderForms.PackagesError | src/components/Orders/OrderDestination.tsx:78 | a package count is accepted exactly in 1..99999, below and above with the matching message |
| OrderForms.EmptyPackagesRejected | src/components/Orders/OrderDestination.tsx:127-129 | clearing the packages input stores 0, which is reported as below the minimum |
| OrderForms.WeightError | src/components/Orders/OrderDestination.tsx:79 | a weight is accepted exactly in 0..1,000,000, below and above with the matching message |
| OrderForms.NaNQuantityRejected | src/components/Orders/OrderDestination.tsx:78-79 | a NaN package count or weight is reported as the wrong type ("Expected number, received nan") |
| OrderForms.NaNForNumber | src/components/Orders/OrderDestination.tsx:78-79 | the wrong-type message for NaN names "nan" |
| OrderForms.QuantityRules | src/components/Orders/OrderDestination.tsx:78-79 | the schema's rules for packages and weight are the two optional ranges |
| OrderForms.NonNumericQuantityRejected | src/components/Orders/OrderDestination.tsx:78-79 | text holding a character no JavaScript number uses (such as "12#") ends as the wrong-type error, not as a range error |
| OrderForms.NonNumericExample | src/components/Orders/OrderDestination.tsx:127-129 | typing "ten" as the package count gives "Expected number, received nan" |
| OrderForms.DestinationTextRejectsEmpty | src/components/Orders/OrderDestination.tsx:25-77 | a text field whose pattern needs one character or more rejects "" with that pattern's message |
| OrderForms.DestinationTextFields | src/components/Orders/OrderDestination.tsx:25-77 | address, city, state, country, postal, phone, equipment and pickup PO are such fields, with their limits and messages |
| OrderForms.DateErrorIff | src/components/Orders/OrderDestination.tsx:55-58 | a date is accepted exactly when it is DD-MM-YYYY |
| OrderForms.TimeErrorIff | src/components/Orders/OrderDestination.tsx:59-62 | a time is accepted exactly when it is a 24-hour HH:MM |
| OrderForms.CurrencyErrorIff | src/components/Orders/OrderDestination.tsx:63-67 | a currency is accepted exactly when it is three capital letters |
| OrderForms.DimensionsErrorIff | src/components/Orders/OrderDestination.tsx:80-84 | dimensions are accepted exactly when they are NxNxN within 50 characters |
| OrderForms.DestinationEmailFree | src/components/Orders/OrderDestination.tsx:24-86 | the destination schema has no e-mail check, so its verdicts do not depend on the e-mail test |
| OrderForms.ChargeRow.constructor | src/components/Orders/OrderCharges.tsx:37-39 | a charge or discount row editor for one index, with no errors |
| OrderForms.ChargeRow.ValidateAndSet | src/components/Orders/OrderCharges.tsx:41-58 | the row with the sanitised text is forwarded whatever the verdict, and the field's error is the first issue for it or "" (the discount section, src/components/Orders/OrderDiscounts.tsx:41-58, is the same editor over its own schema) |
| OrderForms.ChargeTypeErrorIff | src/components/Orders/OrderCharges.tsx:18-22 | a charge or discount type is accepted exactly when it has 1 to 200 letters, spaces or `.,'-` |
| OrderForms.ChargeAmountErrorIff | src/components/Orders/OrderCharges.tsx:24-28 | a charge is accepted exactly when it is digits with at most two decimals, within 30 characters |
| OrderForms.DiscountAmountErrorIff | src/components/Orders/OrderDiscounts.tsx:24-28 | a discount amount follows the same rule, under the key `discount` |
| OrderForms.DiscountIgnoresCharge | src/components/Orders/OrderDiscounts.tsx:17-35 | the discount schema has no `charge` key, so nothing held there is reported |
| OrderForms.PercentErrorIff | src/components/Orders/OrderCharges.tsx:30-34 | the rate is accepted exactly when it is "", "Flat" or "Percentage" |
| OrderForms.ChargeEmailFree | src/components/Orders/OrderCharges.tsx:17-35 | the charge schema has no e-mail check |
| OrderForms.DiscountEmailFree | src/components/Orders/OrderDiscounts.tsx:17-35 | the discount schema has no e-mail check |
| OrderForms.OrderGeneral.constructor | src/components/Orders/AddOrder/OrderGeneral.tsx:58-61 | the general section edits the parent's order and starts with no errors, customers or reference numbers |
| OrderForms.OrderGeneral.ValidateAndSetOrder | src/components/Orders/AddOrder/OrderGeneral.tsx:103-117 | the value is stored as entered (no sanitising) and the field's error is the first issue for it or ""; the option lists are unchanged |
| OrderForms.OrderGeneral.LoadCustomers | src/components/Orders/AddOrder/OrderGeneral.tsx:64-92 | the fetched customers become the options; nothing else changes |
| OrderForms.OrderGeneral.RefreshCustomerRefNos | src/components/Orders/AddOrder/OrderGeneral.tsx:94-101 | the reference numbers offered are those of the chosen customer; nothing else changes |
| OrderForms.EmptyCustomerRequired | src/components/Orders/AddOrder/OrderGeneral.tsx:38-47 | an empty customer or reference number is reported as required, before the pattern that also rejects it |
| OrderForms.CustomerErrorIff | src/components/Orders/AddOrder/OrderGeneral.tsx:38-42 | a customer name is accepted exactly when it has 1 to 200 characters of the general set |
| OrderForms.MissingCustomer | src/components/Orders/AddOrder/OrderGeneral.tsx:38-47 | a customer or reference number that is not there at all is reported as "Required", since neither is optional |
| OrderForms.OptionalTextAcceptsEmpty | src/components/Orders/AddOrder/OrderGeneral.tsx:13-37 | a field with a maximum length and a pattern that allows "" accepts "" |
| OrderForms.GeneralOptionalFields | src/components/Orders/AddOrder/OrderGeneral.tsx:13-37 | branch, booked by, account rep, sales rep and customer PO number are such fields, with their limits and messages |
| OrderForms.GeneralEmailFree | src/components/Orders/AddOrder/OrderGeneral.tsx:12-48 | the general schema has no e-mail check |
| OrderForms.SpecValue | src/components/Orders/AddOrder/OrderSpecs.tsx:21-28 | a checkbox value is stored as given; text for one of the five flags becomes `value === 'true'`; other text is sanitised |
| OrderForms.OrderSpecs.constructor | src/components/Orders/AddOrder/OrderSpecs.tsx:18-19 | the specifications section edits the parent's order and starts with no errors |
| OrderForms.OrderSpecs.ValidateAndSetSpecs | src/components/Orders/AddOrder/OrderSpecs.tsx:21-41 | the converted value is stored and the field's error is the first issue for it or "" |
| OrderForms.SpecEditNeverReported | src/components/Orders/AddOrder/OrderSpecs.tsx:11-41 | whatever is set, the specifications edit never reports an error for the edited field |
| OrderForms.SpecEmailFree | src/components/Orders/AddOrder/OrderSpecs.tsx:11-17 | the specifications schema has no e-mail check |
| OrderForms.RowAndSectionSchemasEmailFree | src/components/Orders/OrderCharges.tsx:17-35 | the charge, discount, general and specifications schemas have no e-mail check |
| CustomerSections.CustomerInfo.constructor | src/components/Customers/EditCustomer/CustomerInfo.tsx:58-61 | the section edits the parent's draft customer and starts with no errors, customers or reference numbers |
| CustomerSections.CustomerInfo.LoadCustomers | src/components/Customers/EditCustomer/CustomerInfo.tsx:65-94 | the fetched customers become the options; the draft, the errors and the reference numbers are unchanged |
| CustomerSections.CustomerInfo.RefreshCustomerRefNos | src/components/Customers/EditCustomer/CustomerInfo.tsx:96-103 | the reference numbers offered are those of the customer named in the draft; nothing else changes |
| CustomerSections.CustomerInfo.ValidateAndSetCustomer | src/components/Customers/EditCustomer/CustomerInfo.tsx:105-119 | the value is stored as entered and the field's error is the first issue the whole-draft parse reports for it, or ""; the option lists are unchanged |
| CustomerSections.CustomerInfo.SelectCustomerType | src/components/Customers/EditCustomer/CustomerInfo.tsx:190 | the type select writes `cust_type` without validating; errors and options are unchanged |
| CustomerSections.CustNameError | src/components/Customers/EditCustomer/CustomerInfo.tsx:13-17 | the name's error: "" gets "Customer is required", over 200 characters the length message, a character outside the general set the pattern message, otherwise none |
| CustomerSections.CustRefNoError | src/components/Customers/EditCustomer/CustomerInfo.tsx:18-22 | the reference number's error, in the same order with the limit 100 |
| CustomerSections.CustTypeError | src/components/Customers/EditCustomer/CustomerInfo.tsx:23-26 | the type is accepted exactly when it is one of the five types; any other value, a missing one included, gets "Invalid customer type" |
| CustomerSections.CustContactErrors | src/components/Customers/EditCustomer/CustomerInfo.tsx:27-47 | contact number, tax id and website: the length message first, then the character-set message, otherwise none |
| CustomerSections.EmailError | src/components/Customers/EditCustomer/CustomerInfo.tsx:32 | an e-mail over 255 characters gets the length message, one the e-mail test rejects gets "Invalid email format", otherwise none (also for the payable e-mail) |
| CustomerSections.PhoneExtError | src/components/Customers/EditCustomer/CustomerInfo.tsx:38-42 | an extension is accepted exactly when it has at most 10 letters, digits or hyphens, with the matching message otherwise (also for the payable extension) |
| CustomerSections.PrimaryAddress.constructor | src/components/Customers/EditCustomer/PrimaryAddress.tsx:51-52 | the section edits the parent's draft and starts with no errors |
| CustomerSections.PrimaryAddress.ValidateAndSetField | src/components/Customers/EditCustomer/PrimaryAddress.tsx:67-81 | the sanitised text is stored and the field's error is the first issue for it or "" |
| CustomerSections.PrimaryAddress.UpdateAddressFields | src/components/Customers/EditCustomer/PrimaryAddress.tsx:54-64 | the autocomplete fills the five primary place fields from the components, even when there are none; the unit number, the other fields and the errors stay |
| CustomerSections.SameAsPrimary | src/components/Customers/EditCustomer/MailingAddress.tsx:100-108 | checked, each of the six mailing fields takes its primary field; unchecked, each becomes ""; every other field stays |
| CustomerSections.MailingAddress.constructor | src/components/Customers/EditCustomer/MailingAddress.tsx:51-53 | the section edits the parent's draft, with no errors and "same as primary" unchecked |
| CustomerSections.MailingAddress.ValidateAndSetField | src/components/Customers/EditCustomer/MailingAddress.tsx:80-94 | the sanitised text is stored and the field's error is the first issue for it or ""; the checkbox is unchanged |
| CustomerSections.MailingAddress.UpdateAddressFields | src/components/Customers/EditCustomer/MailingAddress.tsx:67-77 | the autocomplete fills the five mailing place fields; the errors and the checkbox stay |
| CustomerSections.MailingAddress.HandleSameAsPrimaryChange | src/components/Customers/EditCustomer/MailingAddress.tsx:96-108 | the checkbox takes the new state and the draft is copied or cleared as `SameAsPrimary` says; the errors already shown stay |
| CustomerSections.StreetFieldError | src/components/Customers/EditCustomer/PrimaryAddress.tsx:19-23 | a street line is accepted exactly when it has at most 255 letters, digits, white space or `,.'-`, with the matching message otherwise, in all three address sections |
| CustomerSections.CityFieldError | src/components/Customers/EditCustomer/PrimaryAddress.tsx:24-28 | a city is accepted exactly when it has at most 200 letters, white space or `.'-` |
| CustomerSections.StateFieldError | src/components/Customers/EditCustomer/PrimaryAddress.tsx:29-33 | a state follows the same rule with its own messages |
| CustomerSections.CountryFieldError | src/components/Customers/EditCustomer/PrimaryAddress.tsx:34-38 | a country follows the same character rule with the limit 100 |
| CustomerSections.PostalFieldError | src/components/Customers/EditCustomer/PrimaryAddress.tsx:39-43 | a postal code is accepted exactly when it has at most 20 letters, digits, white space or hyphens |
| CustomerSections.UnitNoFieldError | src/components/Customers/EditCustomer/PrimaryAddress.tsx:44-48 | a unit number is accepted exactly when it has at most 30 letters, digits, `#`, `/`, white space or hyphens |
| CustomerSections.AddressAcceptsEmpty | src/components/Customers/EditCustomer/PrimaryAddress.tsx:18-49 | every primary and mailing field may be left empty: "" is never reported |
| CustomerSections.CopiedMailingMatchesPrimary | src/components/Customers/EditCustomer/MailingAddress.tsx:18-49 | once "same as primary" is checked, each mailing field gets exactly the error its primary field gets |
| CustomerSections.MailingCopyReadsPrimary | src/components/Customers/EditCustomer/MailingAddress.tsx:100-108 | checking the box puts into each mailing field the value of its primary field |
| CustomerSections.MailingRulesMatchPrimary | src/components/Customers/EditCustomer/MailingAddress.tsx:18-49 | each mailing field is declared with the rule of its primary field |
| CustomerSections.ClearedMailingAccepted | src/components/Customers/EditCustomer/MailingAddress.tsx:100-108 | after unchecking, no mailing field would be reported |
| CustomerSections.MailingFields | src/components/Customers/EditCustomer/MailingAddress.tsx:18-49 | the mailing schema declares exactly the six mailing fields |
| CustomerSections.AccountsPayable.constructor | src/components/Customers/EditCustomer/AccountsPayable.tsx:72-74 | the section edits the parent's draft and starts with no errors |
| CustomerSections.AccountsPayable.ValidateAndSetField | src/components/Customers/EditCustomer/AccountsPayable.tsx:105-122 | the sanitised text is always stored; a field the schema declares gets its first issue or "", any other field's error is cleared |
| CustomerSections.AccountsPayable.UpdateAddressFields | src/components/Customers/EditCustomer/AccountsPayable.tsx:88-101 | a place without components changes nothing; otherwise the five payable place fields are filled; the errors stay |
| CustomerSections.APGuardAgrees | src/components/Customers/EditCustomer/AccountsPayable.tsx:111-118 | the `field in APSchema.shape` guard gives the same error the parse alone would |
| CustomerSections.APNameError | src/components/Customers/EditCustomer/AccountsPayable.tsx:19-23 | the payable name over 200 characters gets the length message; "" or a character outside the general set gets the pattern message, although the field is optional |
| CustomerSections.APPhoneLikeErrors | src/components/Customers/EditCustomer/AccountsPayable.tsx:49-69 | unit number, phone and fax are accepted exactly when they have at most 30 phone characters; the unit number's message speaks of a phone |
| CustomerSections.FindOption | src/components/Customers/EditCustomer/CustomBroker.tsx:103-105 | `brokers.find(b => b.value === name)`: the position of an option with that value, or None exactly when no option has it |
| CustomerSections.CustomBroker.constructor | src/components/Customers/EditCustomer/CustomBroker.tsx:54-61 | the section edits the parent's draft and starts with no errors and no brokers |
| CustomerSections.CustomBroker.LoadBrokers | src/components/Customers/EditCustomer/CustomBroker.tsx:65-99 | each fetched name becomes an option; a non-empty list writes its first name to `broker_name` (not the field the select shows); the errors stay |
| CustomerSections.CustomBroker.MatchBroker | src/components/Customers/EditCustomer/CustomBroker.tsx:101-110 | a truthy chosen broker name that is among the options is copied to `broker`; otherwise the draft stays; errors and options stay |
| CustomerSections.CustomBroker.ValidateAndSetCustomer | src/components/Customers/EditCustomer/CustomBroker.tsx:112-131 | the value is stored as entered and the field's error is the first issue for it or ""; the options stay |
| CustomerSections.BrokerNameError | src/components/Customers/EditCustomer/CustomBroker.tsx:13-20 | a broker name over 200 characters gets the length message; "" (the "Select a broker" choice) or a character outside the general set gets the pattern message |
| CustomerSections.BrokerNotesErrors | src/components/Customers/EditCustomer/CustomBroker.tsx:21-36 | both note fields accept up to 500 general characters, empty included; the special notes report an overlong text as exceeding 100 |
| CustomerSections.CustomerCredit.constructor | src/components/Customers/EditCustomer/CustomerCredit.tsx:51-53 | the section edits the parent's draft, with no errors and no upload in progress |
| CustomerSections.CustomerCredit.ValidateAndSetCustomer | src/components/Customers/EditCustomer/CustomerCredit.tsx:56-70 | a boolean is stored as it is and text sanitised; the field's error is the first issue for it or "" |
| CustomerSections.CustomerCredit.SetUnchecked | src/components/Customers/EditCustomer/CustomerCredit.tsx:150 | the credit-status select (and the application checkbox) write the draft without validating; errors stay |
| CustomerSections.CustomerCredit.HandleFileChange | src/components/Customers/EditCustomer/CustomerCredit.tsx:72-120 | no file, no effect; otherwise one POST of the file to `/upload`, then either the resolved URL and the file name stored under `fileType` and `fileType_name`, or one alert with the draft unchanged; uploading ends false |
| CustomerSections.CreditLimitError | src/components/Customers/EditCustomer/CustomerCredit.tsx:43 | a credit limit is accepted exactly when it is at most 100 digits (the empty string included) |
| CustomerSections.CreditTextErrors | src/components/Customers/EditCustomer/CustomerCredit.tsx:27-48 | currency, mode of payment, terms and notes: the length message first, then the character-set message, otherwise none |
| CustomerSections.CreditDatesAcceptText | src/components/Customers/EditCustomer/CustomerCredit.tsx:19-26 | the approval and expiry dates accept any text (their date patterns are commented out) |
| CustomerSections.CreditApplicationError | src/components/Customers/EditCustomer/CustomerCredit.tsx:56-70 | a checkbox value is accepted; text in the credit-application field is reported as the wrong type |
| CustomerSections.TextForBoolean | src/components/Customers/EditCustomer/CustomerCredit.tsx:37 | the wrong-type message for text where a boolean is expected is "Expected boolean, received string" |
| CustomerSections.CreditApplicationRule | src/components/Customers/EditCustomer/CustomerCredit.tsx:37 | the credit application is an optional boolean and the credit schema has no refinement |
| CustomerSections.CreditStatusError | src/components/Customers/EditCustomer/CustomerCredit.tsx:14-18 | the status is accepted exactly when absent, "Approved" or "Not Approved"; anything else gets "Invalid equipment type" |
| CustomerSections.UploadStoredIff | src/components/Customers/EditCustomer/CustomerCredit.tsx:88-116 | an upload is stored exactly when the reply has a non-empty string `fileUrl` under `files[fileType]`; every other reply raises one of the three alerts |
| CustomerSections.AbsoluteUploadUrlKept | src/components/Customers/EditCustomer/CustomerCredit.tsx:97-98 | a URL that starts with "http" is stored as the server sent it |
| CustomerSections.RelativeUploadUrl | src/components/Customers/EditCustomer/CustomerCredit.tsx:96-99 | any other URL is appended to the API base with its "/api" removed |
| Sections.WithField | src/components/Customers/EditCustomer/PrimaryAddress.tsx:71 | `{ ...draft, [field]: v }`: the field reads v, every other field reads as before, and the keys gain the field |
| Sections.GetComponent | src/components/Customers/EditCustomer/PrimaryAddress.tsx:55 | no components give ""; otherwise the long name of the first component of that type, or "" when none has it |
| Sections.FirstWithType | src/components/Customers/EditCustomer/PrimaryAddress.tsx:55 | the long name of the first component listing the type, or "" when none does |
| Sections.StreetLineOfNothing | src/components/Customers/EditCustomer/PrimaryAddress.tsx:58 | a place with neither a street number nor a route gives an empty street line, not " " |
| Sections.StreetLineJoins | src/components/Customers/EditCustomer/PrimaryAddress.tsx:58 | a number and a route with no outer white space are joined by exactly one space |
| Sections.PlaceFields | src/components/Customers/EditCustomer/PrimaryAddress.tsx:56-63 | an autocomplete fills five fields |
| Sections.PrefixCancels | src/components/Customers/EditCustomer/PrimaryAddress.tsx:58-62 | keys with the same prefix differ when their endings do |
| Sections.PlaceKeysDistinct | src/components/Customers/EditCustomer/PrimaryAddress.tsx:58-62 | the five place keys of a section are distinct, so none overwrites another |
| Sections.SetPlaceFieldsSpec | src/components/Customers/EditCustomer/PrimaryAddress.tsx:56-63 | each of the five keys gets its component and every other field of the draft stays |
| Sections.RefNoOptions | src/components/Customers/EditCustomer/CustomerInfo.tsx:96-103 | no options for a falsy or unknown customer name; for a known one, the reference number of the first customer with that name |
| Sections.FindCustomer | src/components/Customers/EditCustomer/CustomerInfo.tsx:98 | the position of the first customer with that name, or None exactly when no customer has it |
| Sections.RefNoOptionsAtMostOne | src/components/Customers/EditCustomer/CustomerInfo.tsx:99 | at most one option is offered, and it is the reference number of a customer with that name, as value and label |
| Sections.StringFieldError | src/components/Customers/EditCustomer/PrimaryAddress.tsx:72-77 | for a string field, the stored error is "" exactly when every declared check passes |
| Sections.StringFieldFirstIssue | src/components/Customers/EditCustomer/PrimaryAddress.tsx:72-77 | otherwise it is the message of the first check, in declared order, that fails |
| Sections.RangeFieldError | src/components/Orders/OrderDestination.tsx:78-79 | a number field with two bounds stores the message of the bound the value breaks, or "" |
| Sections.NumberFieldWrongType | src/components/Orders/OrderDestination.tsx:78-79 | a number field holding something other than a number is reported with the wrong-type message |
| Sections.EnumFieldError | src/components/Customers/EditCustomer/CustomerInfo.tsx:23-26 | an enum field with an error map stores its one message for every failure |
| Sections.UnionFieldAcceptsNumbers | src/components/Orders/EditOrder/EditOrderShipment.tsx:17-25 | a string-or-number field accepts every number |
| Sections.TwoCheckError | src/components/Customers/EditCustomer/PrimaryAddress.tsx:19-23 | a string field with two checks stores the first failing check's message, or "" |
| Sections.ThreeCheckError | src/components/Customers/EditCustomer/CustomerInfo.tsx:13-17 | the same, for three checks |
| Sections.StarRulesAcceptEmpty | src/components/Customers/EditCustomer/PrimaryAddress.tsx:18-49 | in a schema of bounded `[...]*` strings, "" is never reported |
| Sections.StrIssuesMessages | src/components/Customers/EditCustomer/PrimaryAddress.tsx:75-76 | every reported string issue is the message of a declared check |
| Patterns.Find | src/components/Orders/EditOrder/EditOrderRevenue.tsx:14 | the position of the first occurrence of a character, or None exactly when it does not occur |
| Patterns.FindSplit | src/components/Orders/EditOrder/EditOrderRevenue.tsx:14 | in `a + c + b` with no c in a, the first c is at position `|a|` |
| Patterns.DigitsHaveNo | src/components/Orders/EditOrder/EditOrderRevenue.tsx:14 | a string of digits contains no non-digit character |
| Patterns.HourMinuteMeaning | src/components/Orders/OrderDestination.tsx:61 | a matching time has an hour below 24 and a minute below 60 |
| Patterns.TwoDigits | src/components/Orders/OrderDestination.tsx:61 | a number below 100 written as two digits reads back as itself |
| Patterns.HourMinuteComplete | src/components/Orders/OrderDestination.tsx:61 | every hour below 24 and minute below 60, written HH:MM, matches |
| Patterns.Digits1 | src/components/Orders/OrderCharges.tsx:27 | the `\d+` of the decimal, dimensions and temperature patterns: a non-empty string made only of the ASCII digits 0-9 |
| Patterns.Decimal2Complete | src/components/Orders/OrderCharges.tsx:27 | one or more digits, optionally followed by "." and one or two digits, match |
| Patterns.Decimal2Sound | src/components/Orders/OrderCharges.tsx:27 | and every match has exactly that shape |
| Patterns.GroupDigits | src/components/Orders/EditOrder/EditOrderRevenue.tsx:14 | an amount written with thousands separators is never empty |
| Patterns.GroupDigitsGrouped | src/components/Orders/EditOrder/EditOrderRevenue.tsx:14 | every natural number written with thousands separators is a valid digit-and-comma part, with no "." in it |
| Patterns.SmallNatLength | src/components/Orders/EditOrder/EditOrderRevenue.tsx:14 | a number below 1000 has at most three digits |
| Patterns.GroupedAmountComplete | src/components/Orders/EditOrder/EditOrderRevenue.tsx:14 | every grouped amount, with or without one or two decimals, matches |
| Patterns.UngroupedThousandRejected | src/components/Orders/EditOrder/EditOrderRevenue.tsx:14 | four or more digits without a comma do not match, although the message offers "1000" as an example |
| Patterns.GroupedAmountExamples | src/components/Orders/EditOrder/EditOrderRevenue.tsx:14 | "1000" is rejected and "1,000.50" accepted |
| Patterns.ThousandGrouped | src/components/Orders/EditOrder/EditOrderRevenue.tsx:14 | one thousand is written "1,000" |
| Patterns.TemperatureComplete | src/components/Orders/EditOrder/EditOrderShipment.tsx:22 | digits alone, digits with a unit, negative digits with a unit, and digits, a space and a unit all match |
| Patterns.DigitsDecimal | src/components/Orders/EditOrder/EditOrderShipment.tsx:22 | plain digits are a decimal with no unit, trailing space or sign to strip |
| Patterns.DigitsTemperature | src/components/Orders/EditOrder/EditOrderShipment.tsx:22 | plain digits are a temperature |
| Patterns.UnitTemperature | src/components/Orders/EditOrder/EditOrderShipment.tsx:22 | digits followed by one of `°CFK` are a temperature |
| Patterns.NegativeTemperature | src/components/Orders/EditOrder/EditOrderShipment.tsx:22 | so is the same with a leading minus |
| Patterns.SpacedTemperature | src/components/Orders/EditOrder/EditOrderShipment.tsx:22 | so are digits, one space and a unit |
| Patterns.DegreeAndLetterRejected | src/components/Orders/EditOrder/EditOrderShipment.tsx:22 | "5°C" does not match, although the message offers it as an example |
| Patterns.TemperatureExamples | src/components/Orders/EditOrder/EditOrderShipment.tsx:22 | "5°" and "-10F" match |
| Patterns.DayMonthYearExamples | src/components/Orders/OrderDestination.tsx:57 | "24-12-2024" matches DD-MM-YYYY and "2024-12-24" does not |
| Patterns.DimensionsExamples | src/components/Orders/OrderDestination.tsx:83 | "10x20x30" matches and "10x20" does not |
| UserForm.UserDetails.constructor | src/components/Users/UserDetails.tsx:48-49 | the details section edits the parent's draft user and starts with no errors |
| UserForm.UserDetails.ValidateAndSetField | src/components/Users/UserDetails.tsx:51-63 | the text is stored as entered; the field's error is the first issue the parse reports for it, or "" (which is also what a draft that parses gets) |
| UserForm.UserTextErrors | src/components/Users/UserDetails.tsx:11-20 | name, username and employee code: "" is required, then the length bound, then the character set, otherwise none |
| UserForm.UserEmailError | src/components/Users/UserDetails.tsx:21-24 | "" gets "Email is required", text the e-mail test rejects "Invalid email format", otherwise none |
| UserForm.PasswordError | src/components/Users/UserDetails.tsx:25-28 | the password is accepted exactly with 12 to 200 characters; a mismatch is never reported under `password` |
| UserForm.ConfirmationError | src/components/Users/UserDetails.tsx:29-44 | the confirmation reports its length issues first; within 12..200 characters it reports "Passwords do not match" when it differs from the password, unless some field aborts the parse |
| UserForm.MismatchReported | src/components/Users/UserDetails.tsx:41-44 | with string fields, a valid role and a confirmation of valid length that differs from the password, the mismatch is shown |
| UserForm.InvalidRoleHidesMismatch | src/components/Users/UserDetails.tsx:38-44 | a role outside the list aborts the parse, so the refinement never runs and a mismatch is not reported |
| UserForm.RoleError | src/components/Users/UserDetails.tsx:38-40 | the role is accepted exactly when it is one of the four roles; anything else gets "Invalid role selection" |
| Seqs.Filter | src/hooks/table/useLeadQuoteTable.ts:65-67 | `Array.prototype.filter`: the result is no longer than the input and holds only input items that pass the test |
| Seqs.FilterKeeps | src/hooks/table/useLeadQuoteTable.ts:65-67 | every input item that passes the test is kept |
| Seqs.FilterConcat | src/hooks/table/useLeadQuoteTable.ts:65-67 | filtering a concatenation filters each part |
| Seqs.FilterAll | src/hooks/table/useLeadQuoteTable.ts:65-67 | when every item passes, the list is returned unchanged |
| Seqs.FilterMultiset | src/hooks/table/useLeadQuoteTable.ts:205 | a passing item keeps exactly its number of occurrences and a failing one disappears |
| Seqs.RemoveAt | src/hooks/edit/useEditOrder.ts:132 | `filter((_, i) => i !== index)`: the item at a valid index is removed, the rest kept in order; an out-of-range index changes nothing |
| Seqs.ReplaceAt | src/hooks/edit/useEditOrder.ts:143 | `map((x, i) => i === index ? v : x)`: the length is kept and only the item at the index becomes v |
| Seqs.MapWhere | src/hooks/edit/useEditFollowup.ts:151 | mapping where a test holds: the length is kept, passing items are transformed and the others stay |
| Seqs.RemoveAfterReplace | src/hooks/edit/useEditOrder.ts:132-143 | removing an item after replacing it is the same as removing it |
| Seqs.Insert | src/hooks/table/useLeadQuoteTable.ts:69-77 | one insertion step of the sort adds exactly the new item |
| Seqs.PreorderOnSub | src/hooks/table/useLeadQuoteTable.ts:69-77 | a comparator that is a preorder on a list is one on any sub-collection of it |
| Seqs.OrderedCons | src/hooks/table/useLeadQuoteTable.ts:69-77 | an item no greater than every item of an ordered list can go in front of it |
| Seqs.InsertOrderedFront | src/hooks/table/useLeadQuoteTable.ts:69-77 | an item smaller than the first of an ordered list can go in front of it, for a preorder |
| Seqs.InsertOrdered | src/hooks/table/useLeadQuoteTable.ts:69-77 | inserting into an ordered list keeps it ordered, for a preorder |
| Seqs.InsertNeutral | src/hooks/table/useLeadQuoteTable.ts:69-77 | an item that ties with every item goes last |
| Strings.ToLower | src/hooks/table/useUserTable.ts:51 | `toLowerCase()` for ASCII: the length is kept, capitals become small letters, everything else stays |
| Strings.OccursAtTail | src/hooks/table/useUserTable.ts:51 | an occurrence one position further along is an occurrence in the tail |
| Strings.ContainsAt | src/hooks/table/useUserTable.ts:51 | `includes` holds exactly when the text occurs at some position |
| Strings.TrimStart | src/components/Orders/EditOrder/EditOrderTax.tsx:54 | removing leading white space leaves a suffix that does not start with white space |
| Strings.TrimEnd | src/components/Orders/EditOrder/EditOrderTax.tsx:54 | removing trailing white space leaves a prefix that does not end with white space |
| Strings.Trim | src/components/Orders/EditOrder/EditOrderTax.tsx:54 | `trim()`: the result neither starts nor ends with white space |
| Strings.TrimKeeps | src/components/Orders/EditOrder/EditOrderTax.tsx:54 | `trim()` removes white space only: every other character of the text is still in the result |
| Strings.TrimIdentity | src/components/Orders/EditOrder/EditOrderTax.tsx:54 | a string without outer white space is its own trim |
| Strings.TrimStartSpaces | src/components/Orders/EditOrder/EditOrderTax.tsx:54 | leading white space before a non-space is removed entirely |
| Strings.TrimEndSpaces | src/components/Orders/EditOrder/EditOrderTax.tsx:54 | trailing white space after a non-space is removed entirely |
| Strings.TrimPadded | src/components/Orders/EditOrder/EditOrderTax.tsx:54 | trimming padded text gives back exactly the text |
| Strings.StartsWith | src/components/Customers/EditCustomer/CustomerCredit.tsx:97 | `startsWith`: true exactly when p is no longer than s and s begins with p |
| Strings.IndexOf | src/components/Customers/EditCustomer/CustomerCredit.tsx:96 | the first position where the text occurs, or None exactly when it occurs nowhere |
| Strings.ReplaceFirst | src/components/Customers/EditCustomer/CustomerCredit.tsx:96 | `replace(p, rep)` with a string pattern: the first occurrence is replaced, and a string without one is unchanged |
| Strings.DigitChar | src/hooks/edit/useEditCustomer.ts:121 | a value below ten is written as a decimal digit |
| Strings.NatToString | src/hooks/edit/useEditCustomer.ts:121 | `String(n)` of a natural number is a non-empty digit string without a leading zero |
| Strings.DigitsValueOfNatToString | src/hooks/edit/useEditCustomer.ts:121 | the printed digits read back as the number |
| Strings.NatToStringInjective | src/hooks/edit/useEditCustomer.ts:121 | different numbers print differently |

## Left out

- Network and platform calls are not modelled: HTTP requests, headers, the API base URL, `localStorage` and console logging. The token is a parameter, a reply is a `Reply` input, and every request is a returned `Request` or `SaveRequest` effect.
- Dialogs are not modelled. Swal notices and `alert` are returned effects, and a `confirm` answer is a boolean parameter.
- The fetch-on-mount effects are left out: the customer list, the broker list and the order number. Only the state each response produces is modelled, and the fetched list is a parameter.
- The mailing-address section's `PATCH` to `/api/update-vendor` after the toggle is left out because it is a network call. Only the toggle's change to the draft is modelled.
- The upload `POST` of the credit agreement is left out. Its response is the input of `CustomerSections.CustomerCredit.HandleFileChange`.
- Google Places autocomplete and its registration effects are left out. The picked place's address components are a parameter.
- Also in the accounts-payable section, the unused `sameAsPrimary` state is not modelled.
- The customer-credit section's `MAX_FILE_SIZE` constant is not modelled, because no code reads it.
- `formatDateForInput` is a parameter of the carrier load.
- The `Date` conversion in the user table's date sort is not modelled. Only the fact that its result is not a string is kept, so the comparator answers 0 and the rows keep their order.
- Floating point is not modelled: numbers are integers, and `Number(s)` accepts only an optional sign and digits. The tax section's effect that recomputes `final_price` with `toFixed(2)` (src/components/Orders/EditOrder/EditOrderTax.tsx:69-82) is therefore left out.
- `Promise.all` over the batch deletes and every `await` inside a handler are collapsed into one atomic step, with one reply for the whole batch, as the code treats it.
- React scheduling is not modelled. The one place where it shows is the add-order and add-lead change handlers, which read the state of the last render; this is kept through the `rendered` field and `Render`.
- JSX markup, styling and the presentational files are not modelled. These are the navigation bar, the routes, the table and form wrappers, the view sub-forms that only display fields, the single-setter edit-specs section and the test configuration.
- zod is approximated by the checks the sections declare. Within the edited field, the first failing check in declared order is the error, and a cross-field refinement is reported after the field's own checks. `.int()` has no separate check, because every number is an integer. A type or enum failure aborts the object parse, so an object refinement such as the password match is then not reported.
- Values.ToNumber: reads only an optional sign and digits; JavaScript's `Number` also reads decimals ("12.5"), exponents ("1e3"), the 0x/0o/0b prefixes and "Infinity", which the model reads as NaN.
- OrderForms.DestinationValue: because of that integer reading, a packages or weight entry such as "12.5" or "1e3" is stored as NaN and reported as the wrong type, where the program stores the number (accepted as a weight; given zod's `.int()` message as a package count). `OrderForms.NonNumericQuantityRejected` is therefore stated only for text holding a character no JavaScript number uses.
- Strings.ToLower: lowers the ASCII capitals A-Z only, where `toLowerCase()` lowers every Unicode capital. `TableView.FilterRows` therefore misses a match such as "montréal" against "MONTRÉAL" that the search filters find.
- String lengths in the zod `.min`/`.max` checks count Unicode scalar values, where zod counts UTF-16 code units. Text with characters outside the Basic Multilingual Plane, such as emoji, is counted shorter than zod counts it (six emoji are 6 here and 12 to zod, so `UserForm.PasswordError` reports them as too short).
- Values.ToNumeric: an object or file converts to NaN, as a plain JSON object does; a custom `valueOf` is not modelled, and strings use the integer reading of `Values.ToNumber`.
- Object key order is not modelled, except where FormData encoding walks an explicit key sequence. The string form of an object is left abstract.
- Ids are compared as values. JavaScript's `===` on two distinct objects with equal content would say false.
- The list mutators of the hooks require the collection to hold an array, which is what the declared types promise. The model does not cover a collection that holds a string or is missing. On a string collection, which a stored draft such as `'"ab"'` can decode to, the add handlers spread the string into its characters and append the blank row, while the remove and change handlers throw at `filter` or `map`. On a missing collection every handler throws. Each such member is listed below.
- OrderHooks.EditOrder.HandleAdd: requires an array at the edited collection, so a string or missing collection is not covered.
- OrderHooks.EditOrder.HandleRemove: requires an array at the edited collection, so a string or missing collection is not covered.
- OrderHooks.EditOrder.HandleChange: requires an array at the edited collection, so a string or missing collection is not covered.
- OrderHooks.AddOrder.HandleAdd: requires an array at the edited collection, so a string or missing collection is not covered.
- OrderHooks.AddOrder.HandleRemove: requires an array at the edited collection, so a string or missing collection is not covered.
- OrderHooks.AddOrder.HandleChange: requires an array at the edited collection, so a string or missing collection is not covered.
- CarrierHook.EditCarrier.HandleAdd: requires an array at the edited collection, so a string or missing collection is not covered.
- CarrierHook.EditCarrier.HandleRemove: requires an array at the edited collection, so a string or missing collection is not covered.
- CarrierHook.EditCarrier.HandleChange: requires an array at the edited collection, so a string or missing collection is not covered.
- CustomerHook.EditCustomer.HandleAdd: requires an array at the edited collection, so a string or missing collection is not covered.
- CustomerHook.EditCustomer.HandleRemove: requires an array at the edited collection, so a string or missing collection is not covered.
- CustomerHook.EditCustomer.HandleChange: requires an array at the edited collection, so a string or missing collection is not covered.
- FollowupHook.EditFollowup.HandleAdd: requires an array at the edited collection, so a string or missing collection is not covered.
- FollowupHook.EditFollowup.HandleRemove: requires an array at the edited collection, so a string or missing collection is not covered.
- FollowupHook.EditFollowup.HandleChange: requires an array at the edited collection, so a string or missing collection is not covered.
- LeadHook.AddLead.HandleAddContact: requires an array at the edited collection, so a string or missing collection is not covered.
- LeadHook.AddLead.HandleRemoveContact: requires an array at the edited collection, so a string or missing collection is not covered.
- LeadHook.AddLead.HandleContactChange: requires an array at the edited collection, so a string or missing collection is not covered.
- OrderForms.OrderDestination.UpdateAddressFields: requires an array at the edited collection, so a string or missing collection is not covered.
- An effect or handler that throws part-way is modelled as leaving the state unchanged. Examples are a `JSON.parse` failure in a load effect and a `startsWith` on a non-string upload URL. No partially written state is modelled.
- The children of a download link are kept as values, not rendered text.
- The sort is a stable insertion sort. It agrees with the engine's stable `Array.prototype.sort` when the comparator is a total preorder, which is what the model takes `localeCompare` to be.
- The type-declaration file and the test files are not part of this model. Neither are the hooks that only the tests exercise: the lead, customer, quote and follow-up tables and the lead edit hook.
