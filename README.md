# El Neguev order store and dispatch, modelled in Dafny

El Neguev is a small restaurant ordering app with three screens that share
one browser store:

- a customer screen, which places, tracks, edits and cancels orders;
- an admin screen, which lists every order, assigns couriers and replaces the menu with generated suggestions;
- a courier screen, which picks orders up and delivers them while reporting its position.

This project models the core of that app in Dafny:

- the store's whole-collection read-modify-write operations;
- the list logic of each screen;
- the status gates of the screens' buttons;
- the courier's position-watch state machine.

The model proves what the code promises about each of these.

Modules, one per source file plus shared helpers:

| module | models |
|---|---|
| `Types` | the entities of `types.ts`. `Order`, `Dish` and `LineItem` are values. Prices and quantities are `int`. Ids and timestamps are opaque parameters. |
| `Lifecycle` | the allowed status transitions (`Allowed`, `StepsAllowed`) and the order total as a left fold over the lines. |
| `Listing` | order-preserving filtering and the stable newest-first sort that all three screens use. |
| `Decimal` | the decimal rendering of natural numbers used in generated dish ids. |
| `Storage` | the store as a class `Store`. Its fields are the orders blob, the location map, the menu blob and the roster blob. A `None` blob is a key that has never been written. The writes are methods, specified by pure transforms (`WithStatus`, `WithAssignment`, `WithLocation`, `WithCategories`). |
| `CustomerView` | the customer screen as a class `CustomerSession`, plus the pure parts: the active/history split, keeping the tracked order across a refresh, the order built from a dish, the draft edits and the saved edit. |
| `DeliveryView` | the courier screen as a class `CourierSession`. It covers the courier's own lists, the pick-up/deliver choice and the tracking gate (`TrackingTick`). A ghost event log shows that the watch is started and released strictly in turn. |
| `AdminView` | the admin screen as a class `AdminSession`. It covers the newest-first listing, suggestions turned into a replacement menu, and the assignment column. |
| `Scenarios` | two end-to-end flows: an order taken from placement to delivery, and an edit that adds a second dish. |

The store never checks an order's status; every write is unconditional.
Status rules exist only as gates in the screens:

- the customer's edit and cancel buttons appear only for a PENDING order;
- the admin's courier picker appears only for a PENDING order;
- the courier's card button picks up anything not yet on its way and delivers what is.

The model keeps that split. `Lifecycle.Allowed` is a separate relation. The gated
screen methods (`CustomerView.CustomerSession.PressCancel`,
`AdminView.AdminSession.PickCourier`,
`DeliveryView.CourierSession.PressCardButton`) prove that every status change they
write to the store is an allowed step. This holds whenever the screen's copy of
the order agrees with the store (`Lifecycle.Agrees`). The polling screens can
be behind the store, and in that case nothing stops a disallowed step.
`AdminView.StoreReassignsDelivered` shows the store itself dragging a DELIVERED
order back to PREPARING.

The tracking card promises that an order can no longer be changed once it is
being prepared or is on its way (`components/CustomerView.tsx:326-328`). The
save does not keep that promise: only the button that opens the editor is
gated. The save (`components/CustomerView.tsx:194-206`) neither looks at the
status nor re-reads it. A draft opened while the order was PENDING is
therefore saved after the order has moved on. The model follows the code in
`CustomerView.CustomerSession.SaveEditedOrder`, and
`CustomerView.EditSavedAfterPickup` exhibits the gap. The promised behaviour
is `CustomerView.GuardedEdit` and `CustomerView.CustomerSession.SaveGuardedEdit`:
a save, still at the screen level, that re-reads the stored order and writes
nothing unless it is PENDING (see "## Findings").

## Model

| member | source | states |
|---|---|---|
| Storage.IndexOfOrder | services/storageService.ts:87 | the first index whose id matches, or -1 exactly when no order has that id |
| Storage.WithStatus | services/storageService.ts:94-98 | every order with the id gets the new status whatever its old one; no other field and no other order changes; length kept |
| Storage.WithAssignment | services/storageService.ts:100-108 | matching orders get the courier and PREPARING together; everything else untouched |
| Storage.WithLocation | services/storageService.ts:116-122 | the location is set on exactly the orders assigned to that courier and IN_TRANSIT; all others identical; count kept |
| Storage.WritesKeepTotals | services/storageService.ts:94-122 | status, assignment and location writes keep every order's items, so a total that matched its lines still does |
| Storage.WithCategories | services/storageService.ts:133-134 | every dish gets a non-empty category, 'Platos' where it was missing or empty; all other dish fields unchanged |
| Storage.WithCategoriesKeepsFilled | services/storageService.ts:130-139 | a menu whose categories are all present reads back unchanged after it is saved |
| Storage.Lookup | services/storageService.ts:125-128 | a courier never reported yields none; otherwise the recorded position |
| Storage.LookupAfterReport | services/storageService.ts:110-128 | after a report the courier's entry is the new position and every other courier's entry is as before |
| Storage.Store.constructor | services/storageService.ts:3-9 | the store starts with whatever the four keys hold |
| Storage.Store.GetOrders | services/storageService.ts:74-77 | an absent key yields no orders, otherwise the stored sequence |
| Storage.Store.SaveOrder | services/storageService.ts:79-83 | the new sequence is the old one plus the order; prior entries unchanged |
| Storage.Store.UpdateOrder | services/storageService.ts:85-92 | only the first entry with the id is replaced; with no match nothing is written; length kept |
| Storage.Store.UpdateOrderStatus | services/storageService.ts:94-98 | the stored orders become WithStatus of the old ones |
| Storage.Store.AssignDelivery | services/storageService.ts:100-108 | the stored orders become WithAssignment of the old ones |
| Storage.Store.UpdateDeliveryLocation | services/storageService.ts:110-123 | the courier's map entry is upserted and the position is fanned out by WithLocation |
| Storage.Store.GetDeliveryLocation | services/storageService.ts:125-128 | the lookup of the courier in the location map |
| Storage.Store.GetMenu | services/storageService.ts:130-135 | an absent key yields the six-dish default menu; otherwise the stored menu with categories filled; every category non-empty |
| Storage.Store.SaveMenu | services/storageService.ts:137-139 | the stored menu is replaced wholesale |
| Storage.Store.GetDeliveryPeople | services/storageService.ts:141-144 | an absent key yields the two default couriers, otherwise the stored roster |
| Lifecycle.AllowedMovesForward | types.ts:2-8 | every allowed step moves to a later stage, and nothing leaves DELIVERED or CANCELLED |
| Lifecycle.TotalAppend | components/CustomerView.tsx:199 | the total of two concatenated lists is the sum of their totals |
| Lifecycle.TotalUpdate | components/CustomerView.tsx:199 | replacing one line changes the total by the difference of the two lines' amounts |
| Lifecycle.TotalRemove | components/CustomerView.tsx:199 | removing one line subtracts that line's amount |
| Listing.Filter | components/CustomerView.tsx:45 | keeps exactly the elements the predicate accepts |
| Listing.FilterAppend | components/CustomerView.tsx:45 | filtering distributes over concatenation, so the kept elements stay in input order |
| Listing.FilterFirst | components/CustomerView.tsx:45 | the first kept element is the first input element the predicate accepts |
| Listing.FilterSplit | components/CustomerView.tsx:45-60 | two complementary filters together keep every element exactly once |
| Listing.InsertNewest | components/CustomerView.tsx:60 | inserting into a newest-first list keeps it newest-first and adds exactly that order |
| Listing.SortNewestFirst | components/CustomerView.tsx:60 | the result is a permutation of the input, non-increasing by creation time |
| Listing.InsertKeepsTies | components/CustomerView.tsx:60 | insertion keeps the relative order of orders created at the same time |
| Listing.SortIsStable | components/CustomerView.tsx:60 | the sort is stable: orders with equal creation times keep their input order |
| Decimal.NatToString | components/AdminView.tsx:32 | a non-empty string of decimal digits, one digit exactly below ten, with no leading zero |
| Decimal.NatToStringValue | components/AdminView.tsx:32 | reading the rendered digits back, most significant first, gives the number |
| Decimal.NatToStringInjective | components/AdminView.tsx:32 | different numbers render differently |
| CustomerView.ActiveOrders | components/CustomerView.tsx:45 | exactly the stored orders that are neither DELIVERED nor CANCELLED |
| CustomerView.ActiveOrdersHead | components/CustomerView.tsx:45-55 | the head of the active list, the fallback selection, is the first stored order that is still active |
| CustomerView.History | components/CustomerView.tsx:60 | a permutation of the DELIVERED or CANCELLED orders, newest first |
| CustomerView.ActiveHistoryPartition | components/CustomerView.tsx:45-60 | active and history split the stored orders: each order is in exactly one |
| CustomerView.Reconcile | components/CustomerView.tsx:48-58 | no active orders gives none; a tracked id still active gives its fresh copy; otherwise the first active order; the result is always none or a member of active |
| CustomerView.ReconcileIdempotent | components/CustomerView.tsx:43-58 | a second refresh on the same data keeps the tracked order |
| CustomerView.NewOrder | components/CustomerView.tsx:125-141 | a PENDING order with one line (the dish's id, name and price, quantity 1), total equal to the price, unassigned, with the form's fields |
| CustomerView.IndexOfDish | components/CustomerView.tsx:169 | the first line for the dish, or -1 exactly when there is none |
| CustomerView.AdjustQuantity | components/CustomerView.tsx:167-180 | an absent dish leaves the draft unchanged; a quantity that drops to zero or below removes that line; otherwise only that line's quantity changes; positive quantities and distinct dishes are kept |
| CustomerView.AdjustRemovesDish | components/CustomerView.tsx:173-174 | with distinct dishes, a removed line takes its dish out of the draft |
| CustomerView.AdjustQuantityTotal | components/CustomerView.tsx:167-180 | a kept line moves the draft total by delta times its price; a removed line takes its whole amount off |
| CustomerView.AddDish | components/CustomerView.tsx:182-192 | an existing dish gets quantity + 1; otherwise a new line {id, name, price, 1} is appended; the draft then has a line for the dish; length grows by at most one; distinct dishes and positive quantities are kept |
| CustomerView.AddDishTotal | components/CustomerView.tsx:182-192 | adding a dish adds one unit of that line's price to the draft total |
| CustomerView.EditedOrder | components/CustomerView.tsx:194-200 | an empty draft is refused; otherwise items = draft, total = the sum of price times quantity, every other field as shown |
| CustomerView.EditIgnoresStatus | components/CustomerView.tsx:194-201 | the edit is saved whatever the order's status is, and it keeps that status |
| CustomerView.EditSavedAfterPickup | components/CustomerView.tsx:194-201 | an order already IN_TRANSIT, shown in an open editor, is rewritten with the new draft, where the guarded save refuses it |
| CustomerView.GuardedEdit | components/CustomerView.tsx:326-328 | refused for an empty draft or unless the first stored order with the id is PENDING; otherwise that order gets the draft and its total, and no status changes |
| CustomerView.GuardedEditAllowed | components/CustomerView.tsx:326-328 | a save the guard lets through takes only allowed steps |
| CustomerView.CancelStepAllowed | components/CustomerView.tsx:152-159 | cancelling an order that is PENDING wherever it is stored is an allowed step |
| CustomerView.CustomerSession.constructor | components/CustomerView.tsx:9-27 | the screen starts with nothing tracked, no form open and an empty draft |
| CustomerView.CustomerSession.Mount | components/CustomerView.tsx:38-41 | the menu is read and the orders refreshed |
| CustomerView.CustomerSession.RefreshOrders | components/CustomerView.tsx:43-61 | active, history and the tracked order are recomputed from the store, which is not written |
| CustomerView.CustomerSession.SelectDish | components/CustomerView.tsx:497 | the order form opens for that dish |
| CustomerView.CustomerSession.HandleOrder | components/CustomerView.tsx:121-150 | with no dish chosen nothing changes; otherwise the new order is appended, becomes the tracked order and the form closes |
| CustomerView.CustomerSession.HandleCancelOrder | components/CustomerView.tsx:152-159 | without confirmation nothing is written and the lists and tracked order stay; with it every order with the id is CANCELLED and the lists are refreshed |
| CustomerView.CustomerSession.PressCancel | components/CustomerView.tsx:267-281 | nothing changes unless the tracked order shows PENDING and the customer confirms; then every order with the tracked id is CANCELLED and the lists refresh; with an up-to-date copy every status change is an allowed step |
| CustomerView.CustomerSession.StartEditingOrder | components/CustomerView.tsx:161-165 | with a tracked order the draft becomes a copy of its items and the editor opens; without one nothing changes |
| CustomerView.CustomerSession.PressEdit | components/CustomerView.tsx:267-275 | the editor opens only for a tracked order shown as PENDING |
| CustomerView.CustomerSession.UpdateTempItemQuantity | components/CustomerView.tsx:167-180 | the draft becomes AdjustQuantity of the old draft |
| CustomerView.CustomerSession.AddDishToTempOrder | components/CustomerView.tsx:182-192 | the draft becomes AddDish of the old draft |
| CustomerView.CustomerSession.SaveEditedOrder | components/CustomerView.tsx:194-206 | refused, changing nothing, without a tracked order or with an empty draft; otherwise the first stored order with the id becomes the edited order, the editor closes and the lists refresh; with an up-to-date copy every status change is an allowed step |
| CustomerView.CustomerSession.SaveGuardedEdit | components/CustomerView.tsx:326-328 | the save re-reads the store and writes nothing, changing nothing on screen, unless GuardedEdit accepts; otherwise the stored orders become GuardedEdit's and the lists refresh; every status change is an allowed step |
| DeliveryView.ActiveFor | components/DeliveryView.tsx:26-30 | exactly the orders assigned to the courier and neither DELIVERED nor CANCELLED |
| DeliveryView.CompletedFor | components/DeliveryView.tsx:34-37 | a permutation of the courier's DELIVERED orders, newest first |
| DeliveryView.ReadyToPickUp | components/DeliveryView.tsx:75 | exactly the active orders that are PENDING or PREPARING |
| DeliveryView.InTransitOrders | components/DeliveryView.tsx:76 | exactly the active orders that are IN_TRANSIT |
| DeliveryView.PickupListsPartition | components/DeliveryView.tsx:75-76 | the two lists split the courier's active orders: each is in exactly one |
| DeliveryView.AnyInTransitIffListed | components/DeliveryView.tsx:40 | some active order is IN_TRANSIT exactly when the on-the-way list is not empty |
| DeliveryView.CardAction | components/DeliveryView.tsx:127-143 | DELIVERED exactly for an IN_TRANSIT order, IN_TRANSIT for every other status; never the current status |
| DeliveryView.CardActionAllowed | components/DeliveryView.tsx:127-143 | on every card shown, the button takes an allowed step |
| DeliveryView.PickupPutsInTransit | components/DeliveryView.tsx:40-42 | picking up one of the courier's stored orders leaves an order of the courier's IN_TRANSIT, so the next tick wants a watch |
| DeliveryView.TrackingTick | components/DeliveryView.tsx:40-46 | with the capability, a watch is held after the tick exactly when some active order is IN_TRANSIT; a start only when none is held, a stop only of the held one, at most one event |
| DeliveryView.TickIdempotent | components/DeliveryView.tsx:41-46 | a second tick on unchanged data starts and stops nothing |
| DeliveryView.TickKeepsConsistent | components/DeliveryView.tsx:41-46 | a tick keeps the start/stop log strictly alternating and in step with the held handle |
| DeliveryView.RunKeepsConsistent | components/DeliveryView.tsx:22-47 | over any run of refresh ticks, starts and stops strictly alternate |
| DeliveryView.CourierSession.constructor | components/DeliveryView.tsx:7-11 | the screen belongs to courier d1 and starts with no watch held |
| DeliveryView.CourierSession.StartTracking | components/DeliveryView.tsx:49-60 | without the capability nothing happens; otherwise the new handle is held and its start logged |
| DeliveryView.CourierSession.ClearWatch | components/DeliveryView.tsx:43-45 | the held handle is released and its stop logged |
| DeliveryView.CourierSession.Refresh | components/DeliveryView.tsx:22-47 | both lists are recomputed from the store, which is not written; the watch follows TrackingTick; the log stays consistent |
| DeliveryView.CourierSession.OnPosition | components/DeliveryView.tsx:52-56 | each position delivered to the held watch is reported through UpdateDeliveryLocation |
| DeliveryView.CourierSession.UpdateStatus | components/DeliveryView.tsx:62-73 | the status is written; a pick-up without positioning stops there, leaving lists and watch as they were; otherwise both lists and the watch are refreshed from the written orders, and a pick-up's position read, if any, is reported |
| DeliveryView.CourierSession.PressCardButton | components/DeliveryView.tsx:127-143 | the card's CardAction goes through UpdateStatus with its whole effect on store, lists and watch; a pick-up of a stored order leaves a watch held when positioning exists; with an up-to-date card every status change is an allowed step |
| DeliveryView.CourierSession.Unmount | components/DeliveryView.tsx:16-19 | closing the screen releases any held watch |
| AdminView.SplitAtDash | components/AdminView.tsx:32 | two digit strings joined by a dash split back into the same two |
| AdminView.AiDishIdInjective | components/AdminView.tsx:32 | an id determines both the clock reading and the index it was built from |
| AdminView.AiDishesFrom | components/AdminView.tsx:31-39 | one generated dish per suggestion, in order, numbered from the start index, each with its own clock reading |
| AdminView.SuggestedMenu | components/AdminView.tsx:31-39 | one dish per suggestion, in order, with name, description and price copied, available, under 'Platos', with id ai-(clock reading for that dish)-index |
| AdminView.SuggestedIdsDistinct | components/AdminView.tsx:31-32 | the generated ids are pairwise distinct, whatever the clock reads for each dish |
| AdminView.SuggestedMenuReadsBack | components/AdminView.tsx:40-41 | a generated menu reads back from the store exactly as saved |
| AdminView.IndexOfPerson | components/AdminView.tsx:241 | the first courier with the id, or -1 exactly when there is none |
| AdminView.RosterIds | components/AdminView.tsx:235-237 | the picker's choices are the roster's ids, in order |
| AdminView.AssignmentCell | components/AdminView.tsx:228-243 | a picker exactly for PENDING orders; otherwise the assigned courier's roster name, or 'Asignado' when none is found or the name is empty |
| AdminView.AssignStepAllowed | components/AdminView.tsx:47-48 | assigning an order that is PENDING wherever it is stored is an allowed step |
| AdminView.StoreReassignsDelivered | services/storageService.ts:100-108 | the store's assignment moves a DELIVERED order back to PREPARING, which is not an allowed step |
| AdminView.AdminSession.constructor | components/AdminView.tsx:8-10 | the screen starts with empty lists |
| AdminView.AdminSession.RefreshData | components/AdminView.tsx:21-25 | the menu, the newest-first orders and the roster are read from the store, which is not written |
| AdminView.AdminSession.HandleAiSuggest | components/AdminView.tsx:27-45 | no result leaves the screen's menu and the stored menu unchanged; a result, even an empty one, replaces both with SuggestedMenu |
| AdminView.AdminSession.HandleAssign | components/AdminView.tsx:47-50 | the store's assignment is applied, then the data refreshed |
| AdminView.AdminSession.PickCourier | components/AdminView.tsx:228-231 | nothing changes unless the row shows PENDING; then the store's assignment is applied and menu, sorted orders and roster are re-read; with an up-to-date row every status change is an allowed step |
| Scenarios.PlaceAssignPickUpDeliver | services/storageService.ts:94-122 | an order placed at 350 and then assigned to d1, picked up, located and delivered goes through allowed steps only, each write having its documented effect, and ends as the one stored order, DELIVERED, assigned to d1, at the reported position |
| Scenarios.DeliveredListsAlone | components/DeliveryView.tsx:26-37 | a lone delivered order of the courier's is on neither the customer's nor the courier's active list and is the whole of the customer's history and of the courier's completed list |
| Scenarios.DeliveredRefusesChanges | components/CustomerView.tsx:267-328 | a delivered order refuses every guarded edit, and after a refresh nothing is tracked, so no edit or cancel button is shown |
| Scenarios.EditToTwoDishes | components/CustomerView.tsx:182-201 | adding a 120 dish to a 350 draft saves a total of 470; emptying the draft is refused |

## Findings

| source | as written | input that shows it | evidently intended | confidence | as-written member | corrected member |
|---|---|---|---|---|---|---|
| components/CustomerView.tsx:194-206 | the save writes the draft without looking at the order's status | an order picked up (IN_TRANSIT) while the customer's editor, opened when it was PENDING, is still open; pressing save rewrites its items and total | no save once the order has left PENDING, as the card text at components/CustomerView.tsx:326-328 says; the stored orders stay unchanged | high, not executed | CustomerView.EditSavedAfterPickup | CustomerView.GuardedEdit |

## Left out

- The suggestion service (`services/geminiService.ts`) is a network call to an outside model. Only its outcome is modelled, as an `Option<seq<Suggestion>>` parameter. `None` stands for a failed call or an empty answer.
- Browser storage and JSON are replaced by the `Store` fields. A blob that fails to parse is not modelled. An empty location dictionary and an absent one are the same.
- Polling timers and concurrency are left out. Each refresh is one method call. The race between screens writing the whole orders sequence (last write wins) is not modelled.
- Geolocation and the map are left out. Positions are opaque `LatLng` values passed in. Whether positioning exists is a parameter. A watch handle is a parameter, held as an `Option`, so a handle numbered 0 cannot be mistaken for no handle.
- Random order ids, the clock and number formatting are parameters of the operations that use them. The suggestion mapping reads the clock once per dish, given as a function from the dish's index to its reading.
- A pick-up on a device without positioning throws in the courier's handler after the status write. The model stops the handler there and returns `finished` false; the thrown error itself is not modelled.
- Rendering, alerts, the print ticket, the contact links, category tabs, `Layout.tsx` and `App.tsx` are presentation only. The cancel confirmation dialog is a `confirmed` parameter.
- Prices are integers, so floating-point totals are not modelled. An optional `notes` is the empty string. An unassigned `deliveryAssignedTo` is `None`. The roster's optional `currentLocation` field is not modelled.
- A polling timer keeps the screen state of the render in which it was created. The model reads the current state, so a refresh that runs on such an outdated copy is not modelled.
- The customer's map-following effect and the GPS address helper (`components/CustomerView.tsx:70-119`) are not part of this model.
- Listing.Filter: is stated for orders only, the one element type the modelled logic filters; the dish filters at components/CustomerView.tsx:230 and :560 are presentation.
- CustomerView.CustomerSession.SaveEditedOrder: does not refuse an order that has left PENDING, because the code saves regardless of status.
