# KashCart Mart dashboard: a verified model of the stock and order bookkeeping

KashCart Mart is a shop-owner dashboard for a small grocery mart. It keeps
three things:

- a product catalog, with price, cost price, stock quantity and an "available" switch;
- a list of customer orders, which move along New → Accepted → Packed → Picked → Delivered, or end as Cancelled or Rejected;
- a short buffer of notifications.

This project models, in Dafny, the logic that keeps stock and orders consistent:

- **Stock ledger helpers** (`InventoryManager`). These cover:
  - stock-status classification against a low-stock threshold;
  - order validation that collects messages item by item;
  - reserving and releasing stock;
  - reducing stock (clamped at zero) and restoring it;
  - the stock alert text.
- **The app store** (`AppContext`, class `AppStore`). It has three state fields: `products`, `orders` and `notifications`.
  - Its methods replace these fields: adding, updating, restocking, deleting and switching products on or off, creating orders, changing an order's status, and the notification buffer.
  - Each method's new state is given by a pure function, and the lemmas are about those functions. An example is the three-way stock effect of a status change: restore on cancel, re-deduct on reactivation, nothing otherwise.
- **The order board** (`OrdersPage`). This covers the fulfilment flow and its one-step advance, the four tabs and their counters, the search, and the accept and reject buttons.
- **The inventory page** (`InventoryPage`). This covers:
  - the stock badge precedence;
  - the summary counters;
  - the search and category filter;
  - the numeric sorts;
  - the "simulate order" shortcut;
  - the +/- stock buttons.
- **The store-hours form** (`StoreSettings`). This covers the weekday picker, field edits with the unsaved-changes flag, saving, and the 20-row status history.
- **The sales report** (`Sales`). `calculateMetrics` produces revenue with its COD/Online split, cost and profit, the outcome counts, and the top three best sellers. The cost total and the per-product tally are loops in the source, so here they are methods proved against specification functions.

Shared pieces live in their own modules:

- `Types` holds the catalog, order and notification records and the "first match" lookups.
- `Lists` holds a stable insertion sort, standing in for `Array.prototype.sort`, plus slicing and subsequences.
- `Text` holds lower-casing and substring search.

Quantities, prices and totals are unbounded integers. Ids are strings. Timestamps and generated ids are parameters of the operations that stamp or create records.

## Model

| member | source | states |
|---|---|---|
| Types.Max0 | src/utils/inventoryManager.ts:145 | `Math.max(0, x)`: the result is never negative, is at least `x`, and equals `x` whenever `x` is not negative |
| Types.FindProduct | src/pages/Sales.tsx:40 | `products.find` by id: `None` exactly when no product has the id, otherwise the first product with that id |
| Types.FindItem | src/context/AppContext.tsx:227 | `items.find` by product id: `None` exactly when no item names the product, otherwise the first item that does |
| Types.FindOrder | src/context/AppContext.tsx:236 | `orders.find` by id: `None` exactly when no order has the id, otherwise the first order that does |
| InventoryManager.CalculateStockStatus | src/utils/inventoryManager.ts:6-10 | out of stock exactly at quantity 0; low stock exactly for a non-zero quantity at or below the threshold; in stock exactly above it |
| InventoryManager.StockStatusMonotone | src/utils/inventoryManager.ts:6-10 | for non-negative quantities, more stock never gives a worse status |
| InventoryManager.CreateInventoryLog | src/utils/inventoryManager.ts:15-38 | the log records the product's id and name and the given action, order and quantities; the record balances exactly when the arguments do, so it does not repair an inconsistent delta |
| InventoryManager.UpdateProductQuantity | src/utils/inventoryManager.ts:43-57 | sets the quantity and recomputes the status from the threshold; the product becomes available exactly when the new quantity is non-zero, overriding a manual switch-off; the result is consistent; no other field but the timestamp changes |
| InventoryManager.UpdateOverridesManualSwitchOff | src/utils/inventoryManager.ts:47-54 | a manually disabled product that gets a positive quantity becomes available again, and keeps its old reason |
| InventoryManager.FindLedgerProduct | src/utils/inventoryManager.ts:69 | `products.find` by id over ledger products: `None` exactly when the id is unknown, otherwise the first product with that id |
| InventoryManager.FindRequest | src/utils/inventoryManager.ts:103 | `orderItems.find` by product id: `None` exactly when no item names the product, otherwise the first item that does |
| InventoryManager.ItemErrors | src/utils/inventoryManager.ts:69-86 | an item yields at most two messages, and none exactly when it passes: known product, enough unreserved stock, status not out of stock |
| InventoryManager.ItemErrorsCases | src/utils/inventoryManager.ts:69-86 | an unknown id yields exactly one "not found" message and no other check; a known product yields the shortage message exactly when unreserved stock is below the request, and the out-of-stock message exactly when its status says so; it yields both exactly when both hold |
| InventoryManager.NoErrorsIffAllPass | src/utils/inventoryManager.ts:66-92 | the message list is empty exactly when every item passes |
| InventoryManager.ErrorCountBounds | src/utils/inventoryManager.ts:66-92 | there are at most two messages per item, and at least one for every item that fails |
| InventoryManager.ValidateStock | src/utils/inventoryManager.ts:62-93 | the loop collects exactly the item-by-item messages in order; `valid` holds exactly when there are none, that is, exactly when every item passes; the products are an input only and are not changed |
| InventoryManager.CheckItem | src/utils/inventoryManager.ts:69-86 | one turn of the validation loop appends exactly that item's messages |
| InventoryManager.ReserveStock | src/utils/inventoryManager.ts:98-113 | length, ids, quantities and statuses are kept; an unmatched product is untouched; a matched one gets the first matching item's quantity added to its reservation and a fresh `lastUpdated`, every other field kept |
| InventoryManager.ReleaseReservedStock | src/utils/inventoryManager.ts:118-133 | as reserve, but the reservation drops by the item's quantity, floored at zero, so it never goes negative; every other field but `lastUpdated` is kept |
| InventoryManager.ReleaseUndoesReserve | src/utils/inventoryManager.ts:98-133 | releasing what was just reserved restores every non-negative reservation and every quantity |
| InventoryManager.ReduceStock | src/utils/inventoryManager.ts:138-150 | length, order and ids are kept; an unmatched product is untouched; a matched one gets `max(0, q - n)` for the first matching item and is exactly `updateProductQuantity` of its old record (status recomputed from its threshold, availability on exactly at a non-zero quantity, every other field kept); the result is never negative |
| InventoryManager.RestoreStock | src/utils/inventoryManager.ts:155-167 | length, order and ids are kept; an unmatched product is untouched; a matched one gets exactly `q + n` and is exactly `updateProductQuantity` of its old record (status recomputed, availability on exactly at a non-zero quantity, every other field kept) |
| InventoryManager.MovementsPreserveConsistency | src/utils/inventoryManager.ts:138-167 | both movements keep every consistent product consistent, with the status matching quantity and threshold and an out-of-stock product unavailable |
| InventoryManager.RestoreUndoesReduce | src/utils/inventoryManager.ts:138-167 | when no matched product has less than its item asks for, restoring after reducing gives back every quantity, and a consistent product also gets its status back |
| InventoryManager.ClampedReduceIsNotUndone | src/utils/inventoryManager.ts:138-167 | when an item asks for more than is left, reduce clamps at zero and restore then adds the full amount, so the round trip ends with the full requested amount and not with the original quantity |
| InventoryManager.GetStockStatusMessage | src/utils/inventoryManager.ts:172-180 | no message exactly for in-stock products; the out-of-stock alert exactly for out of stock; the low-stock alert, with the remaining quantity, exactly for low stock |
| AppContext.NewCatalogEntry | src/context/AppContext.tsx:188 | the appended product keeps every field but three: an empty id is replaced by the generated one, the product is switched on, and it is stamped |
| AppContext.ReplaceProduct | src/context/AppContext.tsx:191-195 | every product with the id is replaced by the stamped new record; every other product is kept |
| AppContext.SetStock | src/context/AppContext.tsx:197-201 | only the matching products change, and only in quantity (taken as given, without clamping) and timestamp; no status changes |
| AppContext.RemoveProduct | src/context/AppContext.tsx:203-205 | exactly the products without the id remain, in their order, and the list shrinks by the number of products with the id |
| AppContext.ToggleAvailability | src/context/AppContext.tsx:207-216 | a matching product flips its switch; switching off records the reason and switching on clears it; no other field changes except the timestamp; other products are untouched |
| AppContext.ToggleTwice | src/context/AppContext.tsx:207-216 | two toggles restore every switch; a product that was on ends without a reason, and one that was off ends with the second reason |
| AppContext.DeductItems | src/context/AppContext.tsx:226-229 | a product with a matching item gets `max(0, q - n)` for the first matching item, and nothing else changes but its timestamp; other products are untouched; non-negative stock stays non-negative |
| AppContext.RestockItems | src/context/AppContext.tsx:243-246 | a product with a matching item gets exactly `q + n`; other products are untouched |
| AppContext.NewOrder | src/context/AppContext.tsx:219-224 | the new order has the given id and date, status New, and the draft's items, total, payment type, customer name, phone and address, reason and urgency flag |
| AppContext.ClassifyTransition | src/context/AppContext.tsx:239-241 | restock exactly when entering Cancelled/Rejected from another status; deduct exactly when leaving them; no stock effect exactly when both statuses are on the same side |
| AppContext.KeepReason | src/context/AppContext.tsx:254 | `reason \|\| old`: a non-empty reason replaces the old one, while an absent or empty one keeps it |
| AppContext.SetOrderStatus | src/context/AppContext.tsx:254 | every order with the id gets the new status and the kept-or-replaced reason, and nothing else; other orders are untouched |
| AppContext.FindAfterSetStatus | src/context/AppContext.tsx:235-255 | after the update, the order lookup finds the old order with only its status and reason changed |
| AppContext.StatusUpdateFrame | src/context/AppContext.tsx:235-255 | an unknown id changes nothing; otherwise ids and items of every order are kept, orders with other ids are untouched, and the target takes the new status |
| AppContext.RepeatedCancelKeepsStock | src/context/AppContext.tsx:239-252 | cancelling or rejecting an order that is already cancelled or rejected never touches stock, so a repeated cancel never restores twice |
| AppContext.CancelThenReactivate | src/context/AppContext.tsx:239-251 | cancelling an active order and then reactivating it gives every product of non-negative stock its quantity back |
| AppContext.CancelAfterOversoldOrderAddsStock | src/context/AppContext.tsx:226-251 | an order created for more than is in stock clamps the product at zero, and cancelling it adds the full quantity back, leaving more stock than before the order |
| AppContext.FindRequestMatchesFindItem | src/context/AppContext.tsx:227 | the store's item lookup and the ledger's request lookup find the same first item |
| AppContext.InlineStockAgreesWithLedger | src/context/AppContext.tsx:226-251 | on quantities, the store's inline deduction equals `reduceStock` and its cancel branch equals `restoreStock` |
| AppContext.PushNotification | src/context/AppContext.tsx:121 | the new entry comes first, followed by the newest of the old ones, up to ten entries in all |
| AppContext.MarkAllRead | src/context/AppContext.tsx:125 | same length and order; each entry is the old one marked read |
| AppContext.PendingOrders | src/context/AppContext.tsx:263 | the pending count never exceeds the number of orders |
| AppContext.UnreadCount | src/context/AppContext.tsx:264 | the unread count never exceeds the number of notifications |
| AppContext.MarkAllReadClearsUnread | src/context/AppContext.tsx:124-126 | after marking all as read, the unread counter is zero |
| AppContext.SetStockShiftsCount | src/context/AppContext.tsx:197-201 | setting the quantity of the one product with an id shifts the stock count by exactly the difference |
| AppContext.UnchangedWithoutId | src/context/AppContext.tsx:197-201 | updating the stock of an unknown id leaves the catalog unchanged |
| AppContext.AppStore.constructor | src/context/AppContext.tsx:89-99 | starts from the given catalog and orders with no notifications |
| AppContext.AppStore.AddProduct | src/context/AppContext.tsx:187-189 | appends exactly the new catalog entry; orders and notifications are unchanged |
| AppContext.AppStore.UpdateProduct | src/context/AppContext.tsx:191-195 | the catalog becomes `ReplaceProduct` of the old one; nothing else changes |
| AppContext.AppStore.UpdateStock | src/context/AppContext.tsx:197-201 | the catalog becomes `SetStock` of the old one; nothing else changes |
| AppContext.AppStore.DeleteProduct | src/context/AppContext.tsx:203-205 | no product with the id remains; the catalog becomes `RemoveProduct` of the old one; nothing else changes |
| AppContext.AppStore.ToggleProductAvailability | src/context/AppContext.tsx:207-216 | the catalog becomes `ToggleAvailability` of the old one; nothing else changes |
| AppContext.AppStore.AddNotification | src/context/AppContext.tsx:111-122 | pushes an unread "Just now" entry onto the buffer, which never exceeds ten entries |
| AppContext.AppStore.MarkAllNotificationsAsRead | src/context/AppContext.tsx:124-126 | every notification is marked read, with no unread left; nothing else changes |
| AppContext.AppStore.CreateOrder | src/context/AppContext.tsx:218-233 | prepends exactly one New order, deducts its items clamped at zero with no stock check first, and pushes the "Order Created" notification |
| AppContext.AppStore.UpdateOrderStatus | src/context/AppContext.tsx:235-255 | the new products and orders are `StatusUpdate` of the old ones (restore on cancel, re-deduct on reactivation, otherwise no stock effect); an unknown id changes nothing; notifications are untouched |
| AppContext.AppStore.Stats | src/context/AppContext.tsx:257-265 | the pending counter is bounded by the orders, and the unread counter by the buffer's ten entries |
| OrdersPage.IndexOf | src/pages/Orders.tsx:60 | `indexOf`: -1 exactly when the status is absent, otherwise the position of its first occurrence |
| OrdersPage.IndexOfFirst | src/pages/Orders.tsx:60 | a position holding the status with no earlier occurrence is what `indexOf` reports |
| OrdersPage.FlowPositions | src/pages/Orders.tsx:14 | New, Accepted, Packed, Picked and Delivered stand at positions 0 to 4 of the flow |
| OrdersPage.OutsideFlow | src/pages/Orders.tsx:14 | Cancelled and Rejected are not in the flow, so their index is -1 |
| OrdersPage.FlowIndexIsIndexOf | src/pages/Orders.tsx:60 | the flow position used by the page is `STATUS_FLOW.indexOf(status)` for every status |
| OrdersPage.HandleNextStatus | src/pages/Orders.tsx:59-64 | the request, when there is one, moves this order exactly one position along the flow, with no reason; there is none exactly for Delivered (last step) and for Cancelled/Rejected (outside the flow) |
| OrdersPage.NextStatusTable | src/pages/Orders.tsx:59-64 | the concrete successors: New→Accepted, Accepted→Packed, Packed→Picked, Picked→Delivered |
| OrdersPage.AdvanceKeepsStock | src/pages/Orders.tsx:59-64 | applying the advance request to the store never moves stock, when the card's order is the first order with its id (the one `updateOrderStatus` finds) |
| OrdersPage.AdvanceBehindSharedId | src/context/AppContext.tsx:235-255 | with two orders sharing an id, a Cancelled one first, advancing the second card from Accepted takes the first order's items out of stock and moves both orders to Packed |
| OrdersPage.TabOf | src/pages/Orders.tsx:24-40 | every status lies in exactly one tab |
| OrdersPage.CountInTab | src/pages/Orders.tsx:22-29 | a tab counter never exceeds the number of orders |
| OrdersPage.TabCountsPartition | src/pages/Orders.tsx:22-29 | the four tab counters add up to the number of orders |
| OrdersPage.FilteredOrders | src/pages/Orders.tsx:31-44 | the list is an order-preserving subsequence holding exactly the orders that match both the search (id or customer name) and the active tab, each as many times as in the input |
| OrdersPage.EmptySearchShowsWholeTab | src/pages/Orders.tsx:22-44 | with an empty search, the list is as long as the tab's counter |
| OrdersPage.AcceptRequest | src/pages/Orders.tsx:218-224 | the accept button exists exactly on New orders and asks for Accepted with no reason |
| OrdersPage.RejectRequest | src/pages/Orders.tsx:218-299 | the reject action exists exactly on New orders, and always asks for Rejected on that order with a reason from the fixed list of four |
| OrdersPage.AdvanceButtonHasNextStep | src/pages/Orders.tsx:233-235 | every card that shows the advance button has a next status to request |
| OrdersPage.RejectRestocks | src/pages/Orders.tsx:295-299 | rejecting a New order puts its items back in stock and records the chosen reason on it, when the order is the first order with its id |
| OrdersPage.RejectBehindSharedId | src/context/AppContext.tsx:235-255 | with two orders sharing an id, a Cancelled one first, rejecting the second (New) card restores nothing, yet the card still becomes Rejected |
| InventoryPage.GetStockStatus | src/pages/Inventory.tsx:62-67 | the badge precedence: a manually off product is flagged first, then quantity 0 gives Out of Stock, then below 10 gives Low Stock, and In Stock otherwise, each stated as an exact condition |
| InventoryPage.BadgeIgnoresLedgerThreshold | src/pages/Inventory.tsx:65 | the badge ignores the product's threshold: 12 units with threshold 15 are low stock for the ledger but "In Stock" on the page |
| InventoryPage.Stats | src/pages/Inventory.tsx:34-40 | the total is the number of products |
| InventoryPage.CountersAreDisjoint | src/pages/Inventory.tsx:36-37 | no product is counted both as low and as out of stock: the two counters add up to exactly the number of products meeting either filter, which never exceeds the total |
| InventoryPage.CountersMatchBadges | src/pages/Inventory.tsx:36-67 | over non-negative quantities, the low counter counts the Low Stock badges, and the out-of-stock counter counts the manual and Out of Stock badges |
| InventoryPage.FilterProducts | src/pages/Inventory.tsx:45-50 | the list is an order-preserving subsequence holding exactly the products whose name or category matches the search and whose category matches the selection, each as many times as in the catalog |
| InventoryPage.UnfilteredCatalog | src/pages/Inventory.tsx:45-50 | an empty search in category "All" keeps the whole catalog in order |
| InventoryPage.SortProducts | src/pages/Inventory.tsx:51-59 | the result is a permutation; ascending gives non-decreasing stock or price, and descending (the negated comparator) gives non-increasing |
| InventoryPage.SortProductsIsStable | src/pages/Inventory.tsx:51-59 | products with equal stock (or price) keep their catalog order |
| Lists.SortByStable | src/pages/Inventory.tsx:51-59 | the insertion sort is stable: for every key, the elements with that key come out in their input order |
| InventoryPage.FilteredProducts | src/pages/Inventory.tsx:43-60 | the shown list holds exactly the matching products, is a permutation of the filtered list, and is sorted in the chosen direction |
| InventoryPage.HandleSimulateOrder | src/pages/Inventory.tsx:96-111 | no order exactly when the quantity is at most 0 or the product is off; otherwise one COD order with a single item of quantity 1 at the product's price, with that price as total |
| InventoryPage.SimulatedOrderTakesOneUnit | src/pages/Inventory.tsx:96-111 | the simulated order takes exactly one unit from every product with that id and leaves the others untouched |
| InventoryPage.DecrementRequest | src/pages/Inventory.tsx:380-381 | the "-" button is disabled exactly on empty or switched-off products; otherwise it asks for one less, which is never negative |
| InventoryPage.IncrementRequest | src/pages/Inventory.tsx:392-393 | the "+" button is disabled exactly on switched-off products; otherwise it asks for one more |
| StoreSettings.RemoveDay | src/pages/StoreSettings.tsx:28 | removes every occurrence of the day and keeps every occurrence of every other day, in order |
| StoreSettings.ToggleDay | src/pages/StoreSettings.tsx:26-30 | the clicked day is in the new list exactly when it was not before; every other day keeps its membership; removal yields a subsequence; adding yields the old days plus this one, sorted |
| StoreSettings.ToggleTwiceRestoresDays | src/pages/StoreSettings.tsx:26-30 | two clicks on the same day restore the set of days |
| StoreSettings.ToggleTwiceRestoresList | src/pages/StoreSettings.tsx:26-30 | on a strictly ascending list, two clicks restore the very same list |
| StoreSettings.RemoveAbsentDay | src/pages/StoreSettings.tsx:28 | removing a day that is not selected changes nothing |
| StoreSettings.RemoveInsertedDay | src/pages/StoreSettings.tsx:28-29 | removing a day after inserting it is the same as only removing it |
| StoreSettings.InsertRemovedDay | src/pages/StoreSettings.tsx:28-29 | re-inserting a removed day into a strictly ascending list restores the list |
| StoreSettings.RemovedStaysSorted | src/pages/StoreSettings.tsx:28 | removing a day from a strictly ascending list keeps it strictly ascending |
| StoreSettings.HandleScheduleChange | src/pages/StoreSettings.tsx:21-24 | the named field takes the new value, every other field is kept, and the form is marked changed |
| StoreSettings.HandleDayToggle | src/pages/StoreSettings.tsx:26-31 | the day list is toggled, the other fields are kept, and the form is marked changed |
| StoreSettings.HandleSave | src/pages/StoreSettings.tsx:33-36 | the edited schedule is handed over unchanged, and the flag is cleared |
| StoreSettings.EditThenSave | src/pages/StoreSettings.tsx:21-36 | an edit followed by a save stores the edited schedule, and leaves nothing unsaved |
| StoreSettings.FormatChangeType | src/pages/StoreSettings.tsx:38-40 | the label is Manual exactly for "manual", and Automatic for every other value |
| StoreSettings.VisibleHistory | src/pages/StoreSettings.tsx:203 | at most 20 rows: the whole log when it is short, otherwise its first 20 entries |
| Sales.Successful | src/pages/Sales.tsx:34 | an order-preserving subsequence holding exactly the Delivered orders, each as many times as in the window |
| Sales.WithPayment | src/pages/Sales.tsx:45-46 | an order-preserving subsequence holding exactly the orders with that payment type, each as many times as in the input |
| Sales.PaymentSplit | src/pages/Sales.tsx:45-46 | the COD total plus the Online total is the grand total |
| Sales.UndeliveredAddsNoRevenue | src/pages/Sales.tsx:34-35 | an order that is not Delivered adds nothing to revenue |
| Sales.OutcomeCountsBounded | src/pages/Sales.tsx:47-48 | completed plus cancelled never exceeds the number of orders in the window |
| Sales.TotalCost | src/pages/Sales.tsx:37-43 | the nested loops add up exactly cost price × quantity over every item whose product still exists |
| Sales.CostNonNegative | src/pages/Sales.tsx:37-43 | with non-negative cost prices and quantities, the cost is never negative |
| Sales.DeletedProductsCostNothing | src/pages/Sales.tsx:40-41 | items whose product was deleted add no cost |
| Sales.SoldIds | src/pages/Sales.tsx:54 | the keys of the tally: every sold product id exactly once |
| Sales.UnsoldTallyIsZero | src/pages/Sales.tsx:51-66 | a product no item names has count and revenue zero |
| Sales.EntryStep | src/pages/Sales.tsx:54-64 | one more item adds its quantity and `price × quantity` to its own product's entry only, and takes the name of the first item seen |
| Sales.RecordStep | src/pages/Sales.tsx:54-64 | counting an item on a correct tally gives the tally of the longer item list for every key |
| Sales.TallyStep | src/pages/Sales.tsx:54-64 | counting an item keeps the tally invariant: keys, domain and every entry match the items seen |
| Sales.CountItem | src/pages/Sales.tsx:54-64 | the inner loop body creates the entry on first sight, with the item's name and the product image, and then adds the item |
| Sales.ProductSales | src/pages/Sales.tsx:51-66 | after the nested loops, every sold product has exactly one entry, whose count sums its quantities and whose revenue sums price × quantity over Delivered orders, and there is no other entry |
| Sales.SalesEntries | src/pages/Sales.tsx:68 | `Object.values(productSales)`: one entry per sold product, in first-sale order |
| Sales.ValuesOfTally | src/pages/Sales.tsx:51-68 | the values of the tally the loops build are exactly those entries |
| Sales.BestSellers | src/pages/Sales.tsx:68 | at most three entries, drawn from the tally, ordered by count non-increasing, and nothing left out sold more than the last one shown |
| Sales.TopOfRanked | src/pages/Sales.tsx:68 | the first k entries of a ranking are in order, and outsell every remaining entry |
| Sales.CalculateMetrics | src/pages/Sales.tsx:33-79 | revenue is the sum over Delivered orders; profit is revenue minus cost; COD plus Online is revenue; the counts are Delivered and Cancelled/Rejected, and their sum is bounded by the window; the best sellers are the top three of the Delivered tally |

## Left out

- Simulated incoming orders and timers (`setInterval`, random delays and random picks in `src/context/AppContext.tsx:128-185`): these are timing and randomness, not bookkeeping.
- Loading from and saving to `localStorage` (`src/context/AppContext.tsx:89-109`): this is I/O. The `AppStore` constructor takes the initial catalog and orders.
- Generated ids and clock readings (`Math.random` ids, `new Date().toISOString()`, `Date.now()`) are parameters: `generatedId`, `id`, `notificationId`, `now`, `timestamp`. Each operation takes one `now`, whereas the source reads the clock once per product.
- `storeInfo`, `updateStoreSchedule`, `toggleStoreStatus` and the inventory log store are used by the store-settings page and other components, but no provider in the repository defines them. `StoreSettings.HandleSave` returns the schedule it would hand over. The store's open/closed state and the automatic schedule tick are not part of this model.
- The date-dependent dashboard counters `todayOrders` and `todayRevenue` (`src/context/AppContext.tsx:258-261`) depend on the clock.
- Sales date windows and display ratios: picking the orders of today, this week or this month depends on the clock, so `Sales.CalculateMetrics` takes the window's orders as given. The rounded percentages and the chart are floating point and presentation.
- Sorting the inventory by name (`localeCompare`) or by update date (`Date` parsing) depends on locale and clock semantics. Only the stock and price sorts are modelled.
- Lower-casing in the searches is ASCII-only: `Text.ToLower` maps A–Z. Unicode case mapping is not modelled.
- Message strings are modelled as datatypes: the validation messages and stock alerts, the emoji labels of `formatChangeType`, and the badge labels and colours. There is no number-to-string formatting.
- Sales.SalesEntries: `Object.values` lists integer-like keys (such as product ids "1", "2") in numeric order, not creation order. The model uses creation order. When products with equal counts straddle the top-three cut, this order decides which of them are shown at all, not only in which order. The keys `__proto__` and `constructor`, which a plain JavaScript object treats specially, are treated as ordinary ids.
- StoreSettings.Weekday: day numbers are limited to 0..6, the values the picker offers. For single digits, the argument-less `sort()` (string order) equals numeric order.
- OrdersPage.AdvanceKeepsStock: holds only when the card's order is the first order with its id. Order ids are random strings (`src/context/AppContext.tsx:221`) and nothing keeps them unique, while `updateOrderStatus` reads the stock effect from the first order with the id and rewrites every order with it. `OrdersPage.AdvanceBehindSharedId` shows what happens otherwise.
- OrdersPage.RejectRestocks: holds only when the order is the first order with its id, for the same reason. `OrdersPage.RejectBehindSharedId` shows the shared-id case.
- OrdersPage.RejectRequest: the reason is chosen by its position in the fixed list of four, so the position must be below four; the dialog offers nothing else.
- The JSX rendering, modals, animations and presentational components are not part of this model.
- The `validateStock` loop body and the inner `productSales` loop body are separate methods (`InventoryManager.CheckItem`, `Sales.CountItem`). The model keeps the same steps in the same order.
