# resto-op stock reservation, in Dafny

resto-op is a small restaurant application made of three browser pages that
share one document store: a public ordering page (`public.js`), a
point-of-sale terminal (`pos.js`) and an administration page (`admin.js`).
Its one piece of real logic is the stock-reservation transaction, and it
appears twice:

- the online checkout turns the cart into a new order;
- the POS billing marks every pending order of the selected table "Payée".

Both aggregate the demand of the purchased items per ingredient. The recipes
come from the page's menu cache, never from the copies the items carry. Both
then read every demanded ingredient inside one transaction and abort on the
first one that is missing or short. Otherwise they lower each stock by its
demand and write the orders in the same step.

The model:

- `types.dfy` (`Types`): menu items, recipe lines, ingredients, orders and statuses.
- `catalog.dfy` (`Catalog`): the first-match searches and folds the pages use over their lists (`find`, `findIndex`, `splice`, `reduce`, `flatMap`).
- `demand.dfy` (`Demand`): the `stockDeductions` map. `AggregateDemand` is the nested loop both transactions run. `DemandOf` is its specification, and `Total` states the demand per ingredient on its own terms.
- `reservation.dfy` (`Reservation`): the check and the deduction, as functions of the ingredient documents and the demand.
- `availability.dfy` (`Availability`): the advisory "orderable now" flag of the public menu.
- `tally.dfy` (`Tally`): the per-id aggregation and total shown by `renderCart` and `renderTicket`.
- `store.dfy` (`Store`): the document store as a class `Ledger` over three maps. Each transaction is one atomic method.
- `public_page.dfy` (`PublicPage`): the cart and the online checkout (`OrderPage`).
- `pos.dfy` (`Pos`): table selection, the pending-orders listener, the ticket, send-to-kitchen and billing (`Terminal`).
- `admin.dfy` (`Admin`): the recipe builder and the menu form (`MenuEditor`).
- `scenarios.dfy` (`Scenarios`): concrete cases with one ingredient (flour) and one dish (bread).

Quantities, stock levels and prices are Dafny `real`s. Generated document ids
are parameters that are required to be fresh.

## Model

| member | source | states |
|---|---|---|
| Catalog.FirstIndex | public.js:190 | the position found is the first that holds the id; no position means no entry holds it |
| Catalog.Find | public.js:179 | the item found is the first entry holding the id and belongs to the list; nothing is found exactly when no entry holds it |
| Catalog.StockLevel | public.js:97 | a level is found exactly when some stock entry holds the id, and it is the stock of the first such entry |
| Catalog.SumPrices | pos.js:216 | the `reduce` of the prices, the total an order records, is never negative when no price is |
| Catalog.ItemsOf | pos.js:241 | `flatMap` of the orders' items holds an item exactly when some order holds it |
| Catalog.CountAppend | public.js:181 | appending one item raises its id's count by one and leaves every other count |
| Catalog.CountConcat | pos.js:175 | counts over a concatenation add up |
| Catalog.CountAbsent | public.js:142-148 | a list in which no entry holds an id counts none of it |
| Catalog.FindAppend | public.js:142-148 | appending keeps the first match of every id already present |
| Catalog.SumPricesConcat | pos.js:216 | the price total of a concatenation is the sum of the totals |
| Catalog.RemoveFirstIsSplice | public.js:190-193 | `findIndex` then `splice(index, 1)` removes the first entry holding the id, keeping the others in order, and removes nothing when none holds it |
| Catalog.RemoveFirstMultiset | public.js:190-193 | removal takes out exactly one copy of the first matching item, or nothing |
| Catalog.CountSplice | public.js:192 | removing one position lowers only the count of the id held there, by one |
| Catalog.RemoveFirstCounts | public.js:190-193 | removal lowers the removed id's count by one when present and leaves every other id's count alone |
| Demand.AggregateDemand | public.js:214-222 | the nested loops compute `DemandOf(items, menu)`, and the keys are distinct and match the amounts; billing (pos.js, lines 245-253) runs the same loops |
| Demand.AddRecipeLines | public.js:218-221 | the inner loop over one recipe leaves the demand that folding the recipe's lines in gives |
| Demand.AddLine | public.js:219-220 | one `set` gives the ingredient an entry raised by the line's quantity, leaves every other ingredient's entry and amount alone, and adds at most one key, at the end |
| Demand.AddLineWellFormed | public.js:219-220 | one `set` keeps the keys distinct and in step with the amounts |
| Demand.AddRecipeWellFormed | public.js:218-221 | a whole recipe keeps the demand well formed |
| Demand.AccumulateWellFormed | public.js:215-222 | a whole cart keeps the demand well formed |
| Demand.AddRecipeAt | public.js:218-221 | after a recipe, an ingredient has an entry exactly when it had one or the recipe names it, and its amount rose by the recipe's lines for it |
| Demand.AccumulateAt | public.js:215-222 | after a list of items, an ingredient has an entry exactly when it had one or some resolved recipe names it, and its amount rose by the total of those lines |
| Demand.DemandSpec | public.js:214-222 | the demand has an entry for an ingredient exactly when some found item's recipe names it, and the entry is the sum of `qty` over every such line; duplicate lines add up, missing items contribute nothing |
| Demand.LineTotalNonNegative | admin.js:228-232 | lines with non-negative quantities total a non-negative amount |
| Demand.LineTotalAtLeast | public.js:219-220 | an ingredient's total over a recipe is at least any one of its lines |
| Demand.TotalAtLeast | public.js:215-222 | an ingredient's total over a cart is at least its total in any one item's recipe |
| Demand.RecipeForNonNegative | public.js:216-217 | a resolved recipe has only non-negative lines when the menu cache has |
| Demand.TotalNonNegative | public.js:215-222 | the total demand is non-negative when the recipes are |
| Demand.DemandPositive | admin.js:228-232 | with positive recipe quantities every demand entry is positive |
| Demand.TotalConcat | pos.js:241 | the demand of concatenated item lists adds up |
| Demand.MultisetRemoveAt | public.js:192 | taking out one position removes one copy of its item |
| Demand.TotalRemoveAt | public.js:215-222 | an item's contribution can be taken out of the total wherever it sits |
| Demand.TotalPermutation | public.js:215-222 | the demand per ingredient does not depend on the order of the items |
| Demand.DemandOrderIndependent | public.js:215-222 | reordering the cart gives the same amounts |
| Demand.DemandIgnoresCopiedRecipes | public.js:216 | the demand depends only on the items' ids: the recipes and prices the items carry are never used |
| Reservation.FirstShort | public.js:228-236 | nothing is reported exactly when no key is short; otherwise the first short key is reported |
| Reservation.Shortage | public.js:228-236 | nothing is reported exactly when no demanded ingredient is missing or short; otherwise a demanded one that is |
| Reservation.Deducted | public.js:239-243 | the deduction keeps exactly the same ingredient documents |
| Reservation.ShortageIff | public.js:228-236 | the check passes exactly when every demanded ingredient exists with stock at least its demand (equality is enough); a failure names a demanded ingredient that is missing or short |
| Reservation.DeductionKeepsStockNonNegative | public.js:239-243 | after a passed check each demanded stock becomes old stock minus demand, stays non-negative, and every other ingredient is untouched |
| Reservation.SerialReservationsNeverOversell | pos.js:244-271 | two reservations in sequence whose demands on one ingredient exceed its stock cannot both pass |
| Availability.LinesCovered | public.js:96-102 | the loop returns true exactly when every line is covered by the cache |
| Availability.Orderable | public.js:92-103 | an item without recipe is available; otherwise it is unavailable exactly when some line's ingredient is absent from the cache or has strictly less stock than the line's `qty` |
| Availability.PassedCheckImpliesOrderable | public.js:92-103 | a passed reservation implies every item of the cart was orderable against the same stock |
| Tally.EntryIndex | public.js:143 | the position found holds the id; none is found exactly when no entry holds it |
| Tally.ShownTotal | public.js:150-168 | the loop's total is the sum of price × count over the entries; the ticket total is the same loop |
| Tally.Aggregated | public.js:142-148 | at most one entry per item, and no entry exactly when there is no item; `TallySpec` states the entries themselves |
| Tally.BumpKnown | public.js:143-147 | a known id's count goes up by one and the aggregation stays faithful |
| Tally.RaisedFaithful | public.js:146 | raising one entry's count keeps each entry's count and first item right |
| Tally.RaisedCovers | public.js:146 | after raising a count every item still has an entry |
| Tally.BumpNew | public.js:143-147 | a new id gets one entry with count 1 and the aggregation stays faithful |
| Tally.AppendedFaithful | public.js:143-146 | appending the new id's entry keeps the other entries right and the new one holds the item with count 1 |
| Tally.AppendedCovers | public.js:143-146 | after the new entry every item, the new one included, has an entry |
| Tally.TallySpec | pos.js:183-189 | one entry per distinct id, each holding the first item with that id and the number of items holding it, and every item has an entry |
| Tally.TallyCounts | public.js:142-148 | the counts add up to the number of items |
| Tally.SumCountsBump | public.js:146 | one more count adds one to the sum of counts |
| Tally.EntriesTotalBump | public.js:167 | one more count adds that entry's price to the total |
| Tally.EntriesTotalAppend | public.js:167 | appending an entry adds its price × count to the total |
| Tally.ShownTotalIsSumOfPrices | pos.js:191-204 | the rendered total is the sum of all item prices when all copies of one id carry one price |
| Tally.FirstPriceIsLast | public.js:144 | under uniform prices the entry's first item carries the price of every later copy |
| Store.MarkedPaid | pos.js:273-276 | the same order documents remain; a listed order changes only its status, to "Payée"; other orders are untouched |
| Store.FirstMissing | pos.js:273-276 | nothing is reported exactly when every listed order exists; otherwise a listed order that does not |
| Store.Ledger.constructor | public.js:51-54 | the store starts with the given collections |
| Store.Ledger.CheckStock | public.js:225-236 | the check loop reports `Shortage`: the first demanded ingredient, in key order, that is missing or short |
| Store.Ledger.Deduct | public.js:239-243 | the deduction loop leaves the ingredients equal to `Deducted` |
| Store.Ledger.MarkPaid | pos.js:273-276 | the status loop leaves the orders equal to `MarkedPaid` |
| Store.Ledger.PlaceOrder | public.js:212-258 | all or nothing: on a shortage nothing is written; otherwise the stock is deducted and the new order written; non-negative stock stays non-negative |
| Store.Ledger.SettleOrders | pos.js:244-277 | all or nothing: a shortage or a missing order document writes nothing; otherwise the stock is deducted and exactly the listed orders are paid; non-negative stock stays non-negative |
| Store.Ledger.AddOrder | pos.js:219-225 | `addDoc` adds exactly the new order |
| Store.Ledger.PutDish | admin.js:275-279 | `setDoc`/`addDoc` puts the dish under its id, replacing it wholesale |
| Store.PaidLeavesPendingQuery | pos.js:147-151 | a paid order is no longer answered by the pending-orders query |
| PublicPage.FirstWord | public.js:248 | the result is a prefix of the name, holds no space, and is followed by a space when shorter than the name |
| PublicPage.FirstWordOfFullName | public.js:248 | a first name followed by a space and anything yields that first name |
| PublicPage.OnlineOrder | public.js:246-255 | the new order waits at table "Online-" followed by a first name without space, is answered by that table's pending query, and holds the client, the type "Online", the cart and the sum of its prices |
| PublicPage.OrderPage.constructor | public.js:33-35 | caches and cart start empty, and the empty cart is what is shown |
| PublicPage.OrderPage.RenderCart | public.js:132-173 | the shown lines are the aggregation of the cart, the shown total its price × count total, and confirm is disabled exactly when the cart is empty |
| PublicPage.OrderPage.OnStockSnapshot | public.js:75-79 | the stock cache becomes the snapshot |
| PublicPage.OrderPage.OnMenuSnapshot | public.js:82-85 | the menu cache becomes the snapshot |
| PublicPage.OrderPage.AddToCart | public.js:176-185 | an enabled item is appended exactly once at the end; otherwise nothing changes |
| PublicPage.OrderPage.RemoveFromCart | public.js:187-196 | the cart loses only its first entry with the id, in order, or is unchanged; the cart is re-rendered |
| PublicPage.OrderPage.Checkout | public.js:199-274 | an empty cart does nothing; a shortage writes nothing and keeps the cart and the rendered lines and total, re-enabling confirm; otherwise the stock is deducted by the cart's demand, exactly one order "En attente" of type "Online" with table "Online-" + first name, the cart's items and the sum of their prices is created, and the cart is emptied |
| PublicPage.RenderedCartMatchesCart | public.js:142-170 | each cart item is shown once with its number of copies; the shown total is the sum of prices under uniform prices |
| Pos.BillingDemandIsSumOverOrders | pos.js:241-253 | billing the orders together demands what billing them one by one would, in sum |
| Pos.KitchenOrder | pos.js:219-225 | the order sent to the kitchen waits at its table, is answered by that table's pending query, and holds the ticket and the sum of its prices, with no client and no type |
| Pos.PendingPricesAreRecordedTotals | pos.js:216 | when every order records the sum of its items' prices, the prices of all pending items add up to the recorded totals |
| Pos.Terminal.constructor | pos.js:37-41 | no table, no pending orders, empty ticket |
| Pos.Terminal.OnMenuLoaded | pos.js:97-101 | the menu cache becomes the loaded menu |
| Pos.Terminal.SelectTable | pos.js:128-141 | re-selecting the current table changes nothing; another table becomes current and the listener follows it |
| Pos.Terminal.RenderTicket | pos.js:181-210 | the shown lines and total are the aggregation of the items; send is enabled exactly when the ticket is non-empty, and only when editing |
| Pos.Terminal.OnPendingOrders | pos.js:153-162 | pending orders become the snapshot, the ticket is emptied, the combined items are shown, pay is disabled exactly when they are empty, send is disabled |
| Pos.Terminal.AddToTicket | pos.js:165-179 | without a table nothing changes; otherwise one copy is appended, the pending items followed by the ticket are shown with their price × count total, and send is enabled |
| Pos.Terminal.SendToKitchen | pos.js:213-233 | nothing without a ticket or a table; otherwise one order "En attente" with the table, the ticket and the sum of its prices is created and the ticket cleared |
| Pos.Terminal.PayBill | pos.js:235-287 | nothing without pending orders or a table; otherwise the demand of all their items is checked, and either nothing is written or the stock is deducted and exactly those orders are paid; pay is enabled again |
| Pos.PaidOrdersLeaveTheTable | pos.js:147-151 | after billing, no billed order is pending for the table and every other order is unchanged |
| Admin.BuiltRecipesGivePositiveDemand | admin.js:228-232 | recipes built by the editor make every demand entry positive |
| Admin.MenuEditor.constructor | admin.js:36-37 | the form starts with no dish being edited and an empty recipe |
| Admin.MenuEditor.AddRecipeLine | admin.js:225-236 | accepted exactly when an ingredient is chosen and the quantity is a positive number; then the line is appended, otherwise the recipe is unchanged; every line stays valid |
| Admin.MenuEditor.RemoveRecipeLine | admin.js:255-261 | exactly the line at the index is removed and the order of the others kept; an index past the end removes nothing |
| Admin.MenuEditor.ClearForm | admin.js:288-293 | no dish being edited and an empty recipe |
| Admin.MenuEditor.SaveMenuItem | admin.js:264-284 | an empty recipe is rejected and nothing written; otherwise the dish with exactly the current recipe replaces the edited id or is added under a new id, and the form is cleared; store recipes stay valid |
| Admin.MenuEditor.EditMenuItem | admin.js:309-320 | an existing dish's id and a copy of its recipe are loaded; otherwise nothing changes |
| Scenarios.AccumulateBreads | public.js:215-222 | each bread adds 3 of flour to the demand |
| Scenarios.BreadsDemand | public.js:214-222 | a cart of n breads demands 3n of flour |
| Scenarios.ThreeBreadsFit | public.js:228-243 | 9 of flour against 10 passes and leaves 1 |
| Scenarios.FourBreadsAbortOnFlour | public.js:228-236 | 12 of flour against 10 aborts on flour |
| Scenarios.ExactStockIsEnough | public.js:233 | stock equal to the demand passes and leaves 0 |
| Scenarios.AvailableButShort | public.js:96-100 | bread is orderable with 5 of flour, yet two breads abort the checkout |
| Scenarios.OrderableCases | public.js:93-99 | too little or missing flour makes bread unavailable; a dish without recipe is available with no stock |
| Scenarios.MissingItemDemandsNothing | public.js:217 | an item absent from the menu cache demands nothing |
| Scenarios.ShownTotalUsesFirstPrice | public.js:144 | two copies of bread priced 2 and 3 are shown as 4, while the order total is 5 |

## Left out

- Authentication, sign-in and sign-out, and Firebase initialisation: identity plumbing with no bearing on the reservation.
- The `onSnapshot` subscriptions themselves: each listener is a method taking the snapshot it receives.
- The retries and concurrency of `runTransaction`: a transaction is one atomic method over the store's maps. Serialising transactions is the store's promise, and `SerialReservationsNeverOversell` states what follows from it.
- User clicks during an awaited transaction: the cart, ticket and pending orders are taken to stay as they were while it runs.
- DOM rendering, icons, `alert`/`confirm` dialogs, the POS message and its timeout: only the rendered totals, counts and button states are kept.
- `toFixed`, the order-id display and JavaScript floating point: numbers are reals. `parseFloat` of the recipe quantity is an `Option<real>` whose `None` stands for a value that does not parse.
- `serverTimestamp` and generated document ids: ids are parameters required to be absent from their collection.
- Adding stock ingredients and deleting ingredients or dishes: plain store writes with no logic.
- The admin order list, the admin stock list and the recipe text shown on menu cards: display only.
- PublicPage.OrderPage.AddToCart: the enabled state of a menu button is taken from the current caches. A button drawn earlier is not tracked when a cache later becomes empty and `renderMenu` returns early.
- Admin.MenuEditor.EditMenuItem: loading the dish's name and price into the form is not modelled, because `SaveMenuItem` takes them as parameters.
- Admin.MenuEditor.EditMenuItem: a stored dish without a `recipe` field would make the copy throw. Stored dishes always carry a recipe here.
- Pos.Terminal.SendToKitchen: the store's `addDoc` is taken never to fail. On a failure the source writes nothing and keeps the ticket, while the model always clears it.
- Admin.MenuEditor.SaveMenuItem: the store's `setDoc`/`addDoc` are taken never to fail. On a failure the source writes nothing and leaves the form as it was, while the model always clears it.
- PublicPage.OrderPage.Checkout: the transaction is taken to fail only on a stock shortage. The source reports any other store failure the same way, writing nothing, keeping the cart and re-enabling confirm.
- Pos.Terminal.PayBill: the billing transaction is taken to fail only on a shortage or a missing order document. On any other store failure the source writes nothing and re-enables pay.
- Pos.Terminal.PayBill: a disabled button cannot be clicked. The method is not gated on `payDisabled`, since the handler's own guard is what is modelled.
- The POS stock cache: it is loaded but never read by the core, so it is not part of `Terminal`.
