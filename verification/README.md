# TechPlug storefront state, modelled in Dafny

This project models the state core of the TechPlug repair-shop storefront:
- the `DataProvider` store, which exists in two copies (`context/DataContext.tsx` and `src/context/DataContext.tsx`). The copies have the same operations and differ only in their seed service catalog.
- the figures `App.tsx` derives from the store: the basket total, the badge count and the two dashboard revenue tiles.
- the basket drawer's four-step checkout.
- the admin inventory editor and the admin service editor, with their save dispatch.

State is immutable. Each store operation is a pure function from one `Store` to the next, and each rebuilds one sequence (order placement rebuilds two).

Modules, one per file:
- `Domain`: the records and enumerations.
- `Keyed`: find, filter and map by string key, generic over the key function.
- `Sums`: the left fold every aggregate uses, proved equal to a right-recursive reference.
- `Patches`: `Partial<T>` updates and the `{ ...old, ...updates }` merge.
- `Aggregates`, `Cart`, `Provider`, `Seeds`, `Checkout`, `Admin`, and `App`. `App` is the event runner that carries the system invariant.

The clock is a parameter, not a call. `Date.now()` becomes an opaque `stamp` string and `new Date().toISOString()` an opaque `date` string. The id prefixes `ORD-`, `p`, `cat_` and `srv_` are kept as written.

Three behaviours of the code matter here, and the model follows them as written:
- `addProduct` and `addServiceCategory` append without any duplicate-id check. `Provider.AddProductKeepsDuplicates` shows that a second entry with the same id appears.
- Order ids are `ORD-<clock>`, so two orders placed at the same clock reading share an id (`Provider.SameStampSameOrderId`).
- The shipping-form validity flag in `App.tsx` is computed but never consulted. "Next" and "Pay Now" therefore proceed with empty fields and with an empty basket.

## Model

| member | source | states |
|---|---|---|
| Keyed.Find | context/DataContext.tsx:112 | `find` returns nothing exactly when no element has the key; otherwise it returns the first element that has it |
| Keyed.Without | context/DataContext.tsx:121 | `filter` by key: every result element has another key and comes from the input, every input element with another key is in the result, and an absent key changes nothing |
| Keyed.WithoutIsFiltered | context/DataContext.tsx:121 | a strictly increasing index map sends the filtered result onto exactly the positions whose key differs, so the survivors keep their order and each appears once |
| Keyed.WithoutAppend | context/DataContext.tsx:121 | filtering distributes over concatenation |
| Keyed.WithoutLength | context/DataContext.tsx:143 | filtering removes as many elements as carry the key |
| Keyed.MapWhere | context/DataContext.tsx:140 | `map` by key keeps length and order, rewrites exactly the matching elements and leaves the others equal |
| Keyed.WithoutUnique | context/DataContext.tsx:121 | with distinct keys, filtering out the key at position i deletes exactly position i |
| Keyed.MapWhereUnique | context/DataContext.tsx:140 | with distinct keys, mapping the key at position i rewrites exactly position i |
| Keyed.WithoutIdempotent | context/DataContext.tsx:143 | filtering out a key twice is filtering it once |
| Keyed.WithoutAfterMapWhere | context/DataContext.tsx:139-143 | deleting a key after an update that keeps keys is deleting it directly |
| Keyed.WithoutKeepsDistinct | context/DataContext.tsx:154-156 | filtering keeps keys distinct |
| Keyed.MapWhereKeepsDistinct | context/DataContext.tsx:150-152 | a key-preserving map keeps keys distinct |
| Sums.SumIsSumRight | App.tsx:24 | the `reduce` left fold from 0 equals the right-recursive sum |
| Sums.SumConcat | App.tsx:24 | the fold is additive over concatenation |
| Sums.SumUpdate | App.tsx:24 | replacing one element changes the fold by exactly the difference of the two values |
| Sums.SumRemoveAt | App.tsx:24 | deleting one element lowers the fold by exactly its value |
| Sums.SumAtLeastLength | App.tsx:135 | a fold of terms each at least 1 is at least the number of terms |
| Sums.SumPointwise | App.tsx:383 | two term functions that agree on every element give equal folds |
| Aggregates.CartTotal | App.tsx:24 | the left-fold basket total equals the right-recursive sum of price times quantity |
| Aggregates.CartCount | App.tsx:135 | the left-fold badge count equals the right-recursive sum of quantities |
| Aggregates.SalesRevenue | App.tsx:383 | the left-fold sales revenue equals the right-recursive sum of order totals |
| Aggregates.CartTotalAppendLine | App.tsx:24 | an empty basket totals 0; appending a line adds price times quantity to the total and its quantity to the count |
| Aggregates.CartTotalConcat | App.tsx:24 | the basket total is additive over baskets |
| Aggregates.BadgeShownIffNonEmpty | App.tsx:135-157 | with every quantity at least 1, the badge is drawn exactly when the basket has a line |
| Aggregates.SalesRevenuePrepend | App.tsx:383 | prepending an order adds exactly its recorded total to sales revenue |
| Aggregates.CompletedTickets | App.tsx:382 | the filter returns as many tickets as an independent count of completed tickets gives, each completed and taken from the list, and every completed ticket is among them |
| Aggregates.CompletedTicketsConcat | App.tsx:382 | selecting completed tickets distributes over concatenation |
| Aggregates.ServiceRevenue | App.tsx:382 | service revenue is 450 times the number of completed tickets: hence a multiple of 450, between 0 and 450 times the ticket count, and 0 exactly when no ticket is completed |
| Aggregates.ServiceRevenueConcat | App.tsx:382 | service revenue is additive over ticket lists |
| Cart.AddToCart | context/DataContext.tsx:110-118 | an existing id gains one in quantity on its line(s), keeping the stored snapshot and length; a new id appends `{p, 1}`; the basket invariant is kept |
| Cart.AddExistingLine | context/DataContext.tsx:112-115 | in a well-formed basket, re-adding changes only that line's quantity, by +1 |
| Cart.AddToCartTotals | context/DataContext.tsx:110-118 | in a basket with distinct product ids, adding raises the total by the basket's unit price for that product and the count by 1 |
| Cart.RepeatAddScenario | context/DataContext.tsx:110-118 | adding p1, p1, p2 gives lines `{p1,2}`, `{p2,1}`, total 2·p1+p2 and count 3 |
| Cart.TwoLineFigures | App.tsx:24 | a two-line basket totals its two line totals and counts its two quantities |
| Cart.RemoveFromCart | context/DataContext.tsx:120-122 | removal keeps exactly the lines with another id, in order and once each; an absent id is a no-op; the invariant is kept |
| Cart.RemoveExistingLine | context/DataContext.tsx:120-122 | in a well-formed basket, removal deletes exactly that line and lowers the total by its price times quantity |
| Cart.RemoveFromCartIdempotent | context/DataContext.tsx:120-122 | removing twice is removing once |
| Provider.AddToCart | context/DataContext.tsx:110-118 | only the basket changes; its length grows by 1 exactly when the id is new |
| Provider.RemoveFromCart | context/DataContext.tsx:120-122 | only the basket changes; afterwards no line has that id |
| Provider.PlaceOrder | context/DataContext.tsx:125-134 | the new order goes in front with the draft's fields, id `ORD-<stamp>`, the given date and status Pending; the older orders follow unchanged; the basket is emptied; nothing else changes |
| Provider.SameStampSameOrderId | context/DataContext.tsx:128 | two orders placed at the same clock reading get the same id |
| Provider.AddProduct | context/DataContext.tsx:137 | the product is appended and the count of its id rises by exactly 1 |
| Provider.AddProductKeepsDuplicates | context/DataContext.tsx:137 | adding an id that is already present leaves at least two products with that id |
| Provider.UpdateProduct | context/DataContext.tsx:139-141 | every product with the id is merged with the update; the others, the length and the order stay; an absent id is a no-op |
| Provider.UpdateProductUnique | context/DataContext.tsx:139-141 | with distinct ids, the update rewrites exactly one position |
| Provider.DeleteProduct | context/DataContext.tsx:143 | every product with the id is dropped, the others stay in their original order and once each (a strictly increasing index map), and the length falls by that id's count |
| Provider.DeleteProductUnique | context/DataContext.tsx:143 | with distinct ids, deletion removes exactly one position |
| Provider.DeleteAfterUpdateProduct | context/DataContext.tsx:139-143 | deleting after an update that keeps the id is deleting directly |
| Provider.DeleteAfterAddProduct | context/DataContext.tsx:137-143 | deleting the id just added equals deleting it from the store before the addition, and restores that store exactly when the id was new |
| Provider.DeleteAfterAddServiceCategory | context/DataContext.tsx:146-156 | the same for service categories |
| Provider.AddServiceCategory | context/DataContext.tsx:146-148 | the category is appended and the count of its id rises by exactly 1 |
| Provider.AddServiceCategoryKeepsDuplicates | context/DataContext.tsx:146-148 | adding an id that is already present leaves at least two categories with that id |
| Provider.UpdateServiceCategory | context/DataContext.tsx:150-152 | matching categories are merged with the update, a carried `services` replaces the whole list, and the others stay |
| Provider.DeleteServiceCategory | context/DataContext.tsx:154-156 | every category with the id is dropped along with its items; the others stay in their original order and once each (a strictly increasing index map) |
| Provider.CategoryIdsStayDistinct | context/DataContext.tsx:150-156 | distinct category ids stay distinct through id-free updates and through deletes |
| Patches.MergeProductNoChanges | context/DataContext.tsx:140 | an empty update leaves a product unchanged |
| Patches.MergeProductCompose | context/DataContext.tsx:140 | two successive updates equal one combined update in which the later keys win |
| Patches.MergeProductIdempotent | context/DataContext.tsx:140 | applying one update twice is applying it once |
| Patches.MergeProductFields | context/DataContext.tsx:140 | each of the eleven keys reads back as the carried value when the update carries it (the id too), and as the old value when it does not |
| Patches.MergeWholeProduct | App.tsx:235 | merging a whole product overwrites every field, and keeps the old specs only when the new product has none |
| Patches.MergeCategoryNoChanges | context/DataContext.tsx:151 | an empty update leaves a category unchanged |
| Patches.MergeCategoryFields | context/DataContext.tsx:151 | each of the four keys of a category update reads back as the carried value when carried (id and the whole `services` list too), and as the old value when not |
| Patches.MergeCategoryPayload | App.tsx:284-291 | the editor payload keeps the category id and replaces its name, description and whole service list |
| Seeds.RootSeedWellFormed | context/DataContext.tsx:5-71 | the seed has four categories with distinct ids; within each, item ids are distinct and prices positive |
| Seeds.SrcSeedWellFormed | src/context/DataContext.tsx:5-48 | the same for the other provider copy's seed |
| Checkout.CheckoutDraft | App.tsx:31-38 | the draft carries the form's name and email, the address joined to the city by ", ", the basket as its items, a total equal to that basket's total, and payment method Stripe |
| Checkout.PressButton | App.tsx:115-124 | no button (Checkout.ButtonShown: the drawer is open and before step 4) means no effect; steps 1–2 advance by one; step 3 places exactly one order from the basket, with the form's name, email and joined address and a total equal to its basket total, empties the basket and moves to step 4; the step stays in 1..4 |
| Checkout.OpenDrawer | App.tsx:493 | opening keeps the step and the shipping form |
| Checkout.CloseDrawer | App.tsx:26 | closing hides the drawer and resets the step to 1 |
| Checkout.EditShipping | App.tsx:103-110 | the shipping form changes only on step 2 of an open drawer |
| Checkout.CheckoutOrderTotal | App.tsx:24-41 | after "Pay Now", the new order's total equals the total of its items, and sales revenue grows by the basket total |
| Checkout.ThreePressesPlaceOneOrder | App.tsx:115-124 | starting from step 1, three presses walk steps 2, 3, 4 and place exactly one order carrying the basket |
| Admin.ChangeRow | App.tsx:268-272 | one row's one field changes to the typed value (Admin.ApplyEdit), and that row's other fields, the length and every other row stay |
| Admin.ApplyCurrentValue | App.tsx:268-272 | writing a field's current value back changes nothing |
| Admin.LastRowEditWins | App.tsx:268-272 | of two edits to the same field of a row, the later wins |
| Admin.RowEditsCommute | App.tsx:268-272 | edits to different rows commute |
| Admin.AddServiceRow | App.tsx:274-276 | a blank row `srv_<stamp>` with empty name and description and price 0 is appended; existing rows stay |
| Admin.RemoveRow | App.tsx:278-280 | filtering by position drops exactly row i when i is in range, and otherwise leaves the list unchanged |
| Admin.RemoveAddedRow | App.tsx:274-280 | removing the row just added restores the list |
| Admin.RemoveRowPositions | App.tsx:278-280 | rows before i keep their positions, and rows after i move up by one |
| Admin.OpenEditor | App.tsx:255-266 | the editor loads the category's name, description and services, or blanks for a new category |
| Admin.SaveCategory | App.tsx:282-296 | with a selection, matching categories take the form's name, description and rows and keep their id; without one, `cat_<stamp>` is appended; the editor closes |
| Admin.SaveUneditedCategory | App.tsx:255-296 | in a catalog with distinct category ids, opening a stored category and saving it unedited leaves the store unchanged |
| Admin.EditorSession | App.tsx:255-296 | in a catalog with distinct category ids, removing a row, editing another (Admin.ApplyEdit rewrites the one field) and saving stores exactly the edited list under the same id, and touches no other category |
| Admin.EditItem | App.tsx:235 | the loaded form carries every key of the product: merged into any product it yields the loaded product, except that specs stay when the loaded product has none |
| Admin.ApplyFormEdit | App.tsx:222-225 | a keystroke carries the typed value in its one key and leaves every other key of the form as it was |
| Admin.FormEditThenMerge | App.tsx:222-225 | merging an edited form is merging the old form, then setting the edited field |
| Admin.NewItemSession | App.tsx:206-225 | "New Item" (Admin.NewItem: an empty form, no selection), the four required inputs filled, then save; Admin.Submittable is the `required` gate of App.tsx:222-225: the page submits exactly when the typed name and image are not empty, and the save appends one product with id `p<stamp>` and the typed name, price, stock and image, keeping the rest |
| Admin.PartialNewItemRefused | App.tsx:217-225 | a fresh "New Item" form with only a name and a price typed in fails the `required` gate (Admin.Submittable) |
| Admin.NewProduct | App.tsx:209 | a new product gets id `p<stamp>`, and each of the other ten keys the form carries reaches the product with the carried value |
| Admin.SaveProduct | App.tsx:206-211 | with a selection, matching products are merged with the form and the others stay; without one, the new product is appended; the editor resets |
| Admin.SaveUneditedProduct | App.tsx:206-235 | in a catalog with distinct product ids, editing a stored product and saving it unchanged leaves the store unchanged |
| Admin.RepriceProduct | App.tsx:206-235 | in a catalog with distinct product ids, changing the price in the form and saving changes that one product's price and nothing else |
| Admin.NewItemIdsFollowStamps | App.tsx:209 | new items saved at different clock readings get different ids |
| App.Step | App.tsx:466-510 | drawer events leave the store alone, basket and admin events leave the drawer alone, and a press with no button drawn changes nothing |
| App.InitialInvariant | context/DataContext.tsx:103-107 | the starting state over any seed (Provider.Init: empty basket, orders, tickets and products, and the seed's categories) satisfies the invariant |
| App.StepKeepsInvariant | App.tsx:467-510 | every event keeps the basket well formed, the step in 1..4 and no tickets, and each order's total equal to its items' total |
| App.RunKeepsInvariant | App.tsx:467-510 | every sequence of events keeps the invariant |
| App.ServiceRevenueStaysZero | context/DataContext.tsx:106 | nothing creates a ticket, so service revenue is 0 in every reachable state |
| App.ReachableFigures | App.tsx:382-383 | in every reachable state, sales revenue equals the sum of the orders' item totals, and the badge is shown exactly when the basket is non-empty |
| App.PayNowRaisesSales | App.tsx:28-46 | "Pay Now" raises sales revenue by the basket total shown on step 3 |
| App.ReopenShowsBasket | App.tsx:26 | closing and reopening the drawer shows step 1, with "Pay Now" completing at once |

## Left out

- Rendering, animation, the admin login, and `formatCurrency` are not modelled. They do not change store state.
- The browser's `required` gate on the admin forms is not modelled as a guard. It covers the product name, price, stock and image (App.tsx:222-225), the category name and description (App.tsx:323-324), and each service's name and price (App.tsx:334-335). While one of them is empty the submit is refused and neither save handler runs. Admin.SaveProduct, Admin.SaveCategory and the matching App.Step events accept any form, so the reachable states are a superset of the page's. Admin.Submittable states the product form's gate; Admin.NewItemSession and Admin.PartialNewItemRefused say when it passes.
- Switching to the admin view unmounts the basket drawer, which resets its step to 1 and its shipping form to blank. The model keeps the drawer across admin events; only its step stays in 1..4 either way.
- The WhatsApp booking link and `services/geminiService.ts` call out of the program. Neither is part of this model.
- The clock is not modelled. `Date.now()` and the ISO date become string parameters.
- The 1.5-second delay before placing an order is not modelled, and neither is the loading flag. "Pay Now" is one atomic step. Three effects of the delay are therefore absent:
  - A second press during the wait could place the order twice.
  - Closing the drawer during the wait resets the step to 1, and the late step change then leaves it on step 4, so reopening shows step 4. App.ReopenShowsBasket holds only because completion is atomic.
  - Basket lines added during the wait are emptied with the basket but are not in the order, which holds the basket as it was at the press.
- Prices and quantities are JavaScript numbers. They are modelled as unbounded integers, without floating point and without `+e.target.value` producing `NaN`.
- A key that is present in a `Partial<T>` but whose value is `undefined` is not modelled. An update either carries a key with a value or leaves it out.
- Admin.NewProduct: when the form leaves a field out, the source appends a product whose field is undefined. The model fills `BlankProduct`'s value for that field instead.
- Admin.ChangeRow: it requires the index to be a row of the list. The page only edits rendered rows, and JavaScript's write past the end (leaving a hole in the array) has no counterpart in a sequence.
- Tickets have no operations in the provider: the list starts empty and nothing adds to it. Ticket handling beyond the completed-ticket filter is therefore out of scope.
- Both provider copies share one `Provider` module, because their operations are the same. Only the two seeds are modelled separately, in `Seeds`.
