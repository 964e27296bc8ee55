# Restaurant cart and checkout, modelled in Dafny

This project models the client-side core of a small restaurant web shop:

- the shopping-cart store, with its merge-on-add rule, removal and reset;
- the checkout page, covering:
  - the order totals (subtotal, flat delivery fee, 7% tax, total);
  - the checkout form and its per-field error map;
  - the `+`/`−` quantity buttons;
  - the place-order and reset handlers;
- the five regular-expression validators used by the form;
- the dish page: the lookup of a dish by route id, the "Add to Cart" button, and the cart sidebar with its buttons and total;
- the navigation bar's item-count badge.

Modules, one per source file, plus two shared ones:

| module | file | models |
|---|---|---|
| `Wrappers` | `wrappers.dfy` | `Option` and the `x \|\| ""` default |
| `Sequences` | `sequences.dfy` | `find`, `filter` and a numeric `reduce`, with their algebra |
| `CartStore` | `cart_store.dfy` | `restaurant-frontend/src/store/cart_store.ts` |
| `Validations` | `validations.dfy` | `restaurant-frontend/src/utils/validations.ts` and `trim` |
| `CartPage` | `cart_page.dfy` | `restaurant-frontend/src/pages/CartPage/CartPage.tsx` |
| `DishDetails` | `dish_details.dfy` | `restaurant-frontend/src/components/DishDetails/DishDetails.tsx` |
| `Navbar` | `navbar.dfy` | `restaurant-frontend/src/components/Navbar.tsx` |

**Money.** All amounts are integer cents; prices such as 8.99 become 899. `+(x).toFixed(2)` is `RoundToCents`. It takes an amount in hundredths of a cent and rounds to the nearest cent, with halves rounded away from zero.

**Store.** The store is a class whose one field, `cart`, is reassigned by each operation. Each method states its new cart as a pure function of the old one. Each method also keeps the store invariant `Valid()` (positive quantities, distinct ids) whenever it held before. The source accepts any payload, so the methods have no preconditions.

**Behaviour at the edges.** The model keeps three details of the code:

- `placeOrder` replaces `touched` with all nine fields marked before it checks the form and the cart (`CartPage.tsx` lines 74-86). A rejected order therefore still changes `touched`.
- `placeOrder` never calls `setForm` (`CartPage.tsx` lines 72-101). The form keeps its contents after an order is placed.
- On the existing-line path, `addToCart` filters *every* line of the mapped cart by positive quantity (`cart_store.ts` line 24), not only the line it changed. In a well-formed cart only the changed line can drop out (`CartStore.AddExisting`).

## Model

| member | source | states |
|---|---|---|
| Sequences.FindFirst | restaurant-frontend/src/store/cart_store.ts:13 | `find` returns nothing exactly when no element matches; otherwise it returns the first matching element |
| Sequences.Filter | restaurant-frontend/src/store/cart_store.ts:24 | `filter` keeps only elements that pass the test, every kept element comes from the input, and the result is no longer than the input |
| Sequences.FilterKeepsKept | restaurant-frontend/src/store/cart_store.ts:24 | no element that passes the test is lost |
| Sequences.FilterAppend | restaurant-frontend/src/store/cart_store.ts:24 | filtering distributes over concatenation, so relative order is kept |
| Sequences.FilterKeepsAll | restaurant-frontend/src/store/cart_store.ts:24 | a filter every element passes returns its input unchanged |
| Sequences.FilterDropsAll | restaurant-frontend/src/store/cart_store.ts:24 | a filter no element passes returns the empty sequence |
| Sequences.FilterAround | restaurant-frontend/src/store/cart_store.ts:24 | when all neighbours pass, filtering can only drop the one element between them |
| Sequences.FilterIdempotent | restaurant-frontend/src/store/cart_store.ts:32 | filtering twice is filtering once |
| Sequences.SumOfAppend | restaurant-frontend/src/pages/CartPage/CartPage.tsx:22-25 | a `reduce` sum over a concatenation is the sum of the two sums |
| Sequences.SumOfNonNegative | restaurant-frontend/src/pages/CartPage/CartPage.tsx:22-25 | summing non-negative values gives a non-negative sum |
| Sequences.SumOfAtLeastLength | restaurant-frontend/src/components/Navbar.tsx:8-11 | summing values that are each at least 1 gives at least the number of elements |
| Sequences.SumOfUpdate | restaurant-frontend/src/pages/CartPage/CartPage.tsx:22-25 | replacing one element changes the sum by the difference of its old and new values |
| Sequences.SumOfRemove | restaurant-frontend/src/pages/CartPage/CartPage.tsx:22-25 | removing one element lowers the sum by its value |
| CartStore.WellFormed | restaurant-frontend/src/store/cart_store.ts:11-33 | the invariant the store's operations keep: every quantity positive and no id twice; kept by `AddPreservesWellFormed` and `RemovePreservesWellFormed` |
| CartStore.AddQuantity | restaurant-frontend/src/store/cart_store.ts:19-23 | definition of the `map` step: every line with the id has the delta added to its quantity, all others are unchanged; its effect is stated by `AddExisting` and `AddKeepsOtherLines` |
| CartStore.Find | restaurant-frontend/src/store/cart_store.ts:13 | the lookup finds nothing exactly when no line has the id; otherwise it finds the first line with that id |
| CartStore.FindUnique | restaurant-frontend/src/store/cart_store.ts:13 | in a cart of distinct ids, the lookup returns the one line with that id |
| CartStore.AddedToCart | restaurant-frontend/src/store/cart_store.ts:11-28 | a new id with quantity ≤ 0 leaves the cart unchanged; a new id with quantity > 0 is appended; for an existing id every line left is positive, lines with other ids come from the old cart, and the cart never grows; the cart grows only in the append case |
| CartStore.AddKeepsOtherLines | restaurant-frontend/src/store/cart_store.ts:17-24 | for an existing id, every other positive line survives the add |
| CartStore.AddExisting | restaurant-frontend/src/store/cart_store.ts:17-24 | on a well-formed cart, adding to line `k` changes only its quantity, in place, keeping its name and price; when the sum is not positive the line is removed and the rest keep their order |
| CartStore.DecrementLastUnitRemoves | restaurant-frontend/src/store/cart_store.ts:17-24 | taking one unit off a line with quantity 1 removes the line, and no line with that id is left |
| CartStore.KeepPositiveAround | restaurant-frontend/src/store/cart_store.ts:24 | the positivity filter over a positive cart can drop only the changed line |
| CartStore.SumAfterInsert | restaurant-frontend/src/store/cart_store.ts:15-25 | any per-line sum grows by the value of the appended line |
| CartStore.SumAfterUpdate | restaurant-frontend/src/store/cart_store.ts:17-24 | any per-line sum swaps the old value of line `k` for the new one, or loses it when the line drops out |
| CartStore.SumAfterKeep | restaurant-frontend/src/store/cart_store.ts:17-24 | the kept-line case of `SumAfterUpdate` |
| CartStore.SumAfterDrop | restaurant-frontend/src/store/cart_store.ts:17-24 | the dropped-line case of `SumAfterUpdate` |
| CartStore.AddPreservesWellFormed | restaurant-frontend/src/store/cart_store.ts:11-28 | `addToCart` keeps quantities positive and ids distinct |
| CartStore.FilterKeepsUniqueIds | restaurant-frontend/src/store/cart_store.ts:24-32 | filtering a cart of distinct ids leaves the ids distinct |
| CartStore.RemovedFromCart | restaurant-frontend/src/store/cart_store.ts:30-33 | after removal no line has the id, and every remaining line comes from the old cart |
| CartStore.RemoveKeepsOthers | restaurant-frontend/src/store/cart_store.ts:30-33 | every line with another id survives removal |
| CartStore.RemoveExisting | restaurant-frontend/src/store/cart_store.ts:30-33 | in a cart of distinct ids, removing the id of line `k` removes exactly that line and keeps the others in order |
| CartStore.RemoveAbsentIsNoOp | restaurant-frontend/src/store/cart_store.ts:30-33 | removing an id that is not in the cart changes nothing |
| CartStore.RemoveIdempotent | restaurant-frontend/src/store/cart_store.ts:30-33 | removing the same id twice is removing it once |
| CartStore.RemovePreservesWellFormed | restaurant-frontend/src/store/cart_store.ts:30-33 | removal keeps quantities positive and ids distinct |
| CartStore.Store.constructor | restaurant-frontend/src/store/cart_store.ts:9 | the store starts with the empty cart, which is valid |
| CartStore.Store.AddToCart | restaurant-frontend/src/store/cart_store.ts:11-28 | the new cart is `AddedToCart` of the old one, and the invariant is kept |
| CartStore.Store.RemoveFromCart | restaurant-frontend/src/store/cart_store.ts:30-33 | the new cart is `RemovedFromCart` of the old one, and the invariant is kept |
| CartStore.Store.ResetCart | restaurant-frontend/src/store/cart_store.ts:35 | the cart becomes empty |
| Validations.EmailIsValid | restaurant-frontend/src/utils/validations.ts:1 | definition of `emailIsValid`: some slice matches `\S+@\S+\.\S+`; characterised by `EmailIffShape`, `EmailUnanchored` and `EmailNeedsAtThenDot` |
| Validations.PhoneIsValid | restaurant-frontend/src/utils/validations.ts:2 | definition of `phoneIsValid`: after one optional `+`, 7 to 15 digits; characterised by `PhoneIff` |
| Validations.StripWhitespace | restaurant-frontend/src/utils/validations.ts:3 | definition of `s.replace(/\s+/g, "")`, deleting every whitespace character; characterised by `CardNumberIgnoresWhitespace` |
| Validations.CardNumberIsValid | restaurant-frontend/src/utils/validations.ts:3 | definition of `cardNumberIsValid`: the stripped string is 12 to 19 digits; characterised by `CardNumberIff` and `CardNumberIgnoresWhitespace` |
| Validations.ExpiryIsValid | restaurant-frontend/src/utils/validations.ts:4 | definition of `expiryIsValid`: a month `01`-`12`, a `/`, two digits; characterised by `ExpiryIff` |
| Validations.CvvIsValid | restaurant-frontend/src/utils/validations.ts:5 | definition of `cvvIsValid`: 3 or 4 digits; characterised by `CvvIff` |
| Validations.Trim | restaurant-frontend/src/pages/CartPage/CartPage.tsx:34 | definition of `s.trim()` as `TrimEnd` after `TrimStart`, whose contracts state what each removes |
| Validations.IsBlank | restaurant-frontend/src/pages/CartPage/CartPage.tsx:34-39 | definition of `!s.trim()`; characterised by `BlankIffAllWhitespace` |
| Validations.TrimStart | restaurant-frontend/src/pages/CartPage/CartPage.tsx:34 | the start of `trim`: the result is a suffix of the input, what was removed is all whitespace, and the result does not start with whitespace |
| Validations.TrimEnd | restaurant-frontend/src/pages/CartPage/CartPage.tsx:34 | the end of `trim`: the result is a prefix of the input, what was removed is all whitespace, and the result does not end with whitespace |
| Validations.TrimStartEmpty | restaurant-frontend/src/pages/CartPage/CartPage.tsx:34 | trimming the start leaves nothing exactly when the string is all whitespace |
| Validations.TrimEndEmpty | restaurant-frontend/src/pages/CartPage/CartPage.tsx:34 | trimming the end leaves nothing exactly when the string is all whitespace |
| Validations.BlankIffAllWhitespace | restaurant-frontend/src/pages/CartPage/CartPage.tsx:34-39 | `!s.trim()` holds exactly when every character is whitespace |
| Validations.EmailIffShape | restaurant-frontend/src/utils/validations.ts:1 | the email pattern matches exactly when somewhere a non-space character precedes an `@`, a run of non-space characters leads to a `.`, and a non-space character follows it |
| Validations.EmailUnanchored | restaurant-frontend/src/utils/validations.ts:1 | the pattern is not anchored: text around a valid email keeps it valid |
| Validations.EmailNeedsAtThenDot | restaurant-frontend/src/utils/validations.ts:1 | a valid email has an `@` followed later by a `.` |
| Validations.EmailExample | restaurant-frontend/src/utils/validations.ts:1 | `you@example.com` is accepted; `you@example` is rejected |
| Validations.PhoneIff | restaurant-frontend/src/utils/validations.ts:2 | a phone number is 7 to 15 digits, with or without one leading `+`, and nothing else |
| Validations.PhoneExample | restaurant-frontend/src/utils/validations.ts:2 | `+923001234567` and `3001234` are accepted; `300123` and `++3001234` are rejected |
| Validations.CardNumberIff | restaurant-frontend/src/utils/validations.ts:3 | a card number is valid exactly when every non-whitespace character is a digit and there are 12 to 19 of them |
| Validations.CardNumberIgnoresWhitespace | restaurant-frontend/src/utils/validations.ts:3 | inserting whitespace anywhere changes neither the stripped digits nor the verdict |
| Validations.CardDigitsAccepted | restaurant-frontend/src/utils/validations.ts:3 | a plain digit string of 12 to 19 digits is accepted |
| Validations.CardFourGroups | restaurant-frontend/src/utils/validations.ts:3 | four groups of four digits separated by single spaces are accepted |
| Validations.CardNumberExample | restaurant-frontend/src/utils/validations.ts:3 | `4111 1111 1111 1111` is accepted |
| Validations.CardNumberTooShort | restaurant-frontend/src/utils/validations.ts:3 | `123` is rejected |
| Validations.ExpiryIff | restaurant-frontend/src/utils/validations.ts:4 | an expiry is `MM/YY` where `MM`, read as a number, is 1 to 12 |
| Validations.ExpiryExample | restaurant-frontend/src/utils/validations.ts:4 | `12/25` is accepted; `13/25`, `00/25` and `1/25` are rejected |
| Validations.CvvIff | restaurant-frontend/src/utils/validations.ts:5 | a CVV is valid exactly when it is three digits or four digits |
| Validations.CvvExample | restaurant-frontend/src/utils/validations.ts:5 | 3 or 4 digits are accepted; 2 or 5 digits, or a letter, are rejected |
| Validations.EmptyFailsFormats | restaurant-frontend/src/utils/validations.ts:1-5 | the empty string passes none of the five format rules |
| CartPage.Subtotal | restaurant-frontend/src/pages/CartPage/CartPage.tsx:22-25 | definition of `subtotal` as the price-times-quantity sum; characterised by `OrderTotals`, `SubtotalAfterInsert`, `SubtotalAfterUpdate` and `SubtotalNonNegative` |
| CartPage.DeliveryFee | restaurant-frontend/src/pages/CartPage/CartPage.tsx:26 | definition of `DELIVERY_FEE`: 2.99 for a positive subtotal, otherwise 0; stated by `OrderTotals` |
| CartPage.Tax | restaurant-frontend/src/pages/CartPage/CartPage.tsx:27 | definition of `tax` as 7% of the subtotal through `RoundToCents`; stated by `OrderTotals` |
| CartPage.Total | restaurant-frontend/src/pages/CartPage/CartPage.tsx:28 | definition of `total` as the rounded sum; `OrderTotals` proves the rounding exact |
| CartPage.RoundToCents | restaurant-frontend/src/pages/CartPage/CartPage.tsx:27-28 | the result is the nearest cent, at most half a cent away, with exact halves rounded away from zero |
| CartPage.OrderTotals | restaurant-frontend/src/pages/CartPage/CartPage.tsx:22-28 | the subtotal is the line-amount sum; delivery is 2.99 exactly when the subtotal is positive, otherwise 0; tax is 7% of the subtotal to the nearest cent, with an exact half cent rounded away from zero; the total is exactly subtotal plus delivery plus tax |
| CartPage.SubtotalNonNegative | restaurant-frontend/src/pages/CartPage/CartPage.tsx:22-25 | with non-negative prices and quantities the subtotal is non-negative |
| CartPage.SubtotalAfterInsert | restaurant-frontend/src/pages/CartPage/CartPage.tsx:22-25 | adding a new dish raises the subtotal by its price times its quantity |
| CartPage.SubtotalAfterUpdate | restaurant-frontend/src/pages/CartPage/CartPage.tsx:22-25 | adding to line `k` moves the subtotal by that line's price times the units added, or removes the whole line amount when the line drops out |
| CartPage.EmptyCartTotals | restaurant-frontend/src/pages/CartPage/CartPage.tsx:22-28 | the empty cart costs nothing: no subtotal, no delivery, no tax, total 0 |
| CartPage.SampleCartTotals | restaurant-frontend/src/pages/CartPage/CartPage.tsx:22-28 | two pizzas at 8.99 and a burger at 6.50 give 24.48 + 2.99 + 1.71 = 29.18 |
| CartPage.InitialForm | restaurant-frontend/src/pages/CartPage/CartPage_types.ts:16-29 | the initial form: every text field empty, card payment selected; its errors are stated by `InitialFormErrors` |
| CartPage.Fails | restaurant-frontend/src/pages/CartPage/CartPage.tsx:34-45 | definition of each field's rule; characterised field by field by `RequiredFieldErrors`, `CardFieldErrors` and `UncheckedFieldsNeverErr` |
| CartPage.Message | restaurant-frontend/src/pages/CartPage/CartPage.tsx:34-44 | each field's error message, as the source writes it; `Errors` stores it under the field's key |
| CartPage.IsValid | restaurant-frontend/src/pages/CartPage/CartPage.tsx:50 | definition of `isValid` as an error map without keys; characterised by `ValidIffNoneFails` and `IsValidIff` |
| CartPage.Errors | restaurant-frontend/src/pages/CartPage/CartPage.tsx:31-48 | the error object has a key for every field whose rule fails and for no other field, and each key holds that field's message |
| CartPage.RequiredFieldErrors | restaurant-frontend/src/pages/CartPage/CartPage.tsx:34-39 | name, address and city and postal code have an error exactly when blank after trimming; email and phone have one exactly when their validator rejects them |
| CartPage.CardFieldErrors | restaurant-frontend/src/pages/CartPage/CartPage.tsx:41-45 | each card field has an error exactly when paying by card and its validator rejects the field, a missing field being read as empty |
| CartPage.UncheckedFieldsNeverErr | restaurant-frontend/src/pages/CartPage/CartPage.tsx:31-48 | the second address line, the instructions and the payment choice never have an error |
| CartPage.ValidIffNoneFails | restaurant-frontend/src/pages/CartPage/CartPage.tsx:50 | `Object.keys(errors).length === 0` holds exactly when no field has an error |
| CartPage.IsValidIff | restaurant-frontend/src/pages/CartPage/CartPage.tsx:31-50 | the form is valid exactly when every rule of the validation table passes, the card rules applying only to card payment |
| CartPage.CodIgnoresCardFields | restaurant-frontend/src/pages/CartPage/CartPage.tsx:41-45 | when paying cash on delivery, no content of the card fields changes validity |
| CartPage.MissingCardFieldsReadAsEmpty | restaurant-frontend/src/pages/CartPage/CartPage.tsx:42-44 | missing card fields give the same error map as empty ones |
| CartPage.InitialFormErrors | restaurant-frontend/src/pages/CartPage/CartPage_types.ts:16-29 | the initial form has errors on exactly the six required fields and the three card fields, so it is invalid |
| CartPage.CodFormExample | restaurant-frontend/src/pages/CartPage/CartPage.tsx:31-50 | a filled-in cash-on-delivery form without any card fields is valid |
| CartPage.Stepped | restaurant-frontend/src/pages/CartPage/CartPage.tsx:59-69 | definition of the two quantity buttons: find the line, then `addToCart` with the delta; characterised by `StepAbsentIsNoOp`, `IncrementSpec` and `DecrementSpec` |
| CartPage.StepAbsentIsNoOp | restaurant-frontend/src/pages/CartPage/CartPage.tsx:59-69 | a quantity button for an id not in the cart does nothing |
| CartPage.IncrementSpec | restaurant-frontend/src/pages/CartPage/CartPage.tsx:59-63 | `+` adds one unit to that line in place |
| CartPage.DecrementSpec | restaurant-frontend/src/pages/CartPage/CartPage.tsx:65-69 | `−` takes one unit off that line, and removes the line at its last unit |
| CartPage.IncrementAddsPrice | restaurant-frontend/src/pages/CartPage/CartPage.tsx:59-63 | `+` raises the subtotal by the line's unit price |
| CartPage.DecrementTakesPrice | restaurant-frontend/src/pages/CartPage/CartPage.tsx:65-69 | `−` lowers the subtotal by the line's unit price, also when it removes the line |
| CartPage.AllTouched | restaurant-frontend/src/pages/CartPage/CartPage.tsx:74-84 | the nine fields `placeOrder` marks as touched, each `true`; `PlaceOrder` ensures `touched` becomes it |
| CartPage.CheckoutPage.constructor | restaurant-frontend/src/pages/CartPage/CartPage.tsx:16-19 | the page starts with the initial form, nothing touched, not submitting and no order |
| CartPage.CheckoutPage.ShownTotals | restaurant-frontend/src/pages/CartPage/CartPage.tsx:119-132 | the summary shows the totals of the cart as it is now, all zero for the empty cart |
| CartPage.CheckoutPage.Increment | restaurant-frontend/src/pages/CartPage/CartPage.tsx:59-63 | the cart becomes `Stepped(cart, id, 1)`, and the store invariant is kept |
| CartPage.CheckoutPage.Decrement | restaurant-frontend/src/pages/CartPage/CartPage.tsx:65-69 | the cart becomes `Stepped(cart, id, -1)`, and the store invariant is kept |
| CartPage.CheckoutPage.PlaceOrder | restaurant-frontend/src/pages/CartPage/CartPage.tsx:72-101 | all nine fields are marked touched; an invalid form or an empty cart changes nothing else; otherwise the order id is set, the cart is emptied, submitting ends false, and the receipt holds the totals of the cart before it was cleared |
| CartPage.CheckoutPage.Reset | restaurant-frontend/src/pages/CartPage/CartPage.tsx:335-341 | the form returns to its defaults, touched is cleared and the cart is emptied; the order state is left alone |
| CartPage.ConfirmationTotalsLost | restaurant-frontend/src/pages/CartPage/CartPage.tsx:72-132 | for a store holding two pizzas and a burger and a valid cash-on-delivery form, placing the order leaves a receipt of 24.48 + 2.99 + 1.71 = 29.18, while the success screen's totals read 0 |
| DishDetails.DummyDishes | restaurant-frontend/src/components/DishDetails/DishDetails.tsx:16-22 | the five hard-coded dishes, prices in cents; their ids are stated by `DishIds` and `DishIdsUnique` |
| DishDetails.DishIds | restaurant-frontend/src/components/DishDetails/DishDetails.tsx:16-22 | the menu has five dishes with ids 1 to 5 |
| DishDetails.DishIdsUnique | restaurant-frontend/src/components/DishDetails/DishDetails.tsx:16-22 | no two dishes share an id |
| DishDetails.LookupDish | restaurant-frontend/src/components/DishDetails/DishDetails.tsx:23 | a dish is found exactly when the numeric route id is 1 to 5, and it is a menu dish with that id |
| DishDetails.LookupIsUnique | restaurant-frontend/src/components/DishDetails/DishDetails.tsx:16-23 | the dish found is the only menu dish with that id |
| DishDetails.AddDishInsertsOrIncrements | restaurant-frontend/src/components/DishDetails/DishDetails.tsx:12-40 | on a well-formed cart, "Add to Cart" appends a line holding the dish's id, name and price and quantity 1 when the dish is absent; otherwise it adds one unit to the existing line in place |
| DishDetails.DishPage.constructor | restaurant-frontend/src/components/DishDetails/DishDetails.tsx:10-24 | the page shows the dish that the lookup returns for its route id |
| DishDetails.DishPage.AddDishToCart | restaurant-frontend/src/components/DishDetails/DishDetails.tsx:26-40 | without a dish nothing changes; with one, the cart becomes `AddedToCart` of the payload, keeping the invariant |
| DishDetails.CartSidebar.constructor | restaurant-frontend/src/components/DishDetails/DishDetails.tsx:57-59 | the sidebar reads and updates the shared store |
| DishDetails.CartSidebar.Increment | restaurant-frontend/src/components/DishDetails/DishDetails.tsx:62-66 | the cart becomes `Stepped(cart, id, 1)`, and the invariant is kept |
| DishDetails.CartSidebar.Decrement | restaurant-frontend/src/components/DishDetails/DishDetails.tsx:68-72 | the cart becomes `Stepped(cart, id, -1)`, and the invariant is kept |
| DishDetails.CartSidebar.Total | restaurant-frontend/src/components/DishDetails/DishDetails.tsx:74 | the sidebar total equals the checkout page's subtotal for the same cart, and is 0 for the empty cart |
| Navbar.TotalItems | restaurant-frontend/src/components/Navbar.tsx:8-11 | definition of `totalItems` as the sum of the quantities; characterised by the `TotalItems` lemmas below |
| Navbar.ShowBadge | restaurant-frontend/src/components/Navbar.tsx:38 | definition of the badge condition `totalItems > 0`; characterised by `BadgeIffNonEmpty` |
| Navbar.TotalItemsEmpty | restaurant-frontend/src/components/Navbar.tsx:8-38 | the empty cart counts 0 items, and no badge is shown |
| Navbar.TotalItemsAppend | restaurant-frontend/src/components/Navbar.tsx:8-11 | the count of a cart is the sum of the counts of its parts, in either order |
| Navbar.TotalItemsAtLeastLines | restaurant-frontend/src/components/Navbar.tsx:8-11 | under the store invariant, the count is at least the number of lines |
| Navbar.BadgeIffNonEmpty | restaurant-frontend/src/components/Navbar.tsx:38 | under the store invariant, the badge shows exactly when the cart has a line |
| Navbar.TotalItemsAfterInsert | restaurant-frontend/src/components/Navbar.tsx:8-11 | adding a new dish raises the count by its quantity |
| Navbar.TotalItemsAfterUpdate | restaurant-frontend/src/components/Navbar.tsx:8-11 | adding to a line raises the count by the units added, or removes all of that line's units when it drops out |
| Navbar.TotalItemsAfterRemove | restaurant-frontend/src/components/Navbar.tsx:8-11 | removing a line takes all its units off the count |

## Left out

- Persistence of the store in browser storage under the key `shopping-cart` is left out (I/O). The model's store lives in memory.
- The parse of the route parameter is left out. `Number(id)` arrives already converted: `Some(n)` for an integer, `None` for anything else, such as `NaN` or a fraction.
- The form's `update` and `markTouched` handlers are plain one-key state updates, and are left out. So is the input markup that calls them.
- The errors appear on screen only for touched fields. That display rule is markup and is left out. `touched` itself is modelled.
- The one-second wait before an order is accepted is left out (a timer).
- The construction of the order id from `Date.now()` is left out (a clock). `PlaceOrder` takes the id as a parameter.
- `submitting` is modelled at the end of `PlaceOrder` only. The disabled button that shows while an order is pending is not modelled.
- Floating-point arithmetic is left out. Prices, line amounts and sums are exact integer cents. `toFixed(2)` rounds exact halves away from zero, whereas the original rounds the nearest binary double, which can differ at a half cent.
- `formatCurrency` and all the markup are left out (presentation).
- The backend, routing, login and registration are outside the modelled core.
- JavaScript strings are UTF-16 code units; Dafny strings are sequences of Unicode scalar values. Surrogate pairs are not modelled.
- CartPage.CheckoutPage.ShownTotals: states only what the screen shows for an empty cart. Beyond that its result is `OrderTotals` of the current cart, whose properties are proved on `OrderTotals`.

## Findings

| source | as written | input that shows it | evidently intended | confidence | as-written member | corrected member |
|---|---|---|---|---|---|---|
| restaurant-frontend/src/pages/CartPage/CartPage.tsx:98-132 | the success screen recomputes subtotal, delivery, tax and total from the cart, which `placeOrder` has just emptied | place an order for two Margherita pizzas and a cheeseburger: the order costs 29.18, yet the confirmation shows 0.00 for every amount | the confirmation shows the totals of the order just placed, taken before the cart is cleared | medium, not executed | CartPage.ConfirmationTotalsLost | CartPage.CheckoutPage.PlaceOrder |

In the corrected model, `PlaceOrder` stores the totals of the cart before clearing it in the page's `receipt` field. The method `CartPage.ConfirmationTotalsLost` builds a store with the sample order, fills in a valid cash-on-delivery form and places the order. After that the receipt holds 29.18, while the totals the success screen computes from the emptied cart are 0. `CartPage.CheckoutPage.ShownTotals` guarantees that a screen computed from the current cart shows zeros once the cart is empty.
