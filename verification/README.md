# Bites of South — cart pricing, redemption and order status, in Dafny

This project models the logic that sits inside the storefront's cart, reward
and order pages of the Bites of South restaurant web app: how a cart of lines
(ordinary menu items and free "redeemed" loyalty rewards) is loaded, priced,
discounted by a coupon, and changed by the +/- buttons; how a reward is
redeemed into the cart; how a paid order is validated, snapshotted and
charged in loyalty points; and how a stored order's progress is turned into
a percentage, a status line and a bill for the order views.

Everything is pure. The document store, client storage, the payment widget
and the sign-in state are replaced by parameters: the signed-in user's id
(`Option<string>`), the wallet balance when a wallet record exists
(`Option<int>`), the coupon list, the payment confirmation and the current
time. Money is `real` (exact rationals), points, quantities, making times and
timestamps are `int`, and letter case is compared through an ASCII
upper-casing of `seq<char>`.

Modules (one per component):

- `Wrappers` (`wrappers.dfy`): `Option` and `Result`.
- `CartModel` (`cart.dfy`): the cart line and the folds over a cart:
  subtotal, priced-line filter, total quantity, redeemed-line filter and the
  points owed.
- `CartStorage` (`cart_storage.dfy`): the load-time coercion of stored lines.
- `Pricing` (`pricing.dfy`): the cart's totals.
- `CartQuantity` (`quantity.dfy`): the +/- buttons.
- `Coupons` (`coupons.dfy`): which coupons are on offer, code lookup, the discount.
- `Rewards` (`rewards.dfy`): the reward listing and redemption.
- `Checkout` and `CheckoutProperties` (`checkout.dfy`): the payment guards and
  the pure part of saving an order.
- `OrderStatus` (`orders.dfy`): progress, status messages, the order bill and
  the newest-first history.
- `Flows` (`flows.dfy`): properties spanning several components.

Behaviours of the code that the model keeps as written:

- A coupon's expiry of 0 is falsy and is read as "never expires", like a
  missing one.
- Any `discountType` other than the exact text "percentage" gives a flat discount.
- The cap meant to keep the payable total positive makes the discount
  negative (-0.01) when the subtotal is 0. A cart of free redeemed lines with
  a matched coupon is then charged 0.01 (`Coupons.ZeroSubtotalCouponChargesOneCent`).
- Points are checked only when the order is saved, which happens after the
  payment has been captured. The payment guard does not look at points.
  Redemption checks one reward against the balance at a time, so a cart can
  owe more points than the wallet holds and still reach payment
  (`Flows.RedeemTwiceFailsOnlyAfterPayment`).
- Redemption does not debit points. The debit happens once, at checkout.
- A missing progress value is not read as 0: the code's clamp lets a
  non-number through. The model takes an already-parsed integer.

## Model

All source paths are under `FinalYearProject-Web/bites-of-south/src/`.

| member | source | states |
|---|---|---|
| CartModel.Subtotal | FinalYearProject-Web/bites-of-south/src/Cart.js:95-97 | The price × quantity sum is 0 for no lines and a single line's amount for one line; SubtotalAppend fixes it on longer carts (the same sum rebills an order, orders.js:74) |
| CartModel.SubtotalAppend | FinalYearProject-Web/bites-of-south/src/Cart.js:95-97 | The price × quantity fold is additive over concatenation of carts |
| CartModel.PricedLines | FinalYearProject-Web/bites-of-south/src/Cart.js:94 | The pricing filter keeps exactly the lines with price ≥ 0 and quantity > 0, no more lines than the cart |
| CartModel.PricedLinesAppend | FinalYearProject-Web/bites-of-south/src/Cart.js:94 | The pricing filter distributes over concatenation |
| CartModel.SubtotalOfPricedNonNegative | FinalYearProject-Web/bites-of-south/src/Cart.js:94-97 | The subtotal over priced lines is never negative |
| CartModel.RedeemedLines | FinalYearProject-Web/bites-of-south/src/Cart.js:175 | The redeemed filter keeps exactly the lines flagged redeemed |
| CartModel.TotalQuantity | FinalYearProject-Web/bites-of-south/src/Cart.js:163 | The quantity sum behind the no-items guard is 0 for an empty cart and the line's quantity for a single line; TotalQuantityAppend fixes it on longer carts |
| CartModel.TotalQuantityAtLeastLines | FinalYearProject-Web/bites-of-south/src/Cart.js:163-166 | With every quantity positive the quantity sum is at least the number of lines, so a non-empty cart of such lines passes the no-items guard |
| CartModel.TotalQuantityAppend | FinalYearProject-Web/bites-of-south/src/Cart.js:163 | The quantity sum is additive over concatenation of carts |
| CartModel.PointsOwed | FinalYearProject-Web/bites-of-south/src/Cart.js:175-178 | A cart with no redeemed line owes no points; a single redeemed line owes requiredPoints × quantity and an unredeemed one nothing; PointsOwedAppend makes the sum additive over longer carts |
| CartModel.PointsOwedAppend | FinalYearProject-Web/bites-of-south/src/Cart.js:175-178 | Points owed (requiredPoints × quantity over redeemed lines) add up over concatenation |
| CartStorage.SanitizeLine | FinalYearProject-Web/bites-of-south/src/Cart.js:50-59 | Each absent or falsy field takes its default (id "unknown", title "Unknown", price 0, quantity 1, making time 15, not redeemed, 0 points); each present truthy value is kept |
| CartStorage.Sanitize | FinalYearProject-Web/bites-of-south/src/Cart.js:49-60 | Loading keeps length and order, coerces each line, and yields only lines with non-empty id/title and non-zero quantity/making time |
| CartStorage.Store | FinalYearProject-Web/bites-of-south/src/Cart.js:122 | Writing the cart keeps its length and order and stores every field of every line (the same write follows a redemption, reward.js:98) |
| CartStorage.StoreRoundTrip | FinalYearProject-Web/bites-of-south/src/Cart.js:49-59 | Storing a cart and loading it back returns it unchanged if and only if every line is loadable |
| CartStorage.SanitizeIdempotent | FinalYearProject-Web/bites-of-south/src/Cart.js:49-59 | A loaded cart survives every later store-and-load unchanged |
| Pricing.CartTotals | FinalYearProject-Web/bites-of-south/src/Cart.js:84-107 | Empty cart: all totals and the discount are 0; otherwise subtotal ≥ 0, tax = subtotal/10, service = subtotal/20, grand total ≥ 0, positive exactly when the discount is below 1.15 × subtotal, and then equal to 1.15 × subtotal − discount |
| Pricing.ItemTotalIsPricedSubtotal | FinalYearProject-Web/bites-of-south/src/Cart.js:94-97 | The subtotal counts exactly the priced lines |
| Pricing.ItemTotalAdditive | FinalYearProject-Web/bites-of-south/src/Cart.js:94-97 | The subtotal of a cart is the sum of the subtotals of its parts |
| Pricing.TotalsFollowItemTotal | FinalYearProject-Web/bites-of-south/src/Cart.js:99-106 | For non-empty carts the totals depend only on the subtotal and the discount |
| Pricing.UnpricedLineAddsNothing | FinalYearProject-Web/bites-of-south/src/Cart.js:94 | Adding a line with negative price or non-positive quantity changes no total, for a non-empty cart and for an empty cart with its zero discount |
| Pricing.FreeLineAddsNothing | FinalYearProject-Web/bites-of-south/src/Cart.js:94-106 | Adding a free line changes no total, for a non-empty cart and for an empty cart with its zero discount |
| Pricing.ExampleTwoItemsAtHundred | FinalYearProject-Web/bites-of-south/src/Cart.js:94-106 | Two items at 100 give 200 / 20 / 10 / total 230 |
| CartQuantity.UpdateQuantity | FinalYearProject-Web/bites-of-south/src/Cart.js:109-124 | Never lengthens the cart; adjustable lines left in it have positive quantity; untouched lines come from the cart; no adjustable line means no change |
| CartQuantity.UpdateQuantityAppend | FinalYearProject-Web/bites-of-south/src/Cart.js:111-120 | The update acts on each part of a split cart independently, so order is preserved |
| CartQuantity.UpdateSingleLine | FinalYearProject-Web/bites-of-south/src/Cart.js:113-117 | The one matching non-redeemed line gets quantity q + d if that is positive, else is removed; all other lines keep their place |
| CartQuantity.RemoveByFullDecrement | FinalYearProject-Web/bites-of-south/src/Cart.js:115-116 | A change of −quantity or below removes the line and nothing else |
| CartQuantity.RedeemedLineIsFrozen | FinalYearProject-Web/bites-of-south/src/Cart.js:114 | Pressing +/- with a redeemed line's id keeps every redeemed line of the cart, for every delta; when no non-redeemed line shares that id the whole cart is unchanged |
| CartQuantity.UpdateQuantityInverse | FinalYearProject-Web/bites-of-south/src/Cart.js:109-124 | A change followed by its opposite restores the cart when quantities stay positive |
| CartQuantity.UpdateKeepsRedeemedLines | FinalYearProject-Web/bites-of-south/src/Cart.js:113-120 | The redeemed lines come out identical and in the same order |
| CartQuantity.UpdateKeepsPointsOwed | FinalYearProject-Web/bites-of-south/src/Cart.js:109-124 | The points a checkout will debit are unchanged by any quantity change |
| CartQuantity.UpdateKeepsOneRedeemedPerId | FinalYearProject-Web/bites-of-south/src/Cart.js:109-124 | The one-redeemed-line-per-id invariant holds after a quantity change exactly when it held before |
| Coupons.AvailableCoupons | FinalYearProject-Web/bites-of-south/src/Cart.js:69-74 | A coupon is offered if and only if it is fetched, unexpired (no expiry, expiry 0, or expiry > now) and uses < usesTillValid; the fetched order is kept (AvailableCouponsAppend) |
| Coupons.Upper | FinalYearProject-Web/bites-of-south/src/Cart.js:134 | Upper-casing keeps length and maps each ASCII lower-case letter to upper case |
| Coupons.UpperIdempotent | FinalYearProject-Web/bites-of-south/src/Cart.js:134 | Upper-casing is idempotent and every code matches its upper-case form |
| Coupons.AvailableCouponsAppend | FinalYearProject-Web/bites-of-south/src/Cart.js:69-74 | The coupon filter distributes over concatenation, so coupons on offer keep their fetched order |
| Coupons.LookupTakesFirstAvailableMatch | FinalYearProject-Web/bites-of-south/src/Cart.js:134 | Looking up a code among the coupons on offer (filtered at Cart.js:69-74) finds nothing exactly when no fetched coupon is both available and matching, and otherwise finds the first such coupon in fetched order |
| Coupons.FindCoupon | FinalYearProject-Web/bites-of-south/src/Cart.js:134 | Finds nothing if and only if no id matches case-insensitively; otherwise the first matching coupon |
| Coupons.ApplyCoupon | FinalYearProject-Web/bites-of-south/src/Cart.js:127-152 | Empty code or no match: discount 0 with the matching message; match: percentage or flat discount, capped to subtotal − 0.01 when not below the subtotal, so always strictly below it |
| Coupons.MatchedCouponIsAvailable | FinalYearProject-Web/bites-of-south/src/Cart.js:69-74 | A matched coupon is fetched, available and matches the code |
| Coupons.NoCouponsNoDiscount | FinalYearProject-Web/bites-of-south/src/Cart.js:134-139 | With no coupons loaded every code gives discount 0 |
| Coupons.PercentageCappedIffAtLeastHundred | FinalYearProject-Web/bites-of-south/src/Cart.js:141-145 | On a positive subtotal a percentage coupon is capped exactly when its value is ≥ 100 |
| Coupons.MatchedCouponKeepsTotalPositive | FinalYearProject-Web/bites-of-south/src/Cart.js:141-151 | After a matched coupon the grand total of a non-empty cart is strictly positive (an empty cart's totals are all zero) |
| Coupons.ZeroSubtotalCouponChargesOneCent | FinalYearProject-Web/bites-of-south/src/Cart.js:145-147 | With subtotal 0 a matched non-negative coupon sets the discount to −0.01 and the total to 0.01 |
| Coupons.ExampleFlatCouponCapped | FinalYearProject-Web/bites-of-south/src/Cart.js:141-147 | Flat 250 on a 200 subtotal caps at 199.99; the total becomes 30.01 |
| Rewards.ResolveMenuItems | FinalYearProject-Web/bites-of-south/src/reward.js:33-43 | Resolved items are exactly the ids that have a menu document, each carrying that document's fields |
| Rewards.ListRewards | FinalYearProject-Web/bites-of-south/src/reward.js:28-52 | A reward is listed if and only if at least one of its menu items resolves; every listed reward comes from a document |
| Rewards.NonArrayMenuIdsNotListed | FinalYearProject-Web/bites-of-south/src/reward.js:32 | A non-array menuItemId gives no menu items, so the reward is not listed |
| Rewards.RewardMakingTime | FinalYearProject-Web/bites-of-south/src/reward.js:93 | The redeemed line's making time is the maximum of the menu items' making times, each defaulting to 15 |
| Rewards.Redeem | FinalYearProject-Web/bites-of-south/src/reward.js:66-100 | Rejects with no user, with balance < required points (missing counts 0), or with a redeemed line of that id present; otherwise appends exactly one free, one-unit, redeemed line carrying the points, keeping existing lines |
| Rewards.AlreadyRedeemedIffInRedeemedLines | FinalYearProject-Web/bites-of-south/src/reward.js:81 | The duplicate check holds exactly when the id is among the redeemed lines |
| Rewards.RedeemKeepsOneRedeemedPerId | FinalYearProject-Web/bites-of-south/src/reward.js:80-97 | Redemption preserves "at most one redeemed line per id" |
| Rewards.RedeemDefersDebit | FinalYearProject-Web/bites-of-south/src/reward.js:86-97 | Redemption debits nothing; the points owed at checkout grow by exactly the reward's requirement |
| Rewards.RedeemKeepsTotals | FinalYearProject-Web/bites-of-south/src/reward.js:87-96 | A redeemed reward leaves the bill unchanged, for a non-empty cart and for an empty cart with its zero discount |
| Checkout.PaymentGuard | FinalYearProject-Web/bites-of-south/src/Cart.js:249-256 | Payment is blocked as empty exactly when the total is ≤ 0 and nothing is redeemed, else for a dine-in order with no table number, else it proceeds |
| Checkout.RoundedShare | FinalYearProject-Web/bites-of-south/src/Cart.js:202 | A line's making-time share is an integer within one half of m / q, halves rounded up |
| Checkout.UserId | FinalYearProject-Web/bites-of-south/src/Cart.js:162 | The id an order is filed under is never empty |
| Checkout.UserIdFallsBackToGuest | FinalYearProject-Web/bites-of-south/src/Cart.js:162 | The order is filed under the guest id exactly when nobody is signed in, the id is empty or it is literally "guest"; otherwise under the signed-in user's own id |
| Checkout.RoundedShareInIntegers | FinalYearProject-Web/bites-of-south/src/Cart.js:202 | round(m / q) equals (2m + q) div 2q for q > 0 |
| Checkout.Snapshot | FinalYearProject-Web/bites-of-south/src/Cart.js:197-205 | One stored line per cart line, in order |
| Checkout.MaxMakingTime | FinalYearProject-Web/bites-of-south/src/Cart.js:211 | The order's making time bounds every stored line's and equals one of them |
| Checkout.BuildOrder | FinalYearProject-Web/bites-of-south/src/Cart.js:195-229 | The order copies id, title, price, quantity and redeemed flag of every line, zeroes points on non-redeemed lines, rounds each making time to its share, seeds progress "25", and copies table, instructions (or "No instructions provided"), coupon code, gateway order id (or "order_client_generated") and amount in paise, with currency "INR", status "captured", captured set, and the payment time from its own clock reading |
| Checkout.SaveOrder | FinalYearProject-Web/bites-of-south/src/Cart.js:160-241 | Fails with no items if and only if total quantity is 0, with an invalid item if and only if a line lacks id or title, with insufficient points if and only if a signed-in user's existing wallet holds less than the points owed; on success stores the snapshot of the cart with the user id, amount, discount and time, and debits exactly the points owed, only for that case, leaving a non-negative balance |
| Checkout.CompleteCheckout | FinalYearProject-Web/bites-of-south/src/Cart.js:271-283 | The payment callback runs exactly the save of the cart; when that save succeeds the cart is emptied, and when it fails the cart is left as it was |
| CheckoutProperties.SavedOrderIsBuilt | FinalYearProject-Web/bites-of-south/src/Cart.js:195-231 | A successful save writes exactly the record BuildOrder describes |
| CheckoutProperties.SnapshotKeepsSubtotal | FinalYearProject-Web/bites-of-south/src/Cart.js:197-205 | The stored items have the same price × quantity subtotal as the cart |
| CheckoutProperties.GuestNeverDebited | FinalYearProject-Web/bites-of-south/src/Cart.js:181 | A guest checkout never fails for points and never changes a wallet |
| CheckoutProperties.MissingWalletNeverDebited | FinalYearProject-Web/bites-of-south/src/Cart.js:185-192 | With no wallet record the checkout never fails for points and debits nothing |
| CheckoutProperties.ExampleInsufficientPoints | FinalYearProject-Web/bites-of-south/src/Cart.js:185-189 | A 50-point reward against 30 points fails with insufficient points |
| CheckoutProperties.ExampleRoundedShare | FinalYearProject-Web/bites-of-south/src/Cart.js:202 | A making time of 15 over 2 units is stored as 8 |
| OrderStatus.Progress | FinalYearProject-Web/bites-of-south/src/orders.js:39-40 | Progress lies in [0, 100], equals the input inside it and saturates outside |
| OrderStatus.HistoryStatus | FinalYearProject-Web/bites-of-south/src/orders.js:38-54 | In progress exactly below 100, with "Cooking in Progress" / "Packing Your Order"; otherwise progress 100 with "Delivered to Table" / "Order Delivered" |
| OrderStatus.DetailProgress | FinalYearProject-Web/bites-of-south/src/OrderDetails.js:12-27 | 0 before the first snapshot, then the latest snapshot's clamped progress |
| OrderStatus.DetailMessage | FinalYearProject-Web/bites-of-south/src/OrderDetails.js:40-45 | "Preparing..." without data; dine-in "Cooking in Progress" / "Ready to Serve"; otherwise "Packing Your Order" / "Order Packed" |
| OrderStatus.ViewsAgreeOnProgress | FinalYearProject-Web/bites-of-south/src/orders.js:38-54 | The history and single-order views agree on in-progress, progress and message while an order is being prepared |
| OrderStatus.ExampleProgress | FinalYearProject-Web/bites-of-south/src/orders.js:38-47 | Seed 25 dine-in shows 25% "Cooking in Progress"; 150 shows as 100 |
| OrderStatus.BillOf | FinalYearProject-Web/bites-of-south/src/orders.js:74-77 | The order views' bill (also OrderDetails.js lines 55-58) is the unfiltered subtotal, tax 1/10, service 1/20, total 1.15 × subtotal, with no discount |
| OrderStatus.PrependNewest | FinalYearProject-Web/bites-of-south/src/orders.js:30 | Prepending an order no older than the rest keeps a list newest first |
| OrderStatus.InsertByTimestamp | FinalYearProject-Web/bites-of-south/src/orders.js:30 | Insertion keeps a list newest first and adds exactly the one order |
| OrderStatus.SortNewestFirst | FinalYearProject-Web/bites-of-south/src/orders.js:30 | The history is a permutation of the fetched orders with non-increasing timestamps |
| Flows.LoadedCartPassesItemCheck | FinalYearProject-Web/bites-of-south/src/Cart.js:169-173 | A loaded cart never fails the save's id/title check |
| Flows.OrderBillIgnoresDiscount | FinalYearProject-Web/bites-of-south/src/orders.js:74-77 | For a cart whose every line is priced (non-negative price, positive quantity) and an order paid at its positive total, the order views print the amount paid plus the discount |
| Flows.BillOfSavedCart | FinalYearProject-Web/bites-of-south/src/orders.js:74 | When every line is priced, the order views' subtotal of a saved order equals the cart's subtotal |
| Flows.AllPricedIsIdentity | FinalYearProject-Web/bites-of-south/src/Cart.js:94 | When every line is priced the pricing filter keeps the whole cart |
| Flows.GuardFollowsTotals | FinalYearProject-Web/bites-of-south/src/Cart.js:249-252 | Against the cart's own grand total, the payment is refused as empty exactly when nothing is redeemed and the cart has no lines or the discount covers the whole surcharged subtotal |
| Flows.RedeemTwiceOnFiftyPoints | FinalYearProject-Web/bites-of-south/src/reward.js:73-97 | Two 50-point rewards redeemed in turn on 50 points both succeed and leave two free redeemed lines owing 100 points |
| Flows.RedeemTwiceFailsOnlyAfterPayment | FinalYearProject-Web/bites-of-south/src/reward.js:73-97 | Two 50-point rewards redeemed on 50 points both succeed, pass the payment guard, and the save then fails for points |

## Left out

- Store reads and writes, live subscriptions, sign-in listeners, client storage, navigation, alerts and all rendering are I/O and UI. Their inputs are parameters.
- The race between two checkouts that both pass the points check, and the order write followed by a separate debit, are concurrency and store transactions. The save is one sequential function.
- The payment widget, its callbacks and the widget-unavailable guard belong to a foreign SDK. The stored payment record keeps the payment id, gateway order id, amount, currency, status, captured flag and time; the refund fields and the test-mode flag are constants the model does not carry.
- The clock is read twice while saving an order, once for the order's timestamp and once for the payment record. Both readings are inputs (`now`, and `paidAt` in the confirmation) and the model assumes no relation between them.
- Floating-point behaviour and two-decimal display formatting are left out; money is exact.
- NaN from parsing a malformed progress value, and fields of the wrong type in stored documents, are left out. Status functions take a parsed integer.
- `selectCoupon` depends on React state-update timing (it applies the previous code).
- The unused module-level reward fetch in Cart.js and the error-message matching of the payment handler are not modelled.
- The image field of cart lines and menu items is display-only.
- Adding menu items to the cart from the menu page is not part of this model.
- Increments of a coupon's use counter are made by another collaborator.
- In a reward listing, a reward document field named `id` that would override the document id is not modelled.
- Coupons.Upper: upper-cases ASCII letters only, where the source's `toUpperCase` also maps other Unicode letters.
- Rewards.Redeem: requires at least one menu item. The source computes `Math.max` of an empty list, -Infinity, which is not an integer. `Rewards.ListRewards` only lists rewards with at least one item.
- OrderStatus.SortNewestFirst: does not state that orders with equal timestamps keep their fetched order, although the source's sort is stable, because the order store does not fix the order in which it returns orders, so the relative order of orders with equal timestamps is not determined by the source in the first place.
