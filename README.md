# service-pay-log in Dafny

This is a verified model of the logic inside the service-pay-log storefront. The storefront sells
Mobile Legends diamond top-ups. The model covers five parts:

- **The catalog** (`Catalog`): the 30 diamond packs and passes, and the category list derived
  from them by first-occurrence deduplication.
- **The record types** (`Types`) that the pages share, including the closed order-status enum
  and the way its names are parsed back.
- **The checkout sidebar** (`Checkout`):
  - the three-entry coupon table;
  - the percentage or capped-fixed discount, and the final amount;
  - coupon validation and removal;
  - the submit gate that decides whether an order payload is emitted.

  The form's state is the class `Checkout.CheckoutForm`. Its fields are the ones the component
  keeps in React state.
- **The admin console** (`Admin`):
  - the local status rewrite after a successful database update, with the database's answer
    passed in as a parameter;
  - the per-status counts and the completed-only revenue;
  - the status badge;
  - the guards on the "Start Processing" and "Mark Complete" buttons.

  The loaded order list and the order whose details dialog was last opened are the fields of
  `Admin.AdminConsole`.
- **The home page** (`Home`):
  - the catalog filter by category and by case-insensitive search text;
  - selecting a service;
  - the early return of the payment handler.

  The page state is `Home.HomePage`.

`Text` models the JavaScript string operations these use:

- `toLowerCase` and `toUpperCase` over ASCII;
- `trim`, with the ECMAScript whitespace set;
- `includes`, as a substring search.

Money follows the code:

- Prices are integers.
- Discounts and final amounts are exact reals, because the code never rounds `price * pct / 100`.
- `Checkout.CatalogDiscountInQuarterRupees` shows why using reals is sound here. Every discount
  a table coupon gives on a catalog price is a whole number of quarter rupees. A binary
  floating-point number holds such a value exactly.

## Behaviour worth knowing

The model follows the code, including where it differs from what a storefront of this kind is
usually expected to do.

- **No rounding.** `calculateDiscount` does not round a percentage discount to whole rupees
  (src/components/CheckoutSidebar.tsx:59-60). For example, WELCOME10 on the 15-rupee pack gives
  a discount of 1.5 (`Checkout.SmallestPackWithWelcome10`).
- **No status lifecycle.** The usual order lifecycle runs pending, then processing, then
  completed, with cancellation allowed before completion, and completed and cancelled final.
  The code enforces none of this.
  - `updateOrderStatus` writes any of the four statuses without checking
    (src/pages/AdminPage.tsx:122-151).
  - The only guards are on the buttons. "Mark Complete" is offered for cancelled orders
    (`Admin.StatusActions`, `Admin.CancelledOrderCanBeCompleted`).
- **A stale dialog.** The order dialog works on the copy of the order taken when it was opened
  (src/pages/AdminPage.tsx:353), and a status update rewrites only the list. Suppose a pending
  order is completed from its dialog. The dialog still shows it pending and keeps "Start
  Processing" enabled, which moves the completed order back to processing
  (`Admin.StaleDialogReopensCompleted`).
- **No `updatedAt` change.** A status change rewrites only `status` (`Admin.WithStatus`); the
  local `updated_at` is left as loaded.
- **Untrimmed coupon lookup.** `validateCoupon` checks the trimmed code only to decide whether
  to run. It then looks up the untrimmed, uppercased input. So " SAVE500" is rejected
  (`Checkout.ApplyCouponPadded`).

## Data

The records and constants are not functions or lemmas, so they have no row in the table under
"## Model". Each one below names the source it models and the lemmas that state its contents.

| declaration | source | models |
|---|---|---|
| `Types.Service` | src/types/index.ts:1-9 | a catalog entry; whole-rupee `price`, `originalPrice` optional |
| `Types.CartItem` | src/types/index.ts:11-14 | a service with a quantity |
| `Types.CustomerDetails` | src/types/index.ts:16-21 | name, email and phone, with `additionalInfo` optional |
| `Types.CouponType` | src/types/index.ts:26 | the two coupon kinds, percentage and fixed, as an enum |
| `Types.CouponCode` | src/types/index.ts:23-28 | a coupon; the source's `type` field is `kind` |
| `Types.OrderStatus`, `Types.StatusName` | src/types/index.ts:38 | the four-status union, as an enum with the string each status is stored as (`Types.StatusNameRoundTrip`) |
| `Types.Order` | src/types/index.ts:30-42 | a storefront order; money fields are reals |
| `Types.PaymentDetails` | src/types/index.ts:44-51 | a payment's identifiers and amount |
| `Catalog.SmallPackEntries` | src/data/services.ts:5-44 | the small packs, in listing order, field for field |
| `Catalog.NormalPackEntries` | src/data/services.ts:46-149 | the normal packs, in listing order, field for field |
| `Catalog.BigPackEntries` | src/data/services.ts:151-230 | the big packs, in listing order, field for field |
| `Catalog.PassEntries` | src/data/services.ts:232-247 | the two passes, field for field |
| `Catalog.Services` | src/data/services.ts:3-248 | the exported `services`: the 30 entries of the four groups in listing order; stated by `Catalog.CatalogIdsDistinct`, `Catalog.CatalogPricesPositive`, `Catalog.CatalogPricesIncreaseWithinCategory`, `Catalog.CatalogIdsMatchNames` and `Catalog.CatalogCategories` |
| `Checkout.Welcome10`, `Checkout.Save500`, `Checkout.NewUser` | src/components/CheckoutSidebar.tsx:42-46 | the three `validCoupons` entries (`Checkout.CouponTable`) |
| `Checkout.CouponOutcome` | src/components/CheckoutSidebar.tsx:72-93 | whether validation ignored the entry, applied a coupon or rejected it |
| `Checkout.OrderPayload` | src/components/CheckoutSidebar.tsx:16-23 | the object handed to `onProceedToPayment`, with the coupon code optional |
| `Checkout.Submission` | src/components/CheckoutSidebar.tsx:103-132 | one of the two refusals of `handleSubmit`, or the payload |
| `Admin.DatabaseOrder` | src/pages/AdminPage.tsx:35-49 | an `orders` row; the status is a plain string, the optional columns are `Option`s |
| `Admin.UpdateOutcome` | src/pages/AdminPage.tsx:140-149 | the toast after a status update: the new status, or the failure message |
| `Admin.OrderStats` | src/pages/AdminPage.tsx:199 | the object `getOrderStats` returns |
| `Admin.BadgeConfig`, `Admin.Badge` | src/pages/AdminPage.tsx:172-186 | a `statusConfig` entry, and the badge with its caption |

## Model

| member | source | states |
|---|---|---|
| Types.ParseStatus | src/types/index.ts:38 | a recognised status name maps back to that name |
| Types.StatusNameRoundTrip | src/types/index.ts:38 | the status enum and its four names round-trip; exactly the four names parse |
| Text.ToLower | src/pages/HomePage.tsx:23-24 | lowering keeps the length and maps every character through the ASCII lower-case map |
| Text.ToUpper | src/components/CheckoutSidebar.tsx:79 | upper-casing keeps the length and maps every character through the ASCII upper-case map |
| Text.TrimStart | src/components/CheckoutSidebar.tsx:72 | the result is a suffix of the input; what was dropped is all whitespace; the result does not start with whitespace |
| Text.TrimEnd | src/components/CheckoutSidebar.tsx:72 | the result is a prefix of the input; what was dropped is all whitespace; the result does not end with whitespace |
| Text.Trim | src/components/CheckoutSidebar.tsx:72 | `trim()`: no longer than the input, and neither starting nor ending with whitespace |
| Text.TrimIsStretch | src/components/CheckoutSidebar.tsx:72 | what `trim()` keeps occurs in the input with nothing but whitespace before and after it |
| Text.TrimEmptyIffBlank | src/components/CheckoutSidebar.tsx:72 | `trim()` gives the empty string exactly when the input is all whitespace (the empty string included) |
| Text.Contains | src/pages/HomePage.tsx:23-24 | `includes`: the empty query is found in every text, and no query longer than the text is found |
| Text.ContainsIffOccurs | src/pages/HomePage.tsx:23-24 | `includes` holds exactly when the query occurs at some position of the text |
| Catalog.CategoryColumn | src/data/services.ts:250 | `services.map(s => s.category)`: same length, each entry that service's category |
| Catalog.InsertAll | src/data/services.ts:250 | adding strings to a `Set` one by one, each only if absent; what this keeps is stated by `Catalog.InsertAllSpec` |
| Catalog.InsertAllSpec | src/data/services.ts:250 | first-occurrence deduplication keeps what it had as a prefix, adds no duplicate, and holds exactly the old entries and the inserted ones |
| Catalog.CategoriesOf | src/data/services.ts:250 | `Array.from(new Set(services.map(s => s.category)))`, stated by `Catalog.CategoriesSpec` |
| Catalog.Categories | src/data/services.ts:250 | the exported `categories` of the catalog, stated by `Catalog.CatalogCategories` |
| Catalog.CategoriesSpec | src/data/services.ts:250 | the derived category list has no duplicates, and a string is in it exactly when some service has that category |
| Catalog.InsertAllPresent | src/data/services.ts:250 | inserting strings already present changes nothing |
| Catalog.InsertAllAppend | src/data/services.ts:250 | inserting two lists one after the other is inserting their concatenation |
| Catalog.InsertGroup | src/data/services.ts:250 | a non-empty group of one category contributes exactly that category |
| Catalog.CategoryColumnAppend | src/data/services.ts:250 | the category column of a concatenation is the concatenation of the columns |
| Catalog.CategoriesOfGroups | src/data/services.ts:250 | four non-empty groups of four different categories give those four categories, in order |
| Catalog.GroupCategories | src/data/services.ts:3-248 | each of the four listing groups lies wholly in its own category |
| Catalog.CatalogCategories | src/data/services.ts:250 | `categories` is exactly Small Packs, Normal Packs, Big Packs, Passes |
| Catalog.IdsDistinctAppend | src/data/services.ts:3-248 | joining two id-distinct lists with no shared id gives an id-distinct list |
| Catalog.IdsApartAppend | src/data/services.ts:3-248 | two lists that each share no id with a third, together share none |
| Catalog.SmallPackIdsDistinct | src/data/services.ts:5-44 | the small packs' ids are pairwise distinct |
| Catalog.NormalPackIdsDistinct | src/data/services.ts:46-149 | the normal packs' ids are pairwise distinct |
| Catalog.BigPackIdsDistinct | src/data/services.ts:151-230 | the big packs' ids are pairwise distinct |
| Catalog.PassIdsDistinct | src/data/services.ts:232-247 | the two passes have different ids |
| Catalog.SmallPackIdsApart | src/data/services.ts:3-248 | no small pack shares an id with a normal pack, a big pack or a pass |
| Catalog.NormalPackIdsApart | src/data/services.ts:3-248 | no normal pack shares an id with a big pack or a pass |
| Catalog.BigPackIdsApart | src/data/services.ts:151-247 | no big pack shares an id with a pass |
| Catalog.CatalogIdsDistinct | src/data/services.ts:3-248 | the catalog has exactly 30 entries, with pairwise distinct ids |
| Catalog.PlainPricesAppend | src/data/services.ts:3-248 | positive prices that are multiples of 5, with no original price, survive concatenation |
| Catalog.SmallPackPricesPlain | src/data/services.ts:5-44 | every small pack has a positive price that is a multiple of 5, and no original price |
| Catalog.NormalPackPricesPlain | src/data/services.ts:46-149 | every normal pack has a positive price that is a multiple of 5, and no original price |
| Catalog.BigPackPricesPlain | src/data/services.ts:151-230 | every big pack has a positive price that is a multiple of 5, and no original price |
| Catalog.PassPricesPlain | src/data/services.ts:232-247 | both passes have a positive price that is a multiple of 5, and no original price |
| Catalog.CatalogPricesPositive | src/data/services.ts:3-248 | every catalog price is a positive multiple of 5, and no entry carries `originalPrice` |
| Catalog.AdjacentToPairwise | src/data/services.ts:3-248 | prices rising from each entry to the next rise between any two entries |
| Catalog.GroupIncreasing | src/data/services.ts:3-248 | a list whose prices rise entry by entry has prices increasing within each category |
| Catalog.IncreasingAppend | src/data/services.ts:3-248 | two lists increasing within each category, with no category in common, stay so when joined |
| Catalog.CategoriesApartAppend | src/data/services.ts:3-248 | two lists that each share no category with a third, together share none |
| Catalog.IncreasingOfGroups | src/data/services.ts:3-248 | four groups with rising prices, in four different categories, are increasing within each category once joined |
| Catalog.GroupsAdjacentIncreasing | src/data/services.ts:3-248 | within each listing group, each price is below the next |
| Catalog.CatalogPricesIncreaseWithinCategory | src/data/services.ts:3-248 | within each category, prices strictly increase in listing order |
| Catalog.AllNamedAfterIdAppend | src/data/services.ts:5-229 | two lists whose `diamonds-N` entries are named `N Diamonds` stay so when joined |
| Catalog.SmallPacksNamedAfterIds | src/data/services.ts:5-44 | each small pack with id `diamonds-N` is named `N Diamonds` |
| Catalog.NormalPacksNamedAfterIdsA | src/data/services.ts:46-85 | as above, for the first five normal packs |
| Catalog.NormalPacksNamedAfterIdsB | src/data/services.ts:86-117 | as above, for normal packs six to nine |
| Catalog.NormalPacksNamedAfterIdsC | src/data/services.ts:118-149 | as above, for the last four normal packs |
| Catalog.BigPacksNamedAfterIdsA | src/data/services.ts:151-182 | as above, for the first four big packs |
| Catalog.BigPacksNamedAfterIdsB | src/data/services.ts:183-206 | as above, for big packs five to seven |
| Catalog.BigPacksNamedAfterIdsC | src/data/services.ts:207-230 | as above, for the last three big packs |
| Catalog.PassesNamedAfterIds | src/data/services.ts:232-247 | neither pass has a `diamonds-` id, so neither breaks the naming rule |
| Catalog.CatalogIdsMatchNames | src/data/services.ts:5-229 | each catalog id `diamonds-N` belongs to the entry named `N Diamonds` |
| Checkout.LookupCoupon | src/components/CheckoutSidebar.tsx:42-46 | exactly WELCOME10, SAVE500 and NEWUSER are found; each is found under its own code and is valid |
| Checkout.LookupIsTableEntry | src/components/CheckoutSidebar.tsx:42-46 | looking up a found coupon's code finds the same coupon |
| Checkout.TableCouponsWellFormed | src/components/CheckoutSidebar.tsx:42-46 | every table coupon is well formed (a percentage within 0..100 or a non-negative fixed amount); a table coupon is a percentage exactly when its amount is 10 or 15 |
| Checkout.CouponTable | src/components/CheckoutSidebar.tsx:42-46 | WELCOME10 is 10 percent, SAVE500 is a fixed 500 rupees, NEWUSER is 15 percent, each valid and keyed by its own code |
| Checkout.PercentOf | src/components/CheckoutSidebar.tsx:60 | `price * pct / 100` exactly, with no rounding; it lies within 0..price when the percentage does within 0..100 |
| Checkout.Discount | src/components/CheckoutSidebar.tsx:56-64 | 0 with no coupon or no service; a percentage gives exactly `price * pct / 100`; a fixed coupon gives the smaller of amount and price; a well-formed coupon gives 0 ≤ discount ≤ price |
| Checkout.FinalAmount | src/components/CheckoutSidebar.tsx:66-69 | 0 with no service; otherwise final amount plus discount is the price; no coupon gives the price; a well-formed coupon keeps it within 0..price |
| Checkout.TableFinalAmountWithinPrice | src/components/CheckoutSidebar.tsx:42-69 | for any code looked up in the table, the final amount of a non-negative price lies within 0..price |
| Checkout.CatalogFinalAmountWithinPrice | src/components/CheckoutSidebar.tsx:42-69 | for any catalog service and any code, the final amount lies within 0..price |
| Checkout.QuarterRupees | src/components/CheckoutSidebar.tsx:56-64 | on a non-negative price that is a multiple of 5, every table discount is a whole number of quarter rupees |
| Checkout.CatalogDiscountInQuarterRupees | src/components/CheckoutSidebar.tsx:56-64 | every table discount on a catalog service is a whole number of quarter rupees |
| Checkout.CouponExamples | src/components/CheckoutSidebar.tsx:56-69 | price 25000 with WELCOME10: discount 2500, final 22500; 700 with SAVE500: final 200; 300 with SAVE500: final 0 |
| Checkout.SmallestPackWithWelcome10 | src/components/CheckoutSidebar.tsx:59-60 | the 15-rupee pack with WELCOME10 has a discount of 1.5 and a final amount of 13.5 |
| Checkout.ApplyCoupon | src/components/CheckoutSidebar.tsx:71-96 | a blank entry keeps the applied coupon; a change is always the table entry found under the uppercased entry; an unknown code keeps the applied coupon |
| Checkout.ValidationOutcome | src/components/CheckoutSidebar.tsx:72-93 | which of the three things validation does: nothing for a blank entry, the "Coupon Applied!" branch for a table hit, the "Invalid Coupon" branch otherwise; stated by `Checkout.ValidationOutcomeAgrees` |
| Checkout.ValidationOutcomeAgrees | src/components/CheckoutSidebar.tsx:71-96 | validation is ignored exactly for blank entries; "applied" yields the uppercased entry's table coupon and is what the applied coupon becomes; "rejected" keeps the applied coupon |
| Checkout.ApplyCouponIdempotent | src/components/CheckoutSidebar.tsx:79-82 | validating the same code twice gives the same state as once |
| Checkout.ApplyCouponHit | src/components/CheckoutSidebar.tsx:79-82 | a non-blank entry whose uppercased form is in the table applies that table entry |
| Checkout.UpperWelcome | src/components/CheckoutSidebar.tsx:79 | "welcome10" uppercases to "WELCOME10" |
| Checkout.TrimWelcome | src/components/CheckoutSidebar.tsx:72 | "welcome10" is its own trim |
| Checkout.ApplyCouponLowerCase | src/components/CheckoutSidebar.tsx:71-96 | entering "welcome10" applies WELCOME10 |
| Checkout.TrimPadded | src/components/CheckoutSidebar.tsx:72 | " SAVE500" trims to "SAVE500", so validation goes ahead |
| Checkout.UpperPadded | src/components/CheckoutSidebar.tsx:79 | the untrimmed, uppercased " SAVE500" is not in the table |
| Checkout.ApplyCouponPadded | src/components/CheckoutSidebar.tsx:71-96 | " SAVE500" applies no coupon, because the lookup uses the untrimmed input |
| Checkout.ApplyCouponBlank | src/components/CheckoutSidebar.tsx:72 | an all-blank entry leaves an applied NEWUSER in place |
| Checkout.CodeOf | src/components/CheckoutSidebar.tsx:130 | `appliedCoupon?.code`: a code exactly when a coupon is applied, and then that coupon's code |
| Checkout.CheckoutForm.constructor | src/components/CheckoutSidebar.tsx:29-39 | every text field is empty, no coupon is applied, and no validation is in flight |
| Checkout.CheckoutForm.SetGameId | src/components/CheckoutSidebar.tsx:178 | the game id becomes the typed value |
| Checkout.CheckoutForm.SetServer | src/components/CheckoutSidebar.tsx:189 | the server becomes the typed value |
| Checkout.CheckoutForm.SetPhone | src/components/CheckoutSidebar.tsx:201 | only the phone of the customer details changes |
| Checkout.CheckoutForm.SetCustomerName | src/components/CheckoutSidebar.tsx:212 | only the name of the customer details changes |
| Checkout.CheckoutForm.SetEmail | src/components/CheckoutSidebar.tsx:223 | only the email of the customer details changes |
| Checkout.CheckoutForm.SetAdditionalInfo | src/components/CheckoutSidebar.tsx:233 | only the additional info of the customer details changes |
| Checkout.CheckoutForm.SetCouponCode | src/components/CheckoutSidebar.tsx:249 | the coupon entry becomes the typed value |
| Checkout.CheckoutForm.ValidateCoupon | src/components/CheckoutSidebar.tsx:71-96 | the applied coupon becomes `ApplyCoupon` of the old one and the entry; the outcome is ignored, applied or rejected as the entry decides; once validation has run, the in-flight flag is false; the applied coupon stays a table entry |
| Checkout.CheckoutForm.RemoveCoupon | src/components/CheckoutSidebar.tsx:98-101 | no coupon is applied and the coupon entry is empty |
| Checkout.CheckoutForm.HandleSubmit | src/components/CheckoutSidebar.tsx:103-132 | no service gives "no service selected"; an empty game id, server or phone gives "missing information"; otherwise one payload with the form fields, the service, `FinalAmount` of the applied coupon and that coupon's code |
| Admin.WithStatus | src/pages/AdminPage.tsx:134-138 | same length and order; every order keeps its id; orders with the id get the new status; every other order, and every other field, is unchanged |
| Admin.WithStatusIdempotent | src/pages/AdminPage.tsx:134-138 | setting the same status twice is setting it once |
| Admin.WithStatusUnknownId | src/pages/AdminPage.tsx:134-138 | an id no order has leaves the list unchanged |
| Admin.AdminConsole.constructor | src/pages/AdminPage.tsx:55-56 | the console holds the list that `setOrders` stored once the orders were loaded (line 112), and no dialog has been opened |
| Admin.AdminConsole.SelectOrder | src/pages/AdminPage.tsx:353 | opening a row's dialog stores that row's order as it is now |
| Admin.AdminConsole.DialogStartProcessingEnabled | src/pages/AdminPage.tsx:384-390 | the dialog's "Start Processing" is enabled when the dialog's copy of the order is pending |
| Admin.AdminConsole.DialogMarkCompleteEnabled | src/pages/AdminPage.tsx:391-398 | the dialog's "Mark Complete" is enabled when the dialog's copy of the order is not completed |
| Admin.AdminConsole.UpdateOrderStatus | src/pages/AdminPage.tsx:122-151 | a database error leaves the list unchanged and reports "Failed to update order status: " followed by the message; otherwise the list is rewritten by `WithStatus` with the new status's name; the dialog's order is never touched |
| Admin.OrdersWithStatus | src/pages/AdminPage.tsx:192-196 | no longer than the list; everything kept has the status and comes from the list; every order with the status is kept |
| Admin.OrdersWithStatusMultiplicity | src/pages/AdminPage.tsx:192-196 | the filter holds each order with the status exactly as often as the list does, and no other order |
| Admin.IndicesOfSnoc | src/pages/AdminPage.tsx:192-194 | appending an order adds its position to the positions holding the status exactly when it has that status |
| Admin.CountIsIndices | src/pages/AdminPage.tsx:192-194 | `filter(...).length` is the number of positions whose order has exactly that status string |
| Admin.SumAmounts | src/pages/AdminPage.tsx:195-197 | `reduce((sum, order) => sum + order.amount, 0)`; stated by `Admin.SumAmountsAppend` |
| Admin.Revenue | src/pages/AdminPage.tsx:195-197 | the completed orders' amounts added up; stated by `Admin.RevenueIsSumOfShares` |
| Admin.GetOrderStats | src/pages/AdminPage.tsx:190-200 | the total is the number of orders; each of the pending, processing and completed counts is the number of positions holding exactly that status string; the three sum to at most the total; the revenue is the sum over all orders of each one's completed-only share, and 0 when no order is completed |
| Admin.CountsBound | src/pages/AdminPage.tsx:191-194 | the pending, processing and completed counts sum to at most the total, with equality exactly when every status is one of those three |
| Admin.SumAmountsAppend | src/pages/AdminPage.tsx:195-197 | the sum of amounts over a concatenation is the sum of the two sums |
| Admin.OrdersWithStatusAppend | src/pages/AdminPage.tsx:192-196 | filtering a concatenation is concatenating the filters |
| Admin.RevenueAppend | src/pages/AdminPage.tsx:195-197 | the revenue of a concatenation is the sum of the two revenues |
| Admin.RevenueIgnoresUncompleted | src/pages/AdminPage.tsx:195-197 | inserting an order that is not completed anywhere leaves the revenue unchanged |
| Admin.RevenueSingle | src/pages/AdminPage.tsx:195-197 | one order contributes its amount if completed and nothing otherwise |
| Admin.RevenueNonNegative | src/pages/AdminPage.tsx:195-197 | with all amounts non-negative, the revenue is non-negative |
| Admin.RevenueIsSumOfShares | src/pages/AdminPage.tsx:195-197 | the revenue is the sum, over all orders, of each one's completed-only contribution |
| Admin.ConfigFor | src/pages/AdminPage.tsx:172-177 | the `statusConfig` entry of each status; the four are pairwise different (`Admin.BadgeConfigsDistinct`) |
| Admin.BadgeConfigOf | src/pages/AdminPage.tsx:172-179 | a known status gets its own badge configuration; any other string gets the pending configuration |
| Admin.StatusLabel | src/pages/AdminPage.tsx:185 | same length; the first character uppercased, the rest unchanged |
| Admin.StatusBadge | src/pages/AdminPage.tsx:171-188 | a known status gets its own badge configuration and any other string the pending one; the caption has the status's length, its first character uppercased and the rest unchanged |
| Admin.BadgeConfigsDistinct | src/pages/AdminPage.tsx:172-179 | the four configurations are pairwise different; each status name gets its own; an unknown string gets the pending one |
| Admin.PendingLabel | src/pages/AdminPage.tsx:185 | "pending" is labelled "Pending" |
| Admin.ProcessingLabel | src/pages/AdminPage.tsx:185 | "processing" is labelled "Processing" |
| Admin.CompletedLabel | src/pages/AdminPage.tsx:185 | "completed" is labelled "Completed" |
| Admin.CancelledLabel | src/pages/AdminPage.tsx:185 | "cancelled" is labelled "Cancelled" |
| Admin.StatusLabels | src/pages/AdminPage.tsx:185 | each status's name is labelled with its capitalised form |
| Admin.StartProcessingOffered | src/pages/AdminPage.tsx:387-404 | the "Start Processing" guard, the status being exactly "pending"; stated by `Admin.StatusActions` |
| Admin.MarkCompleteOffered | src/pages/AdminPage.tsx:395-413 | the "Mark Complete" guard, the status being anything but "completed"; stated by `Admin.StatusActions` |
| Admin.StatusActions | src/pages/AdminPage.tsx:384-421 | on the status a button reads, "Start Processing" is offered exactly for pending and "Mark Complete" exactly for anything but completed, cancelled included; the row buttons read the list's order, the dialog's the dialog's copy |
| Admin.StaleDialogReopensCompleted | src/pages/AdminPage.tsx:353-421 | completing a pending order leaves the list showing it completed while its dialog copy still offers "Start Processing", and that moves it back to processing |
| Admin.StaleDialogSession | src/pages/AdminPage.tsx:353-398 | on the console: after opening a pending row's dialog and completing its order, the row shows "completed" while the dialog's "Start Processing" is still enabled, and pressing it makes the row show "processing" |
| Admin.CancelledOrderCanBeCompleted | src/pages/AdminPage.tsx:395-421 | a cancelled order is offered "Mark Complete", and the rewrite for it makes the order completed |
| Home.MatchesCategory | src/pages/HomePage.tsx:21 | `matchesCategory`: no category chosen, or the service's category is the chosen one; used by `Home.FilterServices` |
| Home.MatchesSearch | src/pages/HomePage.tsx:22-24 | `matchesSearch`: an empty search text, or the lowered name or description includes the lowered text; stated by `Home.SearchOccurs` and `Home.NameOccurrenceMatches` |
| Home.FilterServices | src/pages/HomePage.tsx:20-27 | an order-preserving subsequence of the services; everything kept matches both filters; every matching service is kept |
| Home.FilterServicesMultiplicity | src/pages/HomePage.tsx:20-27 | the filter holds each matching service exactly as often as the list does, and no other service |
| Home.NoFiltersKeepEverything | src/pages/HomePage.tsx:21-22 | with no category and no search text, every service is kept, in order |
| Home.ShownInSelectedCategory | src/pages/HomePage.tsx:21 | with a category selected, every kept service is in that category |
| Home.OccursInNameOrDescription | src/pages/HomePage.tsx:23-24 | a name or description that `includes` the text has it at some position |
| Home.SearchOccurs | src/pages/HomePage.tsx:22-24 | passing a non-empty search means the lowered text occurs in the lowered name or description |
| Home.ShownMatchesQuery | src/pages/HomePage.tsx:20-27 | with a non-empty search, every kept service has the lowered text in its lowered name or description |
| Home.NameOccurrenceMatches | src/pages/HomePage.tsx:23 | a service whose lowered name holds the lowered text passes the search |
| Home.FilterAppend | src/pages/HomePage.tsx:20-27 | filtering a concatenation is concatenating the filters |
| Home.FilterOtherGroup | src/pages/HomePage.tsx:21 | a group wholly in another category contributes nothing, whatever the search text |
| Home.FilterOwnGroup | src/pages/HomePage.tsx:21 | for a group wholly in the selected category, only the search text decides what is kept |
| Home.GroupFilter | src/pages/HomePage.tsx:21 | a one-category group is filtered by the search text alone or dropped entire, as its category is or is not the selected one |
| Home.FilterGroups | src/pages/HomePage.tsx:20-27 | four groups of four different categories, filtered by one category and any search text, give that category's group filtered by the search text alone |
| Home.CatalogCategoryFilter | src/pages/HomePage.tsx:20-27 | with a category chosen, the grid is that category's catalog group, in listing order, narrowed by the search text alone; with an empty search box, the whole group; an unknown category shows nothing |
| Home.HomePage.constructor | src/pages/HomePage.tsx:15-17 | no service is selected, and both filters are empty |
| Home.HomePage.FilteredServices | src/pages/HomePage.tsx:20-27 | the grid is a subsequence of the catalog, holding exactly the catalog services that match the page's filters |
| Home.HomePage.HandleServiceSelect | src/pages/HomePage.tsx:29-35 | the service becomes the selected one |
| Home.HomePage.SelectCategory | src/pages/HomePage.tsx:152-161 | the category filter becomes the chosen category, the empty string for "All Services" |
| Home.HomePage.SetSearchQuery | src/pages/HomePage.tsx:137 | the search text becomes the typed value |
| Home.HomePage.HandleProceedToPayment | src/pages/HomePage.tsx:37-69 | returns at once, changing nothing, exactly when no service is selected |

## Left out

- Supabase I/O is not modelled: login, `loadOrders`, the database round-trip in
  `updateOrderStatus` and the order insert. The database's answer to the status update is the
  `dbError` parameter of `Admin.AdminConsole.UpdateOrderStatus`.
- The hard-coded admin password check is not modelled.
- supabase/functions/process-order/index.ts is not part of this model. It parses the request,
  inserts one pending order row and answers 200 or 500, all of which is network code.
- src/components/ServiceCard.tsx is not part of this model. It is presentational. Its one
  computation is a savings percentage from `originalPrice`, which no catalog entry sets
  (`Catalog.CatalogPricesPositive`).
- Display code is not modelled: `formatPrice`, `formatDate`, toasts, JSX, scrolling, the browser
  width test, `console.log`, and the simulated `setTimeout` delays.
- The `isProcessing` flag of the home page is not modelled. It is set and then cleared around an
  asynchronous wait, and that sequencing is out of scope.
  - Home.HomePage.HandleProceedToPayment: therefore promises only the early return.
- The callback passed from the home page to the checkout sidebar does not match: it takes a
  customer and a coupon code, but the sidebar calls it with the whole order payload. The
  sidebar's payload (`Checkout.OrderPayload`) is taken as the contract.
- Text.ToLower: maps ASCII letters only; Unicode case mapping is not modelled. A character such
  as 'ß' whose upper case has two characters would change a label's length in JavaScript.
  Text.ToUpper and Admin.StatusLabel inherit this.
- Admin.BadgeConfigOf: looks up only the four status names. In JavaScript, a status string
  that names an inherited object property (such as "constructor") would find a value that is
  not a badge configuration.
- Checkout.Discount: computes on exact reals, not IEEE doubles. For every catalog price and
  table coupon the two agree, because the discount is a whole number of quarter rupees
  (`Checkout.CatalogDiscountInQuarterRupees`).
- Checkout.CheckoutForm.ValidateCoupon: models the whole asynchronous call as one step. The
  in-flight flag is true only inside the step; the one-second wait and any interleaving with
  other events are not modelled.
- Admin.GetOrderStats: the revenue total is an exact real sum, not a floating-point one.
- The `Order`, `CartItem` and `PaymentDetails` records (src/types/index.ts:11-14, 30-51) are
  datatypes only. No modelled operation builds or reads them, because the admin page works on
  its own `DatabaseOrder` row type.
