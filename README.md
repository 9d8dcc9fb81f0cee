# MotoTaxi front-end and account endpoints, modelled in Dafny

This project models the decision-making core of the MotoTaxi web app. MotoTaxi is a ride-hailing service with a shop and delivery side. The React pages mostly render. The core modelled here is the state and the rules behind them:

- **The admin store** (`AdminController`). It holds the customer, driver, shop, ride and order collections, the promotions, the fare rules and the financial figures.
  - Its mutations replace matching records. The suspend and reject mutations append a violation to the record's history.
  - Its queries filter while keeping the store's order.
  - It calls every subscribed listener after each mutation.
- **The admin pages** that read the store:
  - the overview's critical alerts;
  - the finance page's daily figures and CSV export;
  - the pricing page's promotion form and category toggles;
  - the user and ride pages' filters, guards and status badges.
- **The driver side:**
  - the offer and job objects (`driverModel.ts`);
  - the standalone ride-state table (`rideStateMachine.ts`);
  - the driver screen's session: offers, the active job, earnings and the no-show countdown;
  - the buttons the active-job card offers.
- **The customer side:**
  - the ride request flow (`Customer.tsx`) with its price and ETA estimate;
  - the shop cart store and the cart, shop and shop-list pages.
- **Routing and sign-in:**
  - the path-and-profile routing of `App.tsx`;
  - the sign-up checks and OTP form of `Login.tsx`;
  - the admin login context.
- **Two server functions:**
  - `auth-register`: account creation with its validation, defaults, e-mail, discount and status rules, and the rollback when the profile cannot be stored;
  - `users-me`: profile read and update, with the protected keys stripped from updates.

## How the model is built

Each source file has one Dafny module of the same name. The shared modules `Wrappers`, `Text` and `Seqs` (in `common.dfy`) hold three things: an `Option` type; the JavaScript string helpers used (`String(n)`, `parseInt`, `join`, ASCII `toLowerCase`, `includes`, `trim`, stripping non-digits); and `Array.prototype.filter`.

Code that changes state step by step is modelled as a class:

- `AdminController`. Each mutation method is proved to leave the state `Apply(old state, mutation)` and to append one delivery per listener to a `deliveries` log.
- The driver screen (`DriverSession.DriverScreen`) and the customer screen (`CustomerRide.CustomerScreen`). Each handler is proved equal to a pure transition function, and the lemmas are about those functions.
- The cart store (`ShopsContext.Cart`) and the shop page's quantity pickers (`ShopDetail.ShopPage`).
- The admin session (`AdminAuth.AdminSession`).
- The `Offer` and `Job` objects.
- The in-place deletion of protected keys in `users-me` (`UsersMe.ProfileUpdates`).

The rest is pure functions and lemmas.

Inputs from the outside world are parameters:

- **Clocks** are integer timestamps `now`. "Local midnight" is an integer `todayStart`.
- **`Math.random()` draws** are `real` parameters in `[0, 1)`.
- **Timers** are explicit events:
  - the offer interval and the countdown second in the driver screen;
  - the FIFO of scheduled callbacks in the customer screen;
  - the 2-second checkout completion in the cart.
- **Database and auth-service answers** are a `Services` value. The endpoints return the response together with the list of service calls they made.

### Where the code and its design description differ

The model follows the code in each case.

- **Unknown ids still notify.** An admin mutation with an unknown id leaves every collection unchanged but still calls every listener. The description says no notification is sent.
- **No eligibility check on assignment.** Suspended and rejected drivers can still be assigned or reassigned. The reassign form lists every driver.
- **Any target status is accepted.** `updateRideStatus` and `updateOrderStatus` accept any status from any status. So does `Job.updateStatus`.
- **The job card cannot move to `on_way`.** The job lifecycle runs `assigned → on_way → arrived`, but the active-job card never offers `on_way` (see Findings).
- **The overview's cancellation alert counts every cancelled ride**, not only today's, although its text says "today".
- **The finance CSV's "Rides" and "Orders" columns** count all records, not today's.
- **The customer screen's scheduled callbacks are never cancelled.** Leaving a state does not stop the timers already set.
- **Toggling a listed promotion category twice moves it to the end of the list.** The list keeps the same categories, but not the same order.
- **The suspend reason is stored untrimmed.** It is only checked with `trim()`.
- **The rides page shows kitchen statuses as cancelled.** The order statuses `accepted`, `preparing` and `ready` get the "cancelled" badge.
- **The rides page's "In Delivery" filter shows no ride.**
- **Registration with another spelling of a taken phone fails late.** Two spellings of one phone number map to the same login e-mail. The phone check compares the raw text, so a second spelling passes it, and account creation then fails at the auth service.
- **A failed sign-in after registration leaves the account behind.** If sign-in fails after the account was created, the endpoint answers 400 and the account stays.
- **A `null` body on a `users-me` PUT answers 500** (the deletions throw).

## Model

| member | source | states |
|---|---|---|
| Text.ParseInt | src/pages/admin/AdminPricing.tsx:242 | `parseInt` of text: `NaN` for the empty string; with `ParseIntOfIntToString`, reading back any rendered integer gives it back |
| Text.ParseIntStopsAtNonDigit | src/pages/admin/AdminPricing.tsx:242 | a number followed by text that does not start with a digit reads as that number |
| Text.ParseIntSkipsSpace | src/pages/admin/AdminPricing.tsx:242 | leading white space does not change what is read |
| Text.ParseIntOfIntToString | src/pages/admin/AdminRides.tsx:251 | the driver id written into a select option reads back as the same integer |
| Text.IntToString | src/pages/admin/AdminFinance.tsx:24-32 | `String(i)`: non-empty, a minus sign exactly for negatives, then the magnitude's digits |
| Text.NatToString | src/pages/admin/AdminFinance.tsx:26-27 | `String(n)` for counts: digits only, no leading zero, and its digit value is `n` |
| Text.NatToStringInjective | src/pages/admin/AdminRides.tsx:241-245 | distinct driver ids give distinct option values |
| Text.Join | src/pages/admin/AdminFinance.tsx:34 | `join`: empty list gives "", one part gives that part; with `Text.JoinSnoc` every longer list is fixed |
| Text.JoinTwo | src/pages/admin/AdminFinance.tsx:34 | joining two parts puts the separator between them exactly once |
| Text.JoinSnoc | src/pages/admin/AdminFinance.tsx:34 | appending a part to a non-empty list adds one separator and that part at the end |
| Text.ToLower | src/pages/admin/AdminUsers.tsx:34 | ASCII `toLowerCase`: same length, each character lower-cased, no upper-case letter left |
| Text.ToLowerIdempotent | src/pages/shops/ShopsHome.tsx:16-18 | lower-casing twice equals lower-casing once |
| Text.DigitsOnly | supabase/functions/auth-register/index.ts:54 | `replace(/[^0-9]/g, "")`: only digits, exactly the digits the text holds, and a text of digits comes back unchanged; with `AuthRegister.DigitsOnlyAppend` this fixes the result |
| Seqs.Filter | src/pages/admin/AdminController.ts:186-192 | `filter`: keeps exactly the elements satisfying the predicate, never more than the input |
| Seqs.FilterIsSubsequence | src/pages/admin/AdminController.ts:186-192 | what `filter` keeps is an order-preserving subsequence |
| Seqs.Replace | src/pages/admin/AdminController.ts:195-204 | the `map(x => hit ? edit : x)` edit: same length, matching positions edited, others kept |
| Seqs.ReplaceMiss | src/pages/admin/AdminController.ts:195-204 | when no record matches, the collection is unchanged |
| AdminDomain.NewViolation | src/pages/admin/AdminController.ts:198-203 | a new violation: id starting "v-", given type, reason and date, not resolved |
| AdminDomain.PrefixTransitive | src/pages/admin/AdminController.ts:194-205 | "is a prefix of" composes, so violation histories only grow |
| AdminDomain.SuspendCustomers | src/pages/admin/AdminController.ts:194-205 | same length; records with other ids untouched; each matching record becomes suspended with exactly one policy violation appended |
| AdminDomain.UnsuspendCustomers | src/pages/admin/AdminController.ts:207-212 | same length; matching records become active, nothing else changes |
| AdminDomain.ApproveDrivers | src/pages/admin/AdminController.ts:222-227 | matching drivers become active with `approvedAt` stamped; violations untouched |
| AdminDomain.RejectDrivers | src/pages/admin/AdminController.ts:229-240 | matching drivers become rejected with exactly one "other" violation appended; others untouched |
| AdminDomain.SuspendDrivers | src/pages/admin/AdminController.ts:242-253 | matching drivers become suspended with exactly one policy violation appended; others untouched |
| AdminDomain.UnsuspendDrivers | src/pages/admin/AdminController.ts:255-260 | matching drivers become active, nothing else changes |
| AdminDomain.ActivateShops | src/pages/admin/AdminController.ts:270-275 | approve and unsuspend of shops: matching shops become active, nothing else changes |
| AdminDomain.RejectShops | src/pages/admin/AdminController.ts:277-288 | matching shops become rejected with exactly one "other" violation appended; others untouched |
| AdminDomain.SuspendShops | src/pages/admin/AdminController.ts:290-301 | matching shops become suspended with exactly one policy violation appended; others untouched |
| AdminDomain.AssignRides | src/pages/admin/AdminController.ts:319-324 | matching rides get the driver and status "assigned" from any prior status |
| AdminDomain.UpdateRideStatuses | src/pages/admin/AdminController.ts:330-342 | matching rides get the status; `startedAt` set only for in-progress, `completedAt` only for completed, else kept |
| AdminDomain.UpdateOrderStatuses | src/pages/admin/AdminController.ts:353-364 | matching orders get the status; `completedAt` set only for completed, else kept |
| AdminDomain.AssignOrders | src/pages/admin/AdminController.ts:366-371 | matching orders get the driver and status "assigned" |
| AdminDomain.MergePromotion | src/pages/admin/AdminController.ts:394-399 | the spread merge, key by key: a key the patch carries takes its value, every other key keeps the promotion's; an empty patch leaves it unchanged |
| AdminDomain.MergePromotionIdempotent | src/pages/admin/AdminController.ts:394-399 | applying the same patch twice equals applying it once |
| AdminDomain.UpdatePromotions | src/pages/admin/AdminController.ts:394-399 | same length; exactly the promotions with that id are merged with the patch |
| AdminDomain.DeletePromotions | src/pages/admin/AdminController.ts:401-404 | exactly the promotions with that id are removed, the rest keep their order |
| AdminDomain.NewPromotion | src/pages/admin/AdminController.ts:383-392 | the added promotion copies the draft, has an id starting "promo-", usage count 0 and the creation time |
| AdminDomain.MergeFareRules | src/pages/admin/AdminController.ts:374-377 | key by key, each of the eight rules is taken from the patch when supplied and kept otherwise; an empty patch changes nothing |
| AdminDomain.FullFarePatchReplaces | src/pages/admin/AdminController.ts:374-377 | a patch carrying every field replaces the fare rules outright |
| AdminDomain.MergeFinancialData | src/pages/admin/AdminController.ts:411-414 | key by key, each of the six figures is taken from the patch when supplied and kept otherwise; an empty patch changes nothing |
| AdminDomain.MergeFareRulesIdempotent | src/pages/admin/AdminController.ts:374-377 | saving the same fare rules twice is saving them once |
| AdminDomain.MergeFinancialDataIdempotent | src/pages/admin/AdminController.ts:411-414 | applying the same figures twice is applying them once |
| AdminDomain.FullFinancialPatchReplaces | src/pages/admin/AdminController.ts:411-414 | a patch carrying every figure replaces the financial data outright |
| AdminDomain.ApplyToCustomers | src/pages/admin/AdminController.ts:194-212 | a mutation of another part leaves the customers as they were; length kept |
| AdminDomain.ApplyToDrivers | src/pages/admin/AdminController.ts:222-260 | a mutation of another part leaves the drivers as they were; length kept |
| AdminDomain.ApplyToShops | src/pages/admin/AdminController.ts:270-308 | a mutation of another part leaves the shops as they were; length kept |
| AdminDomain.ApplyToRides | src/pages/admin/AdminController.ts:319-342 | a mutation of another part leaves the rides as they were; length kept |
| AdminDomain.ApplyToOrders | src/pages/admin/AdminController.ts:353-371 | a mutation of another part leaves the orders as they were; length kept |
| AdminDomain.ApplyToPromotions | src/pages/admin/AdminController.ts:383-404 | a mutation of another part leaves the promotions as they were |
| AdminDomain.ApplyToFareRules | src/pages/admin/AdminController.ts:374-377 | a mutation of another part leaves the fare rules as they were |
| AdminDomain.ApplyToFinancialData | src/pages/admin/AdminController.ts:411-414 | a mutation of another part leaves the financial data as they were |
| AdminDomain.Apply | src/pages/admin/AdminController.ts:194-414 | every mutation changes only its own part of the store; all five record collections keep their length |
| AdminDomain.ApplyReplacesItsPart | src/pages/admin/AdminController.ts:194-414 | applying a mutation is exactly replacing its own part by that part's update |
| AdminDomain.Broadcast | src/pages/admin/AdminController.ts:180-183 | one delivery per listener, in registration order, all with the same snapshot |
| AdminDomain.DriverEarnings | src/pages/admin/AdminController.ts:420-422 | 0 for an unknown driver, else the first matching driver's earnings |
| AdminDomain.AdminController.constructor | src/pages/admin/AdminController.ts:145-157 | the store starts with the given records, no promotions, default fare rules, zero figures and no listeners |
| AdminDomain.AdminController.Subscribe | src/pages/admin/AdminController.ts:172-175 | the listener is appended and called once, straight away, with the current state |
| AdminDomain.AdminController.Unsubscribe | src/pages/admin/AdminController.ts:176-178 | the returned function removes exactly that listener, keeping the others in order |
| AdminDomain.AdminController.Notify | src/pages/admin/AdminController.ts:180-183 | each registered listener is called exactly once, in order, with the state |
| AdminDomain.AdminController.SuspendCustomer | src/pages/admin/AdminController.ts:194-205 | new state is the suspend mutation applied; every listener notified once |
| AdminDomain.AdminController.UnsuspendCustomer | src/pages/admin/AdminController.ts:207-212 | new state is the unsuspend mutation applied; every listener notified once |
| AdminDomain.AdminController.ApproveDriver | src/pages/admin/AdminController.ts:222-227 | new state is the approve mutation applied; every listener notified once |
| AdminDomain.AdminController.RejectDriver | src/pages/admin/AdminController.ts:229-240 | new state is the reject mutation applied; every listener notified once |
| AdminDomain.AdminController.SuspendDriver | src/pages/admin/AdminController.ts:242-253 | new state is the suspend mutation applied; every listener notified once |
| AdminDomain.AdminController.UnsuspendDriver | src/pages/admin/AdminController.ts:255-260 | new state is the unsuspend mutation applied; every listener notified once |
| AdminDomain.AdminController.ApproveShop | src/pages/admin/AdminController.ts:270-275 | new state is the approve mutation applied; every listener notified once |
| AdminDomain.AdminController.RejectShop | src/pages/admin/AdminController.ts:277-288 | new state is the reject mutation applied; every listener notified once |
| AdminDomain.AdminController.SuspendShop | src/pages/admin/AdminController.ts:290-301 | new state is the suspend mutation applied; every listener notified once |
| AdminDomain.AdminController.UnsuspendShop | src/pages/admin/AdminController.ts:303-308 | new state is the unsuspend mutation applied; every listener notified once |
| AdminDomain.AdminController.AssignRide | src/pages/admin/AdminController.ts:319-324 | new state is the assign mutation applied; every listener notified once |
| AdminDomain.AdminController.ReassignRide | src/pages/admin/AdminController.ts:326-328 | reassigning is assigning: same new state and notifications as `assignRide` |
| AdminDomain.AdminController.UpdateRideStatus | src/pages/admin/AdminController.ts:330-342 | new state is the status mutation applied; every listener notified once |
| AdminDomain.AdminController.UpdateOrderStatus | src/pages/admin/AdminController.ts:353-364 | new state is the status mutation applied; every listener notified once |
| AdminDomain.AdminController.AssignOrder | src/pages/admin/AdminController.ts:366-371 | new state is the assign mutation applied; every listener notified once |
| AdminDomain.AdminController.UpdateFareRules | src/pages/admin/AdminController.ts:374-377 | new state is the store with its fare rules merged key by key (supplied keys overwrite, the rest kept) and nothing else changed; every listener notified once |
| AdminDomain.AdminController.AddPromotion | src/pages/admin/AdminController.ts:383-392 | new state has the one new promotion appended; every listener notified once |
| AdminDomain.AdminController.UpdatePromotion | src/pages/admin/AdminController.ts:394-399 | new state has each promotion with that id merged key by key with the patch, every other promotion and part unchanged; every listener notified once |
| AdminDomain.AdminController.DeletePromotion | src/pages/admin/AdminController.ts:401-404 | new state is the deletion applied; every listener notified once |
| AdminDomain.AdminController.UpdateFinancialData | src/pages/admin/AdminController.ts:411-414 | new state is the store with its figures merged key by key (supplied keys overwrite, the rest kept) and nothing else changed; every listener notified once |
| AdminDomain.AdminController.GetCustomers | src/pages/admin/AdminController.ts:186-192 | exactly the customers matching every supplied filter, as an order-preserving subsequence |
| AdminDomain.AdminController.GetDrivers | src/pages/admin/AdminController.ts:215-220 | exactly the drivers matching the status filter, in store order |
| AdminDomain.AdminController.GetShops | src/pages/admin/AdminController.ts:263-268 | exactly the shops matching the status filter, in store order |
| AdminDomain.AdminController.GetRides | src/pages/admin/AdminController.ts:311-317 | exactly the rides matching status and driver filters (a driver id of 0 ignored), in store order |
| AdminDomain.AdminController.GetOrders | src/pages/admin/AdminController.ts:345-351 | exactly the orders matching status and shop filters (a shop id of 0 ignored), in store order |
| AdminDomain.AdminController.GetDriverEarnings | src/pages/admin/AdminController.ts:420-422 | 0 for an unknown driver, else the first matching driver's earnings |
| AdminDomain.AdminController.CalculateDailyMetrics | src/pages/admin/AdminController.ts:424-434 | the active counts are the sizes of the status queries; today's counts never exceed the collections |
| AdminDomain.UnknownIdLeavesStateUnchanged | src/pages/admin/AdminController.ts:195-204 | a mutation aimed at an id no record carries leaves the whole state unchanged |
| AdminDomain.RepeatableIsIdempotent | src/pages/admin/AdminController.ts:207-227 | approve, unsuspend, assign, status updates, fare and figure merges and deletion, repeated with the same arguments and the same clock reading, change nothing further (a status update at a later time re-stamps `startedAt` or `completedAt`) |
| AdminDomain.SuspendTwiceRecordsTwice | src/pages/admin/AdminController.ts:194-205 | suspending twice appends two violations: suspension is not idempotent |
| AdminDomain.HistoryExtendsTransitive | src/pages/admin/AdminController.ts:194-308 | "later state" is transitive: positions, ids and violation prefixes carry over |
| AdminDomain.CustomersKeepHistory | src/pages/admin/AdminController.ts:194-212 | every customer mutation keeps ids in place and earlier violations as a prefix |
| AdminDomain.DriversKeepHistory | src/pages/admin/AdminController.ts:222-260 | every driver mutation keeps ids in place and earlier violations as a prefix |
| AdminDomain.ShopsKeepHistory | src/pages/admin/AdminController.ts:270-308 | every shop mutation keeps ids in place and earlier violations as a prefix |
| AdminDomain.ApplyExtendsHistory | src/pages/admin/AdminController.ts:194-414 | any mutation keeps every record's id and position and never loses a violation |
| AdminDomain.ApplyAllExtendsHistory | src/pages/admin/AdminController.ts:194-414 | any sequence of mutations keeps every earlier violation as a prefix |
| AdminDomain.FilterSame | src/pages/admin/AdminController.ts:424-434 | two filters that agree on the collection select the same records |
| AdminAuth.AdminSession.constructor | src/contexts/AdminAuthContext.tsx:17-18 | starts signed out with no name |
| AdminAuth.AdminSession.Login | src/contexts/AdminAuthContext.tsx:34-42 | returns true iff the pair is exactly admin / admin123; on success signed in under that name; on failure nothing changes |
| AdminAuth.AdminSession.Logout | src/contexts/AdminAuthContext.tsx:44-48 | signed out, name cleared |
| AdminOverview.AlertMessage | src/pages/admin/AdminOverview.tsx:38-47 | every alert has a non-empty message |
| AdminOverview.CriticalAlerts | src/pages/admin/AdminOverview.tsx:37-47 | volume alert iff rides today > 50, cancellation alert iff cancelled > 5, refund alert iff refunds > 10000; at most 3, in that fixed order |
| AdminOverview.Overview | src/pages/admin/AdminOverview.tsx:28-47 | ongoing rides counts in-progress rides; total revenue is ride plus order revenue; today's counts are the daily metrics; active drivers and users are the active records; payouts due is the stored figure; alerts use all cancelled rides |
| AdminOverview.QuietStoreRaisesNoAlert | src/pages/admin/AdminOverview.tsx:37-47 | at most five rides and refunds at most 10000 raise no alert |
| AdminOverview.CancellationAlertIgnoresDay | src/pages/admin/AdminOverview.tsx:41-44 | the cancellation alert is the same whichever day is "today" |
| AdminOverview.CancellationAlertIffMany | src/pages/admin/AdminOverview.tsx:41-44 | a cancellation alert is listed exactly when more than five rides are cancelled |
| AdminFinance.Receive | src/pages/admin/AdminFinance.tsx:11-17 | a notification copies the snapshot's figures, drivers, rides and orders into the page |
| AdminFinance.CalculateDailyStats | src/pages/admin/AdminFinance.tsx:43-57 | today's counts bounded by the collections; no completed ride (order) means zero ride (order) revenue; with `AddedRideStats` and `AddedOrderStats` every figure is fixed record by record |
| AdminFinance.FilterNoneOf | src/pages/admin/AdminFinance.tsx:49-54 | a filter that keeps nothing yields the empty list |
| AdminFinance.FilterAllOf | src/pages/admin/AdminFinance.tsx:47-48 | a filter that keeps everything yields its input |
| AdminFinance.AddedRideStats | src/pages/admin/AdminFinance.tsx:47-51 | one more ride raises today's count iff it is today's, and revenue by its fare iff also completed; the order figures are unchanged |
| AdminFinance.AddedOrderStats | src/pages/admin/AdminFinance.tsx:48-54 | one more order raises today's order count iff it is today's, and order revenue by its total iff also completed; the ride figures are unchanged |
| AdminFinance.NetRevenue | src/pages/admin/AdminFinance.tsx:153 | net revenue plus refunds is ride plus order revenue of today |
| AdminFinance.CsvRow | src/pages/admin/AdminFinance.tsx:22-32 | seven columns: the date, the count of all rides, the count of all orders, the stored ride revenue, order revenue and refunds (0 when absent), and last the platform net |
| AdminFinance.CsvLine | src/pages/admin/AdminFinance.tsx:34 | the data line is the seven cells in order with one comma between neighbours |
| AdminFinance.ExportCsv | src/pages/admin/AdminFinance.tsx:34 | the header line and the row, each comma-joined, separated by one newline |
| AdminFinance.CsvNetReadsBack | src/pages/admin/AdminFinance.tsx:31 | the last column reads back as the platform net |
| AdminFinance.CsvWithoutFigures | src/pages/admin/AdminFinance.tsx:28-31 | before any figures arrive every money column reads "0" |
| AdminFinance.TotalDriverEarnings | src/pages/admin/AdminFinance.tsx:169 | the sum of the drivers' earnings: 0 when every driver earned 0 (the empty list included), non-negative when every driver's earnings are; with `AddedDriverEarnings` it is fixed for every list |
| AdminFinance.AddedDriverEarnings | src/pages/admin/AdminFinance.tsx:169 | adding a driver adds exactly their earnings to the total |
| AdminFinance.ActiveDriverCount | src/pages/admin/AdminFinance.tsx:177 | at most the number of drivers; all of them when all are active, 0 when none is; with `AdminFinance.AddedActiveDriver` it is the count of active drivers |
| AdminFinance.AddedActiveDriver | src/pages/admin/AdminFinance.tsx:177 | adding a driver raises the active count by one exactly when that driver is active |
| AdminFinance.TopIsUnique | src/pages/admin/AdminFinance.tsx:246 | the top driver position is unique |
| AdminFinance.TopIndex | src/pages/admin/AdminFinance.tsx:246 | a position with maximal earnings, the first such |
| AdminFinance.TopDriverName | src/pages/admin/AdminFinance.tsx:246 | nothing iff there are no drivers; otherwise the name of a driver with maximal earnings |
| AdminPricing.SaveFareRules | src/pages/admin/AdminPricing.tsx:27-32 | with rules loaded, stores exactly them and closes editing; without, nothing happens |
| AdminPricing.DiscountTyped | src/pages/admin/AdminPricing.tsx:242 | the discount field becomes `parseInt` of the text; nothing else changes |
| AdminPricing.NaNDiscountPassesValidation | src/pages/admin/AdminPricing.tsx:35 | a complete form with a cleared discount field passes the check as written |
| AdminPricing.ValidationsDifferOnlyOnNaN | src/pages/admin/AdminPricing.tsx:35-38 | the corrected check rejects everything the written one does, and more exactly on a NaN discount |
| AdminPricing.HandleAddPromotion | src/pages/admin/AdminPricing.tsx:34-48 | the handler with the corrected validation: adds iff the form is complete with a numeric discount above 0; on success the form resets and closes; on failure only an alert |
| AdminPricing.HandleAddPromotionAsWritten | src/pages/admin/AdminPricing.tsx:34-48 | the handler as written: sends the form's values (a `NaN` discount included) iff the written check passes, then resets and closes the form; otherwise only an alert |
| AdminPricing.AsWrittenHandlerSendsNaN | src/pages/admin/AdminPricing.tsx:35-47 | as written, a complete form with a cleared discount is sent with `NaN` and the form resets, while the corrected handler alerts |
| AdminPricing.HandlersAgreeOnNumbers | src/pages/admin/AdminPricing.tsx:34-48 | with a numeric discount the handler as written and the corrected one leave the same form and send the same values |
| AdminPricing.AddedPromotionIsValid | src/pages/admin/AdminPricing.tsx:39-45 | an accepted form appends one promotion with its fields, a positive discount and no uses |
| AdminPricing.ToggleCategory | src/pages/admin/AdminPricing.tsx:58-65 | the toggled category is present iff it was absent; every other category unchanged |
| AdminPricing.ToggleKeepsNoDuplicates | src/pages/admin/AdminPricing.tsx:58-65 | toggling keeps the list free of duplicates |
| AdminPricing.FilterKeepsNoDuplicates | src/pages/admin/AdminPricing.tsx:62 | filtering a duplicate-free list keeps it duplicate-free |
| AdminPricing.FilterOutMultiset | src/pages/admin/AdminPricing.tsx:62 | filtering out a category removes exactly its occurrences |
| AdminPricing.ToggleTwiceRestoresWhenAbsent | src/pages/admin/AdminPricing.tsx:58-65 | toggling an absent category twice restores the list exactly |
| AdminPricing.ToggleTwiceKeepsCategories | src/pages/admin/AdminPricing.tsx:58-65 | toggling a listed category twice keeps the same categories (as a multiset) |
| AdminPricing.ListedOnce | src/pages/admin/AdminPricing.tsx:58-65 | in a duplicate-free list a listed category occurs once |
| AdminPricing.ToggleTwiceCanReorder | src/pages/admin/AdminPricing.tsx:58-65 | toggling a listed category twice moves it to the end |
| AdminPricing.FindPromotion | src/pages/admin/AdminPricing.tsx:68 | `find`: nothing iff no promotion has the id, else the first promotion with that id |
| AdminPricing.HandleCategoryToggleEdit | src/pages/admin/AdminPricing.tsx:67-75 | no store call for an unknown id; otherwise stores the toggled category list |
| AdminPricing.CategoryEditChangesOnlyCategories | src/pages/admin/AdminPricing.tsx:67-75 | the edit changes only the categories of the promotions with that id |
| AdminPricing.HandleTogglePromotion | src/pages/admin/AdminPricing.tsx:50-52 | stores the negation of the shown active flag |
| AdminPricing.TogglePromotionFlips | src/pages/admin/AdminPricing.tsx:50-52 | toggling a promotion flips its active flag and nothing else |
| AdminPricing.HandleDeletePromotion | src/pages/admin/AdminPricing.tsx:54-56 | afterwards exactly the promotions with another id remain |
| AdminUsers.FilteredUsers | src/pages/admin/AdminUsers.tsx:31-37 | exactly the customers with the chosen status (or all) whose name contains the query ignoring case, in order |
| AdminUsers.FilteredDrivers | src/pages/admin/AdminUsers.tsx:39-45 | exactly the drivers passing the same rule, in order |
| AdminUsers.FilteredShops | src/pages/admin/AdminUsers.tsx:47-53 | exactly the shops passing the same rule, in order |
| AdminUsers.AllStatusEmptySearchShowsEverything | src/pages/admin/AdminUsers.tsx:31-53 | "all" with an empty search shows every list whole |
| AdminUsers.StatusNamesDistinct | src/pages/admin/AdminUsers.tsx:33 | distinct statuses have distinct names |
| AdminUsers.StatusOptionSelectsStatus | src/pages/admin/AdminUsers.tsx:33 | a status option keeps exactly the entities with that status |
| AdminUsers.SearchIgnoresCase | src/pages/admin/AdminUsers.tsx:34 | the search gives the same answer for any case of name and query |
| AdminUsers.SuspendCall | src/pages/admin/AdminUsers.tsx:60-62 | a suspension goes to the store mutation of that entity's kind |
| AdminUsers.HandleSuspend | src/pages/admin/AdminUsers.tsx:55-65 | no store call iff the reason is blank, page unchanged then; otherwise one call and the reason and selection cleared |
| AdminUsers.SuspendKeepsReasonVerbatim | src/pages/admin/AdminUsers.tsx:56-60 | the stored violation carries the reason as typed, spaces included |
| AdminUsers.HandleUnsuspend | src/pages/admin/AdminUsers.tsx:67-72 | always one unsuspend call of the entity's kind, and the panel closes |
| AdminUsers.HandleApproveDriver | src/pages/admin/AdminUsers.tsx:74-77 | approves that driver and closes the panel |
| AdminUsers.HandleApproveShop | src/pages/admin/AdminUsers.tsx:79-82 | approves that shop and closes the panel |
| AdminUsers.StatusClass | src/pages/admin/AdminUsers.tsx:84-89 | active, suspended and pending have their own class; anything else is "status-rejected" |
| AdminUsers.EveryStatusHasItsClass | src/pages/admin/AdminUsers.tsx:84-89 | each status the store uses gets the class named after it |
| AdminRides.FilteredRides | src/pages/admin/AdminRides.tsx:24-29 | exactly the rides with the chosen status (or all), in order |
| AdminRides.FilteredOrders | src/pages/admin/AdminRides.tsx:31-36 | exactly the orders with the chosen status (or all), in order |
| AdminRides.AllShowsEverything | src/pages/admin/AdminRides.tsx:24-36 | "all" shows both lists whole |
| AdminRides.RideOptionSelectsStatus | src/pages/admin/AdminRides.tsx:26 | a ride status option keeps exactly the rides with that status |
| AdminRides.InDeliveryShowsNoRide | src/pages/admin/AdminRides.tsx:279 | the "in-delivery" option empties the ride list |
| AdminRides.IsRideIffRide | src/pages/admin/AdminRides.tsx:101 | the `pickupLocation` key test tells rides from orders exactly |
| AdminRides.CanReassign | src/pages/admin/AdminRides.tsx:232 | the reassign form is offered iff the status is pending or assigned |
| AdminRides.DriverOptions | src/pages/admin/AdminRides.tsx:241-245 | an empty option, then each driver's id as text, in order |
| AdminRides.ReassignCall | src/pages/admin/AdminRides.tsx:252-253 | a ride goes to `reassignRide`, an order to `assignOrder` |
| AdminRides.HandleReassign | src/pages/admin/AdminRides.tsx:38-56 | no call without a driver selected; a call only for a parsed driver id, after which the selection clears |
| AdminRides.ChosenDriverIsAssigned | src/pages/admin/AdminRides.tsx:241-253 | choosing a driver from the select reassigns to exactly that driver's id |
| AdminRides.ReassignedRideIsAssigned | src/pages/admin/AdminRides.tsx:38-46 | after reassignment that ride has the chosen driver and status "assigned" |
| AdminRides.StatusClass | src/pages/admin/AdminRides.tsx:58-64 | in-progress and in-delivery share a class; unmatched statuses are "status-cancelled" |
| AdminRides.KitchenStatusesLookCancelled | src/pages/admin/AdminRides.tsx:58-64 | accepted, preparing and ready orders carry the cancelled badge |
| AppRouting.Split | src/App.tsx:36 | `split` always yields at least one piece |
| AppRouting.SplitAfterWord | src/App.tsx:36 | a word then a separator splits off as one piece |
| AppRouting.SplitWithoutSeparator | src/App.tsx:36 | a string without separator is one piece |
| AppRouting.ShopSegment | src/App.tsx:36 | the third segment of a shop path is the first piece after the prefix |
| AppRouting.Route | src/App.tsx:19-76 | shop pages and the customer page only for customers; the driver page only for drivers |
| AppRouting.ShopPathsNeedCustomer | src/App.tsx:21-35 | every shop path shows Login to anyone but a customer |
| AppRouting.ShopSubpaths | src/App.tsx:36-48 | "cart" shows the cart, any other third segment that shop's page |
| AppRouting.FixedPages | src/App.tsx:53-55 | "/" and "/login" show Login and "/admin" shows Admin, for every profile |
| AppRouting.RolePages | src/App.tsx:56-65 | "/customer" and "/driver" show their page exactly to the matching profile |
| AppRouting.UnknownPathNotFound | src/App.tsx:68-74 | any other path is not found |
| AppRouting.NavLinks | src/App.tsx:80-85 | Login first and Admin last; the customer link iff a customer, the driver link iff a driver |
| Login.ValidateSignUp | src/pages/Login.tsx:91-104 | missing fields first, then mismatch, then a password under 6 characters; accepted iff all three pass |
| Login.HandleSignUp | src/pages/Login.tsx:87-115 | `register` is called iff the checks pass, with the form's fields; otherwise the first error is shown |
| Login.SentRequestsAreValid | src/pages/Login.tsx:106-115 | every request sent has all fields, matching passwords and at least 6 characters |
| Login.MissingFieldsReportedFirst | src/pages/Login.tsx:91-94 | an empty password reports missing fields whatever else is wrong |
| Login.SubmitHandler | src/pages/Login.tsx:133-134 | the OTP form verifies once a code was sent; otherwise password mode logs in and phone mode sends a code |
| Login.ToggleAuthMode | src/pages/Login.tsx:175 | the new mode is password mode exactly when the old one was not; nothing else changes |
| Login.ToggleTwice | src/pages/Login.tsx:175 | toggling twice from phone or password mode returns to it |
| Login.OtpTyped | src/pages/Login.tsx:206-210 | the OTP keeps the first six characters typed at most |
| Login.TypedOtpEnablesVerify | src/pages/Login.tsx:218 | verification is enabled exactly when at least six characters were typed (the field keeps the first six) |
| Login.SendOtpSettled | src/pages/Login.tsx:30-46 | a sent code shows the OTP form; a failure shows its message; loading ends either way |
| Login.ChangePhone | src/pages/Login.tsx:226-232 | back to the phone form, code and development code cleared, mode kept |
| Login.ChangePhoneResendsOtp | src/pages/Login.tsx:226-232 | after changing the number the form sends a new code |
| Login.AfterAuthPath | src/pages/Login.tsx:117 | a signed-in user goes to "/customer" or "/driver" |
| Login.AfterAuthShowsOwnPage | src/pages/Login.tsx:117 | landing there with the matching profile shows the user's own page |
| DriverModel.Slice | src/pages/driverModel.ts:14 | `slice` with clamped bounds: the substring when in range, never longer than the source |
| DriverModel.RandomId | src/pages/driverModel.ts:13-15 | the id starts with the prefix and "-" and has at most 7 more characters |
| DriverModel.Pick | src/pages/driverModel.ts:38 | `floor(draw * n)` is a valid index |
| DriverModel.RandomOfferData | src/pages/driverModel.ts:36-48 | id starts "offer-"; fare is base (cheap 800, parcel 1200, ride 1500) plus under 800; pickup and dropoff from the lists; distance "k km" with k from 1 to 6; note iff parcel |
| DriverModel.EveryOfferTypeIsDrawn | src/pages/driverModel.ts:37-38 | each offer type comes out for some draw |
| DriverModel.Offer.constructor | src/pages/driverModel.ts:26-34 | all seven fields copied unchanged |
| DriverModel.Offer.Random | src/pages/driverModel.ts:36-50 | a fresh offer holding exactly the generator's data for the six draws |
| DriverModel.Job.constructor | src/pages/driverModel.ts:58-61 | the job keeps the offer's fields; status defaults to "assigned" |
| DriverModel.Job.UpdateStatus | src/pages/driverModel.ts:63-66 | the status becomes the argument, unchecked, and the same object comes back |
| DriverModel.Job.IsActive | src/pages/driverModel.ts:68-70 | true iff the status is neither completed nor cancelled |
| RideStateMachine.TerminalStates | src/pages/rideStateMachine.ts:20-21 | exactly completed and cancelled have no successor |
| RideStateMachine.RequestedMoves | src/pages/rideStateMachine.ts:13 | from requested the only moves are to searching or queued |
| RideStateMachine.CancelledPredecessors | src/pages/rideStateMachine.ts:14-15 | cancelled is entered only from searching or queued |
| RideStateMachine.ForcedChain | src/pages/rideStateMachine.ts:16-19 | assigned, on_way, arrived and in_progress each have one successor, the next of the chain |
| RideStateMachine.MoveLowersHeight | src/pages/rideStateMachine.ts:12-22 | every move strictly lowers the longest remaining path |
| RideStateMachine.PathDescends | src/pages/rideStateMachine.ts:12-22 | a path of k moves descends at least k |
| RideStateMachine.NoCycle | src/pages/rideStateMachine.ts:12-22 | no path returns to its start |
| RideStateMachine.PathLengthBounded | src/pages/rideStateMachine.ts:12-22 | every path has at most seven states |
| RideStateMachine.MaximalPathsEndTerminal | src/pages/rideStateMachine.ts:12-22 | a path from requested that cannot go on ends in completed or cancelled |
| RideStateMachine.OnlyTerminalsAreStuck | src/pages/rideStateMachine.ts:12-22 | every state other than completed and cancelled can move |
| RideStateMachine.BothEndingsReachable | src/pages/rideStateMachine.ts:12-22 | both completed and cancelled are reachable from requested |
| ActiveJobCard.ActionsExactlyWhenActive | src/pages/ActiveJobCard.tsx:27-51 | buttons are offered exactly for the active statuses |
| ActiveJobCard.ActionsAreLifecycleMoves | src/pages/ActiveJobCard.tsx:27-49 | every button the card offers is a move of the job lifecycle |
| ActiveJobCard.NoStatusOffersOnWay | src/pages/ActiveJobCard.tsx:27-49 | no status offers on_way, although the lifecycle leaves assigned for it |
| ActiveJobCard.AssignedWalksOnlyCancel | src/pages/ActiveJobCard.tsx:27-33 | pressing buttons from assigned only ever reaches cancelled |
| ActiveJobCard.CorrectedActionsAreLifecycle | src/pages/ActiveJobCard.tsx:27-49 | the corrected card offers exactly the lifecycle moves |
| ActiveJobCard.CorrectedCardCanComplete | src/pages/ActiveJobCard.tsx:27-49 | with the corrected card every active job can be driven to completed |
| DriverSession.OfferTick | src/pages/Driver.tsx:30-41 | adds one offer only while online, without a job and under 3 offers; never exceeds 3 |
| DriverSession.ToggleOnline | src/pages/Driver.tsx:66-71 | flips online; going offline empties the offers; nothing else changes |
| DriverSession.FindOffer | src/pages/Driver.tsx:74 | `find`: the first offer with that id, or none iff no offer has it |
| DriverSession.AcceptOffer | src/pages/Driver.tsx:73-78 | unknown id changes nothing; otherwise the first offer with that id becomes an assigned job and all offers go |
| DriverSession.RejectOffer | src/pages/Driver.tsx:85 | removes exactly the offers with that id, the rest in order |
| DriverSession.UpdateJobStatus | src/pages/Driver.tsx:87-101 | no job: no change; arrived starts a 90 countdown, any other status clears it; completed credits the fare to today's earnings only; completed and cancelled schedule a release |
| DriverSession.ExpireCountdown | src/pages/Driver.tsx:46-51 | the countdown clears and an arrived job is cancelled; no release is scheduled |
| DriverSession.CountdownTick | src/pages/Driver.tsx:44-55 | without a countdown nothing; above 1 it decrements; at 1 or below it expires; a running countdown never shows less than 1 |
| DriverSession.ReleaseFire | src/pages/Driver.tsx:97-100 | a scheduled release drops the job |
| DriverSession.OfferTickKeepsInv | src/pages/Driver.tsx:32-37 | the offer tick keeps at most 3 offers and no offers beside a job |
| DriverSession.ToggleOnlineKeepsInv | src/pages/Driver.tsx:66-71 | toggling keeps the session invariant |
| DriverSession.AcceptOfferKeepsInv | src/pages/Driver.tsx:73-78 | accepting keeps the session invariant |
| DriverSession.RejectOfferKeepsInv | src/pages/Driver.tsx:85 | rejecting keeps the session invariant |
| DriverSession.UpdateJobStatusKeepsInv | src/pages/Driver.tsx:87-101 | a status update keeps the session invariant |
| DriverSession.CountdownTickKeepsInv | src/pages/Driver.tsx:44-55 | a countdown tick keeps the session invariant |
| DriverSession.ReleaseFireKeepsInv | src/pages/Driver.tsx:97-100 | a release keeps the session invariant |
| DriverSession.TicksCountDown | src/pages/Driver.tsx:53 | fewer ticks than the countdown only count down |
| DriverSession.NoShowFiresOnce | src/pages/Driver.tsx:44-55 | after exactly n ticks the countdown expires once; further ticks change nothing |
| DriverSession.TicksSplit | src/pages/Driver.tsx:44-55 | a+b ticks are a ticks then b ticks |
| DriverSession.TicksIdle | src/pages/Driver.tsx:45 | without a countdown ticks change nothing |
| DriverSession.NoShowScenario | src/pages/Driver.tsx:73-93 | accept, arrive and 90 ticks leave the job cancelled, no countdown |
| DriverSession.NoShowNeverReleases | src/pages/Driver.tsx:46-51 | after a countdown no-show the cancelled job stays and no offer can ever arrive |
| DriverSession.ExpireCountdownReleasing | src/pages/Driver.tsx:100 | the corrected expiry cancels the arrived job and schedules its release |
| DriverSession.CountdownTickReleasing | src/pages/Driver.tsx:44-55 | the corrected tick differs from the original only at expiry |
| DriverSession.CorrectedNoShowFreesSession | src/pages/Driver.tsx:44-55 | from an "arrived" job with any countdown (90 as "arrived" sets it), the corrected ticks cancel the job with its release scheduled; the release then leaves no job, so offers resume |
| DriverSession.DriverScreen.constructor | src/pages/Driver.tsx:15-20 | offline, no offers, no job, no countdown, the initial earnings |
| DriverSession.DriverScreen.OnOfferTick | src/pages/Driver.tsx:32-37 | the state becomes the offer tick with the generated offer; the invariant is kept |
| DriverSession.DriverScreen.OnToggleOnline | src/pages/Driver.tsx:66-71 | the state becomes the toggle's; the invariant is kept |
| DriverSession.DriverScreen.OnAcceptOffer | src/pages/Driver.tsx:73-78 | the state becomes the accept's; the invariant is kept |
| DriverSession.DriverScreen.OnRejectOffer | src/pages/Driver.tsx:85 | the state becomes the reject's; the invariant is kept |
| DriverSession.DriverScreen.OnUpdateJobStatus | src/pages/Driver.tsx:87-101 | the state becomes the status update's; the invariant is kept |
| DriverSession.DriverScreen.OnCountdownTick | src/pages/Driver.tsx:44-55 | the state becomes the tick's; the invariant is kept |
| DriverSession.DriverScreen.OnReleaseFire | src/pages/Driver.tsx:97-100 | the state becomes the release's; the invariant is kept |
| CustomerRide.EstimateFor | src/pages/Customer.tsx:410-431 | "--" for both unless pickup and dropoff are given; then 1,500 FCFA / 5 mins (normal) or 1,000 FCFA / 10–15 mins (cheap) |
| CustomerRide.ConfirmEnabledIffPriced | src/pages/Customer.tsx:457 | confirm is enabled exactly when a price is shown |
| CustomerRide.RequestRide | src/pages/Customer.tsx:52-54 | cheap mode queues, normal mode searches; each schedules its match; nothing else changes |
| CustomerRide.Fire | src/pages/Customer.tsx:56-90 | the earliest callback runs: cheap draw ≤ 0.4 times out, otherwise Samuel Moto; normal always Jean Moto; a match schedules on-the-way and arrival; those two set their status; the form fields are never touched |
| CustomerRide.Step | src/pages/Customer.tsx:93-187 | a button not on screen, or a confirm without pickup and dropoff, changes nothing; an enabled confirm hides the form and starts searching or queueing |
| CustomerRide.FormOpensOnlyWhenIdle | src/pages/Customer.tsx:95-99 | the form opens only from idle through its button |
| CustomerRide.CompletedOnlyByButton | src/pages/Customer.tsx:152-156 | completed is entered only by the button shown in driver_arrived |
| CustomerRide.IdleOnlyByButtons | src/pages/Customer.tsx:166-187 | timeout and completed return to idle only through their own buttons |
| CustomerRide.StepFollowsDesign | src/pages/Customer.tsx:52-187 | every input keeps the screen invariant and moves along the designed flow |
| CustomerRide.RunFollowsDesign | src/pages/Customer.tsx:52-187 | the invariant holds over any run of inputs |
| CustomerRide.NormalRequestArrives | src/pages/Customer.tsx:78-90 | a normal request searches, then after three callbacks Jean Moto has arrived |
| CustomerRide.RunThree | src/pages/Customer.tsx:80-90 | a run of three inputs is three steps |
| CustomerRide.CheapRequestResolves | src/pages/Customer.tsx:53-71 | a cheap request queues, then times out for a draw ≤ 0.4, else Samuel Moto arrives |
| CustomerRide.CustomerScreen.constructor | src/pages/Customer.tsx:20-25 | idle, normal mode, empty fields, form closed, no driver, nothing scheduled |
| CustomerRide.CustomerScreen.OpenRideRequest | src/pages/Customer.tsx:95-99 | the state becomes the step for the open button |
| CustomerRide.CustomerScreen.ConfirmRequest | src/pages/Customer.tsx:455-462 | the state becomes the step for the confirm button |
| CustomerRide.CustomerScreen.CompleteRidePressed | src/pages/Customer.tsx:93 | the state becomes the step for the complete button |
| CustomerRide.CustomerScreen.BackToIdle | src/pages/Customer.tsx:166-187 | Try Again from timeout, Book Another from completed; otherwise nothing |
| CustomerRide.CustomerScreen.TimerFired | src/pages/Customer.tsx:56-90 | the state becomes the step for the earliest callback |
| ShopsContext.AddItem | src/pages/shops/ShopsContext.tsx:25-37 | a product already in the cart gains the added quantity; otherwise the item is appended |
| ShopsContext.RemoveItems | src/pages/shops/ShopsContext.tsx:39-41 | exactly that product's items go; the rest keep their order |
| ShopsContext.SetQuantity | src/pages/shops/ShopsContext.tsx:43-52 | ≤ 0 is removal; otherwise only that product's quantity is set |
| ShopsContext.SetQuantityAbsent | src/pages/shops/ShopsContext.tsx:48-52 | a positive update of an absent product changes nothing |
| ShopsContext.AddKeepsUnique | src/pages/shops/ShopsContext.tsx:25-37 | adding keeps product ids unique |
| ShopsContext.TotalsDifferAt | src/pages/shops/ShopDetail.tsx:48-51 | carts differing at one position differ in totals by that position |
| ShopsContext.TotalsOfAppend | src/pages/shops/ShopsHome.tsx:23-27 | appending an item adds its quantity and its price times quantity |
| ShopsContext.AddRaisesTotalQuantity | src/pages/shops/ShopsContext.tsx:25-37 | with unique products, adding raises the item count by exactly the added quantity |
| ShopsContext.Cart.constructor | src/pages/shops/ShopsContext.tsx:23 | the cart starts empty |
| ShopsContext.Cart.AddToCart | src/pages/shops/ShopsContext.tsx:25-37 | the cart becomes the merge-or-append of the item |
| ShopsContext.Cart.RemoveFromCart | src/pages/shops/ShopsContext.tsx:39-41 | the cart loses exactly that product's items |
| ShopsContext.Cart.UpdateQuantity | src/pages/shops/ShopsContext.tsx:43-52 | the cart becomes the quantity update (removal at ≤ 0) |
| ShopsContext.Cart.ClearCart | src/pages/shops/ShopsContext.tsx:55-57 | the cart is empty |
| ShopsCart.DeliveryFee | src/pages/shops/ShopsCart.tsx:18 | 500 iff the subtotal is positive, else 0 |
| ShopsCart.Discount | src/pages/shops/ShopsCart.tsx:19 | 0 up to 10000; above, the floor of 5 % of the subtotal, below the subtotal |
| ShopsCart.TotalBounds | src/pages/shops/ShopsCart.tsx:20 | total plus discount is subtotal plus fee; the total is positive and at most subtotal plus fee |
| ShopsCart.PressCheckout | src/pages/shops/ShopsCart.tsx:22-28 | an empty address or a disabled button changes nothing; otherwise processing starts and completion is scheduled |
| ShopsCart.CompletionFires | src/pages/shops/ShopsCart.tsx:29-33 | processing ends, the order is complete and the cart is cleared |
| ShopsCart.CheckoutOutcome | src/pages/shops/ShopsCart.tsx:22-33 | with an address the checkout ends with an empty cart and a completed order; without, nothing happens |
| ShopDetail.FindShop | src/pages/shops/ShopDetail.tsx:16-25 | none (the "Shop not found" view) iff no shop has the id; otherwise the first shop with that id |
| ShopDetail.FirstIndex | src/pages/shops/ShopDetail.tsx:27-29 | the first position of a value |
| ShopDetail.FirstIndexOfPrefix | src/pages/shops/ShopDetail.tsx:27-29 | a value already in a prefix has its first position there |
| ShopDetail.Distinct | src/pages/shops/ShopDetail.tsx:27-29 | the same values, each once, in order of first appearance |
| ShopDetail.FirstIndicesKept | src/pages/shops/ShopDetail.tsx:27-29 | a later element does not move earlier first positions |
| ShopDetail.DisplayedCategory | src/pages/shops/ShopDetail.tsx:30 | the selection if non-empty, else the first category, else none |
| ShopDetail.FilteredProducts | src/pages/shops/ShopDetail.tsx:31-33 | exactly the products of the displayed category, in shop order |
| ShopDetail.DefaultShowsFirstProduct | src/pages/shops/ShopDetail.tsx:27-33 | with no selection the first product's category is shown and that product is listed |
| ShopDetail.ShopPage.constructor | src/pages/shops/ShopDetail.tsx:14 | no quantity picked for any product |
| ShopDetail.ShopPage.Decrement | src/pages/shops/ShopDetail.tsx:118-123 | one less, clamped at 0 |
| ShopDetail.ShopPage.Increment | src/pages/shops/ShopDetail.tsx:130-134 | one more |
| ShopDetail.ShopPage.HandleAddToCart | src/pages/shops/ShopDetail.tsx:35-46 | only a positive quantity is added, then that picker resets to 0; otherwise nothing changes |
| ShopDetail.AddShowsPreview | src/pages/shops/ShopDetail.tsx:155-156 | a positive add to an empty cart shows the preview with exactly that many items |
| ShopsHome.FilteredShops | src/pages/shops/ShopsHome.tsx:14-21 | exactly the shops whose name or category contains the term ignoring case, in the chosen category or "all", in order |
| ShopsHome.EmptySearchListsAll | src/pages/shops/ShopsHome.tsx:14-21 | an empty search with "all" lists every shop in order |
| AuthRegister.LoginEmail | supabase/functions/auth-register/index.ts:54 | the phone's digits followed by "@mototaxi.app": everything before the domain is a digit |
| AuthRegister.PlainNumberEmail | supabase/functions/auth-register/index.ts:54 | a phone typed as plain digits becomes the e-mail's local part unchanged |
| AuthRegister.DigitsOnlyAppend | supabase/functions/auth-register/index.ts:54 | the digits of a concatenation are the digits of each part |
| AuthRegister.SeparatorDoesNotChangeEmail | supabase/functions/auth-register/index.ts:54 | inserting a non-digit anywhere in the phone gives the same e-mail |
| AuthRegister.Discount | supabase/functions/auth-register/index.ts:70-72 | 15 iff student, 10 iff worker, 0 otherwise |
| AuthRegister.InitialStatus | supabase/functions/auth-register/index.ts:82 | pending iff driver, active otherwise |
| AuthRegister.Register | supabase/functions/auth-register/index.ts:18-133 | OPTIONS answers 200 with no call; an unreadable body 500; a missing field 400 with no call; a failed account creation or sign-in answers 400 with the service's message; a 200 carries the new user's id, the phone and name sent, the defaulted types and the discount for the profile type, and the session tokens |
| AuthRegister.CallsUseLoginEmail | supabase/functions/auth-register/index.ts:40-104 | the phone lookup uses the phone sent; the account, the magic link and the sign-in use the login e-mail of that phone, with the password sent |
| AuthRegister.SpellingsShareEmail | supabase/functions/auth-register/index.ts:40-62 | a second sign-up that spells the phone with an extra separator is looked up as a different phone, yet its account gets the same e-mail |
| AuthRegister.DefaultsApply | supabase/functions/auth-register/index.ts:29 | absent types default to customer and regular, with discount 0 and status active |
| AuthRegister.TakenPhoneCreatesNothing | supabase/functions/auth-register/index.ts:40-51 | a taken phone answers 400 after the lookup alone |
| AuthRegister.NoUserWithoutProfile | supabase/functions/auth-register/index.ts:55-92 | a created account always gets a profile insert; it is deleted iff the insert failed, and then the answer is 500 |
| AuthRegister.StoredRowFollowsRules | supabase/functions/auth-register/index.ts:70-83 | the stored row carries the defaulted types, their discount and their initial status |
| UsersMe.Strip | supabase/functions/users-me/index.ts:67-72 | a key survives iff it is not protected, with its value |
| UsersMe.StripIdempotent | supabase/functions/users-me/index.ts:67-72 | stripping twice is stripping once |
| UsersMe.StripKeepsCleanBody | supabase/functions/users-me/index.ts:67-72 | a body without protected keys passes unchanged |
| UsersMe.ProtectedValuesIgnored | supabase/functions/users-me/index.ts:67-72 | what a client puts under a protected key does not change the update |
| UsersMe.ProfileUpdates.constructor | supabase/functions/users-me/index.ts:64 | the object holds the parsed body |
| UsersMe.ProfileUpdates.Delete | supabase/functions/users-me/index.ts:67 | exactly that key is removed |
| UsersMe.ProfileUpdates.StripProtected | supabase/functions/users-me/index.ts:67-72 | after the six deletions the object is the stripped body |
| UsersMe.Serve | supabase/functions/users-me/index.ts:10-104 | OPTIONS 200; no header 401 with no call; no user 401; GET 404 or the profile; PUT sends the stripped body and answers 400 on error; other methods 405; no update carries a protected key |

## Left out

- Clocks: `Date.now()`, `new Date()` and local midnight become integer parameters (`now`, `todayStart`). Date formatting (`toLocaleDateString`, `toISOString`) is a string parameter or not modelled.
- Randomness: `Math.random()` becomes `real` parameters in `[0, 1)`; the base-36 text of `randomId` is a string parameter.
- Timer delays: millisecond delays and effect teardown are not modelled; only the order of scheduled callbacks is.
- Rendering: JSX, CSS, `toLocaleString` number formatting, `alert()`, map links and the CSV file download.
- Persistence: localStorage in the admin login context and the profile context.
- Network and database: every Supabase query and auth call is a parameter of the endpoint (`Services`); CORS headers and the exact JSON text of the responses are not modelled.
- The other server functions (auth-login, auth-otp-send, auth-otp-verify, users-student-verify) are not part of this model: they decide only on database answers or floating-point random codes.
- Id uniqueness: `v-…` and `promo-…` ids come from the clock and can collide; the model does not state that they are unique.
- Unicode: lower-casing, `trim()` and digit tests cover ASCII only.
- `parseInt` reads an optional sign and decimal digits after leading spaces; radix prefixes such as `0x` are not modelled.
- Floating point: the shop discount `Math.floor(subtotal * 0.05)` is modelled as the exact integer floor of 5 %, which can differ from the double result at rounding edges.
- NaN in the fare-rule inputs: typing into a fare field stores whatever `parseInt` gives; the model treats fare values as integers.
- AdminRides.HandleReassign: a driver id that does not parse (NaN) is modelled as no store call, while the page would call the store with NaN.
- AdminFinance.TopDriverName: the page sorts the store's drivers array in place; the model states the top driver without modelling the reordering it leaves behind.
- Listener side effects: listeners are opaque handles; what they do when called (and re-entrant mutations from inside them) is not modelled.
- `getState`, `getFareRules`, `getFinancialData` and `getPromotions` return the fields and carry no contract of their own.
- AdminDomain.AdminController.CalculateDailyMetrics: today's ride and order counts are stated only as bounds; the same day rule is stated for the finance page by AdminFinance.AddedRideStats and AdminFinance.AddedOrderStats.
- DriverModel.Job.UpdateStatus: the page builds a new `Job` from the updated one; the session models the job as a value, so aliasing between the old and the new object is not captured.
- AuthRegister.Register: the body's fields are modelled as strings or absent, so a JSON `null` or any non-string value (a number, an object) counts as an absent key. In the code a truthy non-string passes the required-field check: a numeric phone then makes `phone.replace` throw and the answer is 500 (the model answers 400), a numeric name is stored, and a non-string `user_type` or `profile_type` is stored as sent instead of defaulted.
- AdminPricing.HandleAddPromotionAsWritten: the values it sends are not applied to the store model, because the store's promotion discount is an integer and cannot hold `NaN`.
- Browser form checks (`required`, `minLength`) that stop a submit before the handler runs are not modelled; the handlers are modelled as they run.
- The shop list's and shop page's cart totals are the sums `TotalQuantity` and `TotalPrice`; the floating and sticky cart buttons are shown when the item total is positive.

## Findings

| source | as written | input that shows it | evidently intended | confidence | as-written member | corrected member |
|---|---|---|---|---|---|---|
| src/pages/ActiveJobCard.tsx:27-33 | the "assigned" card offers Navigate, Map and Reject; no status offers "on_way" | a job in "assigned": every button sequence stays in "assigned" or ends in "cancelled", so a trip can never be started | "assigned" also offers the move to "on_way" | high; not executed | ActiveJobCard.AssignedWalksOnlyCancel | ActiveJobCard.CorrectedCardCanComplete |
| src/pages/Driver.tsx:46-51 | the countdown expiry cancels an "arrived" job but schedules no release | an "arrived" job with countdown 90: after 90 ticks the job is "cancelled", the countdown is gone, no release is pending, and offers never resume | clear the job after cancelling it, as the No-show button path does at Driver.tsx:100 | high; not executed | DriverSession.NoShowNeverReleases | DriverSession.CorrectedNoShowFreesSession |
| src/pages/admin/AdminPricing.tsx:35 | `discount <= 0` on a value from `parseInt` | name "Weekend", description "Ten off", category student, discount field cleared (`parseInt("")` is NaN): `NaN <= 0` is false, so the promotion is added with a NaN discount | reject a discount that is not a positive number | high; not executed | AdminPricing.AsWrittenHandlerSendsNaN | AdminPricing.HandleAddPromotion |

The driver screen and the job card keep their code's behaviour (`DriverSession.DriverScreen.OnCountdownTick` uses `CountdownTick`), because they model the pages as they are. The corrected functions sit beside them with the intended property proved. The promotion form is modelled both ways: `AdminPricing.HandleAddPromotionAsWritten` runs the check as written and sends a `NaN` discount through, and `AdminPricing.HandleAddPromotion` adds only when `Rejected` is false. `AdminPricing.HandlersAgreeOnNumbers` shows the two differ only on that input.
