# A verified model of the shop's stock, orders, payments and live channels

Dafny model and proofs for the parts of the back end whose guarantees belong to no single function.

The first and larger part is one transactional state machine. Its tables (`Tables`) are warehouses, stock rows, the
movement ledger, the catalogue, carts, coupons, orders and payments; its steps (`Runs.Step`) are the service calls of
`inventory`, `cart`, `orders` and `payments`. Each service exists twice: as a function from tables to tables
(`Inventory`, `Carts`, `Orders`, `Payments`), and as methods on a `Database` object that update its tables in place,
with the loops, early exits, savepoints and rollbacks of the original (`InventoryService`, `CartService`,
`OrderService`, `PaymentService`). Each method is proved to compute its function, error by error. About the functions
the project then proves what single calls cannot show:

* greedy allocation is optimal in two different senses, and whether it succeeds and how much it moves does not depend on
  how the database breaks ties (`Greedy`, `Optimality`, `Availability`);
* over whole runs nothing is oversold, reservations are those of pending orders, each order is sold at most once, and
  the ledger explains the stock (`Conservation`, `Books`, `History`);
* every pending order can be paid on runs without late cancellations and undercutting adjustments, and a step ends this
  exactly if it is one of these, the cancelled order's variants being reserved for others (`Promises`, `Breach`);
* what a transition, a webhook and a charge answer and change (`Transitions`, `Deliveries`, `Charges`); repeated webhooks
  are harmless, and what a captured payment does and does not imply (`Webhooks`);
* the life of an order, the bill of a checkout, coupon arithmetic in cents, carts (`Lifecycle`, `Checkouts`, `Pricing`,
  `Carts`).

The second part is `ConnectionManager` of the real-time service (`Realtime`, `Fanout`, `RealtimeService`): sockets,
consumer tasks and unlocked discards as interleaved steps between two awaits.

Money is an integer number of cents. The order in which the database returns rows is an arbitrary function that honours
the query's filter and `order_by` (`Allocation.Engine`); each call may use another one. Clocks, gateway answers, parsed
webhooks and the receivers of a published message are arbitrary inputs. Books that agree (`Books.BooksAgree`) and a shop
that opens with stock but without orders (`Promises.OpeningShop`) are where runs may start.

## Where code and expectation part

The model follows the code. The proofs make these differences precise:

* PAID and PACKED orders may be cancelled (`orders/models.py:41-42`; the diagram in the module's documentation omits
  PACKED), and the cancellation still releases reservations although the order has none left. It takes other
  orders' reservations: `Promises.EveryoneCanStillPayIff`, `Promises.LateCancellationStrands`,
  `Breach.LateCancellationBreaksAPromise`.
* `adjust_stock` may take a shelf below what is reserved on it, and then not every pending order can be paid:
  `Promises.EveryoneCanStillPayIff`, `Breach.UndercuttingBreaksAPromise`. It logs the unclamped amount.
* `get_available` counts inactive warehouses, reserving does not, so a cart may hold what no checkout can reserve:
  `Witnesses.CartOfUnreservableStock`. The snapshot's `available` ignores safety buffers.
* A captured webhook marks payments captured whether or not the order could be paid: `Webhooks.CapturedPaysIff`,
  `Witnesses.CapturedButUnpaid`.
* Deleted cart lines stay under the unique constraint on cart and variant, so nobody can put into the cart again what
  was removed or bought once: `Checkouts.NeverBoughtTwice`.
* `max_discount = 0` caps nothing, FREE_SHIPPING coupons change no price, and `per_user_limit` is enforced nowhere.
* Reaching a coupon's minimum can make the larger basket the cheaper one, and its fields tell whether it does:
  `Pricing.UndercutIff`, `Pricing.MinimumCanUndercut`.
* A crashed consumer keeps its task entry and is not replaced until the channel empties, and a failed `broadcast`
  creates the key of an emptied channel anew: `Realtime.CrashedChannelStaysSilent`, `Realtime.KeysKeptIff`,
  `Realtime.DeafAndStrayKeysHappen`.

## Model

| member | source | states |
|---|---|---|
| Allocation.SortByPriority | django_app/apps/inventory/services.py:35-40 | the reservation query can be answered: some visit has every active row of the variant once, by ascending priority |
| Allocation.SortByReserved | django_app/apps/inventory/services.py:76-80 | the release and sale query can be answered: some visit has every row of the variant with reservations once, by descending `reserved` |
| Greedy.WalkLeaves | django_app/apps/inventory/services.py:41-64 | whatever the visit order, greedy taking leaves unserved exactly what the visited rows together cannot give |
| Greedy.WalkSums | django_app/apps/inventory/services.py:50-60 | a walk moves the variant's `on_hand` and `reserved` totals by exactly what it took and no other variant's |
| Greedy.WalkTally | django_app/apps/inventory/services.py:54-59 | the ledger lines of a walk add up, with their sign, to what it took, under its own reason, order and variant only |
| Greedy.WalkReplays | django_app/apps/inventory/services.py:110-121 | replaying the lines a walk logged turns each row's old figures into its new ones |
| Inventory.PerformSucceedsIff | django_app/apps/inventory/services.py:32-64 | for every integer quantity, reserving succeeds iff it is positive and active rows have it available; committing iff rows have it both reserved and on hand; releasing always; and what error is raised otherwise |
| Inventory.PerformTakes | django_app/apps/inventory/services.py:76-121 | reserving and committing move exactly the quantity, releasing the smaller of it and what is reserved; other variants nothing |
| Inventory.PerformLowersSupply | django_app/apps/inventory/services.py:50-60 | what a call took can no longer be taken: reservable, releasable or committable supply falls by exactly that |
| Inventory.PerformIsBooked | django_app/apps/inventory/services.py:50-121 | each call keeps rows sound and in place, only appends to the ledger, and shelves, reservations, ledger totals and replay agree on what moved |
| Inventory.AdjustKeeps | django_app/apps/inventory/services.py:129-142 | an adjustment keeps every figure non-negative and every row's identity, and only appends to the ledger |
| Inventory.AdjustSums | django_app/apps/inventory/services.py:134-135 | an adjustment changes its variant's shelves by the clamped amount and reservations not at all |
| Inventory.AdjustLogs | django_app/apps/inventory/services.py:136-141 | the unclamped line an adjustment logs replays to the clamped figures, even on the row it created, and concerns no order |
| Inventory.AdjustsItsRow | django_app/apps/inventory/services.py:129-142 | an adjustment succeeds iff the warehouse exists; then the row of that variant in that warehouse, found or created empty, holds max(old + delta, 0) with reservations and buffer as before, every other row is as it was, and one line about it is logged |
| Inventory.AdjustedIsOnly | django_app/apps/inventory/models.py:45-47 | where each variant has at most one row per warehouse, it still does, so the adjusted row is the only one of its kind |
| History.RowsStayOneEach | django_app/apps/inventory/models.py:45-47 | and so throughout every run |
| InventoryService.ReserveStock | django_app/apps/inventory/services.py:29-71 | the loop reserves as specified and returns the snapshot of all active rows after it; on a shortage or a bad quantity nothing is kept |
| InventoryService.SnapshotTells | django_app/apps/inventory/services.py:42-71 | the snapshot of a successful reservation: what active warehouses had on hand, their reservations plus the quantity, and the difference of the two |
| InventoryService.ReleaseReservation | django_app/apps/inventory/services.py:74-95 | the loop releases as specified and never fails |
| InventoryService.CommitSale | django_app/apps/inventory/services.py:98-125 | the loop commits as specified, or raises and leaves rows and ledger as they were |
| InventoryService.AdjustStock | django_app/apps/inventory/services.py:128-142 | finds or creates the row, adjusts it as specified and returns it: it is the row of the variant in the warehouse asked for; an unknown warehouse changes nothing |
| Optimality.ReservationIsPriorityOptimal | django_app/apps/inventory/services.py:35-61 | the units granted are a feasible allotment of the quantity, and up to every priority limit they are at least as many as in any other feasible allotment |
| Optimality.ReleaseTouchesFewest | django_app/apps/inventory/services.py:76-95 | a release changes no more rows than any set of the variant's rows that has the quantity reserved |
| Optimality.CommitTouchesFewest | django_app/apps/inventory/services.py:101-121 | so does a sale when no row of the variant has more reserved than on hand |
| Availability.ReserveLowersAvailable | django_app/apps/inventory/services.py:24-61 | a successful reservation lowers `get_available` by exactly its quantity, for its variant only |
| Availability.CommitKeepsAvailable | django_app/apps/inventory/services.py:110-114 | a sale changes no row's `available` |
| Availability.ReleaseRaisesAvailable | django_app/apps/inventory/services.py:82-88 | a release raises `get_available` by at most what it released, and by exactly that iff every row it changed had its reservations and buffer on the shelf |
| Availability.PerformKeepsHealthy | django_app/apps/inventory/services.py:45-121 | reserving, releasing and committing never leave a reserved row without its reservations and buffer on the shelf |
| Availability.AdjustKeepsHealthyIff | django_app/apps/inventory/services.py:134-135 | an adjustment keeps this iff its row has nothing reserved or still covers reservations and buffer; upwards it always does |
| Availability.ReserveThenRelease | django_app/apps/inventory/services.py:29-95 | on healthy stock a release after a reservation restores `get_available` and the reserved total, although the two visit rows in different orders |
| Orders.ProcessSucceedsIff | django_app/apps/orders/services.py:97-106 | all lines of an order go through together iff no reserved line is empty and each variant's supply covers its lines' sum |
| Orders.ProcessIsBooked | django_app/apps/orders/services.py:150-171 | the lines together change stock and ledger like one call, on behalf of that order only |
| Orders.ProcessTakes | django_app/apps/orders/services.py:150-171 | per variant they take the sum of the lines, or, when releasing, as much of it as is reserved |
| Orders.ProcessLowersSupply | django_app/apps/orders/services.py:150-171 | and the supply falls by exactly that |
| OrderService.TransitionStatus | django_app/apps/orders/services.py:138-183 | performs the specified transition in place: status, timestamp, event and stock; an illegal one, an unknown order or a shortage at any line changes nothing |
| Transitions.TransitionAnswers | django_app/apps/orders/services.py:142-160 | a transition succeeds iff the order exists, the table allows it and, to be paid, its units are reserved and on hand; otherwise these decide the error in this order |
| Transitions.TransitionChanges | django_app/apps/orders/services.py:147-182 | it logs its status, sets that status's timestamp to now, keeps lines, bill, coupon, payment and other timestamps, and touches no other order, cart, coupon or payment, nor stock unless it pays or cancels |
| OrderService.CreateOrderFromCart | django_app/apps/orders/services.py:58-135 | performs the specified checkout in place; on any failure, a shortage at any line included, every table is as it was |
| OrderService.PriceOrder | django_app/apps/orders/services.py:63-95 | the step by step pricing gives the specified order row: the cart's subtotal, the coupon's discount, no tax, and their grand total with shipping |
| OrderService.SelectCoupon | django_app/apps/orders/services.py:66-72 | refuses a code exactly if its coupon is missing, switched off, not begun, ended or used up; no code means no coupon |
| Lifecycle.LegalPathShape | django_app/apps/orders/models.py:39-47 | a rank strictly increases along every legal path, so at most five transitions; CANCELLED and REFUNDED are final and exclusive; REFUNDED was PAID |
| Lifecycle.LegalPathIff | django_app/apps/orders/models.py:39-47 | the lives the table allows are exactly the stretches of the main line, cancelled before shipping or refunded after payment |
| Lifecycle.AdvanceKeepsConsistent | django_app/apps/orders/services.py:143-182 | an allowed transition keeps status, timestamps and event log telling the same legal path |
| Conservation.StepFlow | django_app/apps/orders/services.py:138-183 | every step of the machine keeps the books agreeing, stock plus sales changing only by real adjustments, and promises minus reservations only by what a cancellation fails to give back or takes from others |
| Conservation.NoOversell | django_app/apps/inventory/services.py:30-142 | in every run, stock on hand plus units of orders ever paid equals the start plus effective adjustments, with no row ever negative |
| Conservation.SoldAtMostOnce | django_app/apps/inventory/services.py:54-120 | in every run, an order's SALE lines sum to minus its quantity if it was ever paid and else to 0, its RESERVATION lines to minus its quantity, and its RELEASE lines lie between 0 and its quantity, above 0 only if cancelled |
| Conservation.LivesAreLegal | django_app/apps/orders/services.py:142-182 | in every run, each order's events are a legal path to its status of at most five transitions, with `paid_at`, `cancelled_at` and `refunded_at` set iff their status is on it |
| Conservation.CancellingSucceedsIff | django_app/apps/orders/models.py:39-47 | cancelling succeeds iff the order is PENDING, PAID or PACKED |
| Conservation.ReservedWithinOutstanding | django_app/apps/orders/services.py:97-106 | in every run, no variant has more reserved than its pending orders ask for |
| Conservation.BalanceKeptIff | django_app/apps/orders/services.py:161-171 | a step keeps reserved equal to pending units iff it is not a cancellation of a PAID or PACKED order with units of a variant still reserved for others |
| Conservation.ReservedIsOutstanding | django_app/apps/orders/services.py:150-171 | on runs without late cancellations, reserved equals pending units throughout |
| Promises.PayingSucceedsIff | django_app/apps/orders/services.py:143-160 | PENDING to PAID succeeds iff the order is pending and each variant's rows have, row by row both reserved and on hand, enough for its units |
| Promises.CoveredKeptIff | django_app/apps/inventory/services.py:134 | of all steps, exactly adjustments below `reserved` leave a row with more reserved than on hand |
| Promises.OpeningShop | django_app/apps/inventory/models.py:35-58 | a shop with stock, no orders, no reservations and an empty ledger meets every condition a run may start from |
| Promises.PendingCanBePaid | django_app/apps/orders/services.py:150-160 | after any run without late cancellations and undercutting adjustments, every pending order can be paid, whatever order rows come in |
| Promises.PromisesKeptIff | django_app/apps/orders/services.py:150-171 | from a state where reserved equals pending units and no row is overdrawn, a step leaves every variant's pending units reserved and on hand, row by row, iff it neither takes a shelf below its reservations nor cancels a PAID or PACKED order with a variant reserved for others |
| Promises.EveryoneCanPayIff | django_app/apps/orders/services.py:150-160 | all pending orders can be paid one after another, in any sequence and with rows coming in any order, iff every variant's pending units are reserved and on hand, row by row |
| Promises.EveryoneCanStillPayIff | django_app/apps/inventory/services.py:134 | both together: after a step all pending orders can be paid one after another iff the step was neither of the two |
| Promises.UncoveredUnitsStayUnpaid | django_app/apps/orders/services.py:150-171 | pending units without a reservation stay unpaid through every run that cancels nothing, whatever is restocked or paid |
| Promises.LateCancellationStrands | django_app/apps/orders/services.py:161-171 | after one late cancellation some units stay pending in every run that cancels nothing further |
| Promises.LateCancellationBlocksPayment | django_app/apps/orders/services.py:161-171 | after a late cancellation, an order that holds all pending units of the variant can no longer be paid |
| Breach.LateCancellationBreaksAPromise | django_app/apps/orders/models.py:41-42 | a concrete shop: an order that could be paid cannot once another, paid order is cancelled |
| Breach.UndercuttingBreaksAPromise | django_app/apps/inventory/services.py:134 | a concrete shop: an order that could be paid cannot once an adjustment took its unit off the shelf |
| History.LedgerReplaysRun | django_app/apps/inventory/services.py:54-141 | in every run, replaying the ledger row by row from the start gives every row's `on_hand` and `reserved`, rolled-back calls included |
| History.CouponUsage | django_app/apps/orders/services.py:119-121 | in every run, `used_count` grows by exactly the orders created with the coupon and stays within `max_uses` |
| Webhooks.WebhookTwice | django_app/apps/payments/services.py:79-130 | delivering a parsed webhook twice leaves everything as after one delivery but the number of webhook events |
| Webhooks.CapturedPaysIff | django_app/apps/payments/services.py:110-129 | a captured webhook about an order always marks its payments captured; the order is then paid iff it was before or was pending with its units reserved and on hand |
| Witnesses.CapturedButUnpaid | django_app/apps/payments/services.py:110-129 | a concrete run: charge, undercutting adjustment, captured webhook; the payment ends captured and the order was never paid |
| Webhooks.WebhooksMoveStockOnce | django_app/apps/payments/services.py:103-130 | over any sequence of webhooks at most one delivery changes what the ledger says about an order, and none once the order is no longer pending |
| Webhooks.WebhooksSellOrRelease | django_app/apps/payments/services.py:110-124 | and such a delivery sells the order's units or releases them: over the whole sequence never both |
| Payments.NewestWithReference | django_app/apps/payments/services.py:93-98 | the match by payment reference is the newest order that has it, if any |
| Payments.MatchOrderIff | django_app/apps/payments/services.py:87-102 | a webhook is about the order it names, whatever its reference; if it names none that exists, about the newest order with its nonempty reference; else about none |
| Deliveries.WebhookAboutNothing | django_app/apps/payments/services.py:80-101 | an unknown provider or a malformed order id is an error; a rejected webhook or one about no order changes nothing |
| Deliveries.WebhookAboutOrder | django_app/apps/payments/services.py:103-130 | a heeded webhook about an order fails only for a refund that the order's status does not allow; otherwise the reply names the order, which logs it and moves as reported, no other order changes, and its payments at the provider take the status reported, pending if empty |
| Payments.UpdatePayments | django_app/apps/payments/services.py:126-129 | exactly the payments of this order and provider get the status |
| PaymentService.Create | django_app/apps/payments/services.py:30-76 | records the charge and, on success, the order's provider and reference, as specified; an unknown provider or an adapter that raises leaves nothing behind |
| Charges.AttemptSucceedsIff | django_app/apps/payments/services.py:34-52 | a payment attempt succeeds iff the order exists, the provider is known and its adapter does not raise |
| Charges.AttemptRecords | django_app/apps/payments/services.py:45-76 | then one payment is added, over the order's grand total: failed and without reference if the charge failed, else pending under its reference, which with the provider is all that changes on the order |
| Charges.FreshOrderIsChargedItsBill | django_app/apps/payments/services.py:45-52 | for an order just placed that amount is the cart's lines less the coupon's discount plus shipping |
| PaymentService.Handle | django_app/apps/payments/services.py:79-130 | digests a webhook in place as specified: an unknown provider is an error, a failed payment transition is swallowed, a failed cancellation or refund undoes the whole call |
| Checkouts.OrderShowsCart | django_app/apps/orders/services.py:98-117 | an order asks per variant for what the cart shows, and its line totals add up to the cart's subtotal |
| Checkouts.CheckoutSucceedsIff | django_app/apps/orders/services.py:59-106 | a checkout succeeds iff the cart shows something, the coupon applies and active warehouses have every variant's units available; any failure is a `CheckoutError` |
| Witnesses.CartOfUnreservableStock | django_app/apps/inventory/services.py:24-37 | a concrete shop: stock in an inactive warehouse can be put into a cart that no checkout accepts |
| Checkouts.CheckoutBill | django_app/apps/orders/services.py:63-95 | line totals sum to the cart's subtotal; no code means no discount, a code its coupon's discount; shipping is 0 from 200.00 left to pay and for pickup, else 19.99 for express and 9.99 otherwise; tax is 0; grand = subtotal - discount + shipping + tax; with a well-formed coupon 0 <= discount <= subtotal and grand >= 0 |
| Checkouts.OrderLinesAreCartLines | django_app/apps/orders/services.py:98-117 | the order has exactly one line per variant that the cart shows, with the cart's quantity and unit price |
| Checkouts.CheckoutCounts | django_app/apps/orders/services.py:119-121 | the coupon named is counted once and no coupon changes otherwise |
| Checkouts.CheckoutBalances | django_app/apps/orders/services.py:97-133 | reserved rises and availability falls by exactly the cart's units, shelves stay, the cart is empty, other carts and tables stay |
| Checkouts.ProcessAvailable | django_app/apps/orders/services.py:150-171 | availability of a whole order's lines: down by its units on reserving, unchanged on selling, up by what is released on healthy stock |
| Checkouts.CancellingGivesBack | django_app/apps/orders/services.py:161-171 | on healthy stock with reserved equal to pending units, cancelling a pending order makes exactly its units available again |
| Checkouts.RunKeepsCarts | django_app/apps/cart/services.py:28-102 | in every run carts keep one row per variant and no live line without units, and no line deleted from a user's cart comes back |
| Checkouts.CheckoutOnlyRefuses | django_app/apps/inventory/services.py:32-33 | in every run a checkout never hits the quantity error of `reserve_stock` |
| Checkouts.NeverBoughtTwice | django_app/apps/cart/models.py:62 | after a checkout, through every later run, adding a bought variant to that user's cart violates the unique constraint |
| Carts.AddItemSpec | django_app/apps/cart/services.py:29-46 | adding succeeds iff the quantity is positive, the variant on sale, its line not deleted and the new total available, and which error is raised otherwise; it changes that variant's units and price only |
| Carts.UpdateItemSpec | django_app/apps/cart/services.py:50-60 | updating a live line sets its units at the old price if available, deletes it at zero or less, and leaves other lines alone |
| Carts.RemoveItemSpec | django_app/apps/cart/services.py:64-65 | removing hides the line's units, keeps its row and leaves other lines alone |
| Carts.ClearCartSpec | django_app/apps/cart/services.py:69-72 | clearing leaves no live line and every row dead |
| Carts.MergeConserves | django_app/apps/cart/services.py:76-102 | a merge succeeds iff every guest variant exists and was never deleted from the user's cart; units add up per variant and in total, and exactly the guest's variants are repriced |
| Carts.MergeLeaves | django_app/apps/cart/services.py:76-102 | after a merge the guest cart is gone, other carts are as they were, and a second login changes nothing |
| CartService.GetOrCreate | django_app/apps/cart/services.py:15-25 | finds or opens the owner's cart; a guest without a session is refused |
| Carts.OpenCartSpec | django_app/apps/cart/services.py:15-25 | opening a cart refuses a guest without a session and leaves what every cart holds alone |
| CartService.Add | django_app/apps/cart/services.py:28-46 | adds in place as specified; the row created on the way does not survive a failure |
| CartService.Update | django_app/apps/cart/services.py:49-60 | updates in place as specified |
| CartService.Remove | django_app/apps/cart/services.py:63-65 | removes in place as specified: afterwards the line is dead and every other line is as it was |
| CartService.Clear | django_app/apps/cart/services.py:68-72 | clears in place as specified: afterwards the cart shows no units and has nothing to check out |
| CartService.MergeAnonymousIntoUser | django_app/apps/cart/services.py:75-102 | moves line by line as specified and drops the guest cart; the first line that cannot be moved undoes them all |
| Pricing.RoundHalfEvenIsNearest | django_app/apps/coupons/models.py:67 | the rounded amount is the one within half a cent, even at a tie |
| Pricing.PercentBounds | django_app/apps/coupons/models.py:66-67 | a percentage is off by at most half a cent and lies between 0 and the subtotal |
| Pricing.PercentSteps | django_app/apps/coupons/models.py:66-67 | between two subtotals the percentage grows, and by no more than they differ, half-cent ties included |
| Pricing.DiscountBounds | django_app/apps/coupons/models.py:63-73 | 0 <= discount <= subtotal; none below the minimum; a percentage is reduced only to its cap, a fixed amount only to the subtotal |
| Pricing.DiscountSteps | django_app/apps/coupons/models.py:63-73 | a larger subtotal never gets a smaller discount, and is cheaper after discount iff it crosses the minimum and the discount exceeds the difference |
| Pricing.UndercutIff | django_app/apps/coupons/models.py:63-73 | a coupon makes some larger basket cheaper than a smaller one iff at its minimum it already takes off more than a cent: a FIXED one with `value` and `min_subtotal` of two cents or more, a PERCENT one whose share of `min_subtotal` is 1.5 cents or more and whose cap, if any, is two cents or more |
| Pricing.MinimumPaysOffIff | django_app/apps/coupons/models.py:63-73 | that reading of the fields is what the discount at the minimum comes to |
| Pricing.MinimumCanUndercut | django_app/apps/coupons/models.py:64-65 | such a coupon and two such subtotals exist |
| Pricing.CouponVersusShipping | django_app/apps/orders/services.py:43-77 | grand total >= 0, and a coupon makes the order dearer iff it loses free shipping and the discount is below the method's rate |
| Realtime.StepKeepsTracked | fastapi_app/realtime/manager.py:29-75 | every interleaved step keeps it true that registered sockets have open sessions and a task entry, an entry has a session and an uncancelled consumer of its channel, and no other consumer is uncancelled |
| Realtime.StepKeepsOrderly | fastapi_app/realtime/manager.py:54-75 | every step keeps each consumer ahead of everything delivered on its channel |
| Realtime.ConnectRegisters | fastapi_app/realtime/manager.py:32 | connecting adds one socket to one channel and removes none anywhere |
| Realtime.DisconnectUnregisters | fastapi_app/realtime/manager.py:39-41 | disconnecting removes one socket from one channel |
| Realtime.DiscardUnregisters | fastapi_app/realtime/manager.py:52-71 | so does a discard |
| Fanout.OpenSessionsAreRegistered | fastapi_app/realtime/manager.py:29-71 | in every run, registered are exactly the sockets of open sessions that no failed send discarded |
| Fanout.NoMessageSkipped | fastapi_app/realtime/manager.py:60-63 | in every run a consumer takes the messages handed to its subscription in order and skips none |
| Fanout.EveryoneIsSent | fastapi_app/realtime/manager.py:65-71 | once a consumer is done with a message, sending it was started to every socket registered when it was taken, whatever happened meanwhile |
| Fanout.NobodyElseIsSent | fastapi_app/realtime/manager.py:65-71 | and to no other socket |
| Realtime.NoConsumerLeaks | fastapi_app/realtime/manager.py:29-44 | in every run: a channel with a socket has a task entry, an entry has an open session, a channel has at most one uncancelled consumer, and nothing remains once all sessions closed |
| Realtime.NoDoubleDelivery | fastapi_app/realtime/manager.py:54-75 | in every run sending the same message of a channel to the same socket is started at most once, sends that never end because of a cancellation or a crash included |
| Realtime.DeafUntilEmptied | fastapi_app/realtime/manager.py:32-35 | a channel with a crashed consumer is heard again only by a step that closes its last registered session |
| Realtime.CrashedChannelStaysSilent | fastapi_app/realtime/manager.py:54-75 | until then nothing is delivered on it in any run, whoever connects |
| Realtime.KeysKeptIff | fastapi_app/realtime/manager.py:46-52 | a step lets a channel key outlive its task entry iff it is a failed broadcast on a channel without an entry |
| Realtime.DeafAndStrayKeysHappen | fastapi_app/realtime/manager.py:46-75 | both happen: runs lead to an open session on a channel that nobody consumes, and to a channel key without any session |
| RealtimeService.ConnectionManager.constructor | fastapi_app/realtime/manager.py:24-27 | a new manager has no channels and no tasks |
| RealtimeService.ConnectionManager.Connect | fastapi_app/realtime/manager.py:29-35 | registers the socket and starts a consumer iff the channel has no task entry; every channel with sockets stays consumed by one consumer and no other consumer runs |
| RealtimeService.ConnectionManager.Disconnect | fastapi_app/realtime/manager.py:37-44 | removes the socket and, with the last one, key and entry, and cancels the consumer; the same invariant holds |
| RealtimeService.ConnectionManager.DiscardSocket | fastapi_app/realtime/manager.py:46-52 | the unlocked discard: the socket leaves this channel and no other, a missing key is created, the invariant holds |
| RealtimeService.ConnectionManager.ReceiveMessage | fastapi_app/realtime/manager.py:60-65 | a consumer takes the oldest message and lists the channel's registered sockets, each once, in any order |
| RealtimeService.ConnectionManager.StartSendToNext | fastapi_app/realtime/manager.py:65-69 | a consumer starts sending to the next listed socket and awaits it |
| RealtimeService.ConnectionManager.EndAwaitedSend | fastapi_app/realtime/manager.py:65-71 | the awaited send ends; if it failed its socket leaves the channel, and the consumer goes on |

## Left out

- SQL, row locks, deadlocks and isolation levels: transactions are serialised, and a checkout, which does not lock its cart, is one step.
- Primary keys: an order, a stock row and a cart line are identified by their position in a table that only grows.
- Payment gateways (`payments/providers`): the outcome of a charge, an exception included, and a parsed webhook are arbitrary inputs; `parse_webhook` itself does not raise.
- A webhook's status is one of the payment statuses or empty; other strings are not modelled.
- Hard deletion of variants and stock rows, and with it order lines whose variant is gone, which both loops of a transition skip.
- Administration: warehouses keep their activity and priority during a run, and coupons, orders and stock rows change only through the services. Catalogue edits are steps.
- InventoryService.AdjustStock: a variant that does not exist would violate a foreign key; that error is not modelled.
- Carts that were deleted as a whole are simply absent, and each user or session has at most one live cart.
- `Cart.coupon`, which no service reads.
- OrderService.SelectCoupon: matches coupon codes exactly; the case-insensitive lookup, and its error when two codes differ in case only, are not modelled.
- Field limits (`max_digits`, `PositiveIntegerField`): numbers are unbounded.
- `CartItem.line_total` and `grand_total` round to cents: prices are whole cents, so these roundings do nothing and are not written out.
- Order numbers, currencies, e-mail, phone and address snapshots, notes, actors, event messages and JSON payloads.
- `expire_pending_payments`, `_jsonable`, `Stock.is_low`: they do not bear on the invariants.
- The catalogue, search, addresses, authentication, permissions, serializers, views, notifications, analytics and audit.
- Redis: which subscriptions get a message is arbitrary, at most once each; message order is the order of publication.
- `websocket.accept` failing, and the endpoints' ping loops: a session opens and closes.
- `broadcast` as a loop: its successful sends change nothing, so only a failing one is a step.
- Promises.LateCancellationBlocksPayment: names the blocked order only where one order holds all pending units. Otherwise which order loses depends on who pays first; that someone does is Promises.EveryoneCanStillPayIff.
