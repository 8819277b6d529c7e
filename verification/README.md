# Verified model of the laundry order pipeline, attendance sweep and event broadcaster

A Dafny model of three parts of a laundry-service back end written in Go over PostgreSQL, with proofs
of what the whole system keeps rather than what one handler writes. `dafny verify dfyconfig.toml`
checks everything.

## What is modelled

**The order pipeline.** Eleven statuses; orders, driver tasks, payments, bypass requests, items and
status history; and every handler or job transaction that changes them.

- `Tables` holds the tables as a class, one method per SQL statement of `orders.sql`,
  `driver_tasks.sql`, `payments.sql`, `order_items.sql`, `order_item_breakdowns.sql` and `bypass_requests.sql` in
  `internal/db/queries/`, each with its guard and its exact effect. `OrderHandlers`, `Intake`,
  `PaymentHandlers`, `Cron` and `Inspection` are the handlers, statement by statement. Reads made
  before a transaction are parameters called `seen`, and nothing is assumed of them but what never
  changes, so they may be stale. Each handler is proved to commit exactly one abstract transition, or
  nothing.
- `Pipeline` defines those transitions for one order's rows together (its *dossier*), driven by the
  order's status alone, and the joint invariant `Sound`. The handlers decide differently: they look at
  task rows, payment rows and counts, and write old statuses from constant tables. That the two agree
  is what the invariant is for.
- `Transitions` writes each transition out in full: when it takes effect and every column it changes,
  in plain statuses and numbers.
- `Runs` takes whole runs from the empty database, with every read that happens outside a transaction
  as stale as it may be; `Records`, `Completion`, `Drivers` and `Pricing` prove what follows.
- `Bypasses` and `Numbering` treat the numbering of bypass requests, which the code does not protect
  and which is therefore no part of the invariant of every run.
- `Race` goes one level deeper for packing completion and bypass approval against payment confirmation:
  each SQL statement and each commit is a step, statements see only committed data and their own
  writes, matching updates wait for row locks, and transactions can be lost. Every other transaction of
  the order may come in between, as one step that waits for the same locks. `Repair` runs single
  transactions of that machine without interruption.

A driver task is identified by its order and type (its unique index), a payment by its order, a bypass
request by its order and position; histories are kept per order in insertion order. Prices are whole
cents, requested quantities exact reals, stored quantities hundredths rounded half away from zero.

**Shifts and attendance.** `Shift` compares the set-based query of the end-of-day sweep with the
per-employee lookup; `Attendance` has check-in, check-out and the sweep over the attendance table.

**The event broadcaster.** `Broadcaster` has the three methods over channels in the heap, and an
interleaving machine in which several broadcasts send at once; `Delivery` traces every message a
subscriber gets back to the steps of the run and ties the machine to the methods.

## Where the code falls short of its own account

- *Paid but waiting.* The comment at `internal/payment/handler_helpers.go:98-104` relies on packing
  completion to pick up an early payment. At statement level both transactions can miss each other
  (`Repair.DivergenceIsReachable`); this is the only way the tables diverge (`Race.OnlyOneDivergence`,
  with the exact step in `Race.DivergesIffStaleCommit`), and a redelivered confirmation repairs it
  (`Repair.RedeliveryRepairs`). Only a payment transaction that reports
  paid moves such an order (`Race.OnlyPaidReportFrees`), from whichever handler
  (`Repair.PaidReportRepairs`); a synchronisation or checkout that reads the payment while the order
  is diverged stops there (`Race.DivergedReadsStop`), one that had read it before may still go on.
- *Totals.* Total and stored items agree at all prices exactly when quantities have at most two
  decimals, which nothing checks (`Pricing.ReconcilesIffWholeHundredths`).
- *Stranding.* Validation wants one positive quantity and allows negative others; a processed order
  with a total of zero or less can never be paid or completed (`Completion.CompletableIffPayable`,
  `Intake.StrandingRequest`).
- *Check then act.* A bypass request and a driver's eligibility are checked outside any transaction;
  the numbering and "one active task" hold exactly when the checks still hold at the write
  (`Numbering.NumberedIffReadsHold`, `Drivers.OneTaskIffChecksHold`). Two overlapping requests can
  use up a station's attempts although no second attempt was made (`Numbering.OverlapReachesLimit`),
  and a driver whose two requests overlap gets both tasks (`Drivers.OverlapTakesTwo`).
- *Tolerated unique violations.* The handlers ignore a unique violation when creating the delivery
  task, but PostgreSQL has aborted the transaction by then; the model rolls back. In reachable states
  it never happens (`OrderHandlers.NoDeliveryTaskYet`).

## Model

| member | source | states |
|---|---|---|
| Runs.EveryStateIsSound | internal/order/handler_driver.go:187-346 | Induction over every run from the empty database: any number of orders, any interleaving of the eleven transactions, checkouts on totals and bypass inserts on statuses, pending checks and counts read at any earlier moments. The joint invariant (tasks, deadlines, history, payment, bill, bypass decisions) holds in every state, and every later state keeps what every earlier state recorded. |
| Runs.EveryStepIsEnabled | internal/payment/handler_payment.go:51-123 | In every run, the total a checkout read as positive at any earlier moment is still the order's total at the upsert, and an inserted bypass is for a station the order has reached, however stale the reads. |
| Runs.TablesAgree | internal/order/handler_driver.go:187-346 | In every reachable state the pickup task is available / in_progress exactly when the order is waiting_pickup_driver / laundry_to_outlet; the delivery task exists exactly from ready_for_delivery on with the matching status; a paid order never waits for payment; a payment's amount is the order's positive total. |
| Runs.BypassesAgree | internal/order/handler_bypass.go:421-514 | In every reachable state each bypass request is attempt 1 or 2 at a station the order has reached, has a reviewer exactly if decided, is rejected only as attempt 1 and approved only once the order has left the station. |
| Runs.AtMostTenMoves | internal/order/handler_order.go:114-138 | Over any run the number of status changes of an order is its number of history rows less one, and at most ten. |
| Runs.EachStatusIsLeftOnce | internal/order/handler_driver.go:142-145 | Two moves of one order in one run never leave the same status and never enter the same one: of any number of racing claims, processings, station completions, payment confirmations or final confirmations at most one takes effect. |
| Runs.DeliveryWasPaid | internal/payment/handler_helpers.go:83-115 | For every reachable order at ready_for_delivery or later there is a step of the run that took it there, after which its payment was recorded as paid and carried the amount that is still the order's total, whatever later notifications or checkouts did to the payment row. |
| Runs.TaskKeepsItsDriver | internal/db/queries/driver_tasks.sql:15-25 | Once a task has a driver, it has the same driver and claim time in every later state. |
| Runs.ClaimedByItsDriver | internal/order/handler_driver.go:187-198 | The driver and claim time a task records come from an action of the run: that driver's claim of the then untouched task. |
| Runs.CompletedByItsDriver | internal/order/handler_driver.go:303-314 | A completed task was completed by an action of the run made by its own recorded driver while it was in progress, at the recorded time. |
| Runs.TaskLife | internal/db/queries/driver_tasks.sql:1-25 | A transaction leaves a task row alone, creates it untouched, gives an untouched one to its claimer, or completes one for its holder. |
| Runs.DeadlineIsFixed | internal/order/handler_driver.go:319-329 | auto_confirm_at is set exactly from received_by_customer on, equals the delivery time plus 48 hours, and never changes afterwards. |
| Runs.ProcessedOnceForAll | internal/order/handler_pipeline.go:197-272 | For every order at washing or later there is exactly the action of the run that processed it: an accepted ProcessOrder that moved the order, whose stored lines, breakdown and bill are the order's items, breakdown and total in every later state. |
| Runs.ItemsFollowStatus | internal/order/handler_pipeline.go:85-98 | In every reachable state items exist exactly from washing on, and without items nothing is charged. |
| Runs.TotalsReconcile | internal/order/handler_pipeline.go:117-149 | If the request that processed the order had two-decimal quantities, total and stored items agree to half a cent in every later state, whatever the catalogue becomes. |
| Runs.StepKeepsSound | internal/order/handler_worker.go:402-458 | Any single transaction on any order keeps the joint invariant for all orders and loses no record. |
| Runs.HandlersAreLegal | internal/payment/handler_payment.go:37-60 | Runs contain whatever the handlers commit: checkouts on any total read positive before, bypass inserts on any order row, pending check and count read before, everything else at any time. |
| Pipeline.ApplyIsSound | internal/order/handler_driver.go:187-346 | Every transaction preserves the joint invariant of one order. |
| Pipeline.OpenedIsSound | internal/order/handler_order.go:114-149 | A freshly created order satisfies the joint invariant. |
| Pipeline.LeaveStationIsSound | internal/order/handler_worker.go:411-458 | Leaving washing, ironing or packing, paid or not, preserves the joint invariant. |
| Pipeline.ReviewIsSound | internal/order/handler_bypass.go:421-514 | A review decision, rejecting, approving, or force-approving the last attempt, preserves the joint invariant. |
| Pipeline.GatewayIsSound | internal/payment/handler_helpers.go:67-133 | Applying any payment status at any order status preserves the joint invariant. |
| Pipeline.InsertBypassIsSound | internal/order/handler_bypass.go:107-213 | The bare insert of a bypass request, with any count below the limit and at any time after the order reached the station, preserves the joint invariant. |
| Transitions.CreateOrderTransition | internal/order/handler_order.go:114-149 | Every row and column of a new order, and that an existing one is left alone. |
| Transitions.ClaimTransition | internal/order/handler_driver.go:187-231 | When a claim takes effect, by the order's status alone, and every column it changes, for pickup and delivery. |
| Transitions.PickupCompletedTransition | internal/order/handler_driver.go:303-346 | When the completion of a pickup takes effect and every column it changes. |
| Transitions.DeliveryCompletedTransition | internal/order/handler_driver.go:316-346 | The same for a delivery, with the deadline of 172800 seconds after it. |
| Transitions.ProcessTransition | internal/order/handler_pipeline.go:197-272 | Processing takes effect at laundry_arrived_outlet on a request with a positive quantity: one row per line with its item and price and its quantity to the nearest hundredth, and the charge plus fee to the nearest cent. |
| Transitions.StationTransition | internal/order/handler_worker.go:402-458 | When a station's completion takes effect and every column it changes, packing with and without a paid payment. |
| Transitions.InsertBypassTransition | internal/order/handler_bypass.go:204-213 | The one row a bypass insert adds, numbered one more than the count read. |
| Transitions.ReviewTransition | internal/order/handler_bypass.go:421-514 | A review of a pending request rejects a first attempt, or does to the order exactly what completing the station in the admin's name does and approves, or changes nothing. |
| Transitions.CheckoutTransition | internal/db/queries/payments.sql:1-16 | A checkout resets every column of the payment but paid_at. |
| Transitions.GatewayTransition | internal/payment/handler_helpers.go:67-133 | What a reported status changes in the payment, and that the order moves exactly on a paid report while waiting for payment. |
| Transitions.ClosingTransition | internal/order/handler_order.go:618-659 | Confirmation takes effect for the order's own customer once received; automatic completion once received; both write one row in the mover's name. |
| Records.HistoryIsShort | internal/order/handler_order.go:128-138 | A history has at most eleven rows and exactly one per stage reached, except that waiting_payment may be skipped. |
| Records.StageHasOneRow | internal/order/handler_worker.go:446-455 | Every stage reached (other than waiting_payment) has exactly one history row entering it. |
| Records.RowsAreDistinct | internal/order/handler_worker.go:446-455 | No two history rows leave the same status and no two enter the same one. |
| Records.EitherOrderReleases | internal/order/handler_worker.go:414-435 | Packing completion and payment confirmation, in whichever order they commit, end in ready_for_delivery, paid, with one fresh delivery task; the two histories are stated row by row. |
| Records.ApprovalHasItsRow | internal/order/handler_bypass.go:477-514 | An approved bypass is the only approved one at its station and has exactly one history row leaving it, written in its reviewer's name. |
| Bypasses.RequestsAreNumbered | internal/order/handler_bypass.go:125-134 | Where the numbering holds, the requests of an order at a station are 1..n with n at most 2; a second exists only after the first was rejected, and the second is never rejected. |
| Bypasses.CountIsCardinality | internal/db/queries/bypass_requests.sql:13-15 | The count is the number of the station's requests that are no longer pending. |
| Bypasses.LimitIsNeverReached | internal/order/handler_bypass.go:125-134 | Where the numbering holds and the order sits at a station, fewer than two requests there are decided, so bypass_limit_reached cannot be answered; without a pending request the count read gives the right next number. |
| Bypasses.InsertKeepsLadderIffReadsHold | internal/order/handler_bypass.go:117-213 | The bare insert, with whatever count was read, keeps the numbering if and only if as it happens every request at that station is rejected and the count is still right. |
| Bypasses.PendingCheckSuffices | internal/order/handler_bypass.go:117-123 | At the station itself "nothing pending" is the same as "all rejected". |
| Bypasses.OthersKeepLadder | internal/order/handler_bypass.go:421-514 | Every transaction but an insert keeps the numbering. |
| Numbering.NumberedIffReadsHold | internal/order/handler_bypass.go:107-213 | Over every run: all states number all requests if and only if every insert of the run happens while what it read is still true. |
| Numbering.OverlapReachesLimit | internal/order/handler_bypass.go:117-134 | Every run that has brought an order to a station without requests can go on so that two requests are both attempt 1 and, once rejected, the limit is reached with no second attempt ever made. |
| Records.ApplyIsLater | internal/db/queries/orders.sql:100-118 | No transaction rewrites history, drops a task's driver, changes a processed order's price or items, or reopens a decision. |
| Records.OneRowPerMove | internal/order/handler_worker.go:437-455 | A transaction that moves the order moves it forward and appends exactly one history row with the status it really had; any other appends none. |
| Records.ReleaseIsPaid | internal/order/handler_worker.go:414-420 | Only a transaction that leaves the payment paid takes an order to ready_for_delivery, and none takes it further in one step. |
| Pricing.ReconcilesIffWholeHundredths | internal/order/handler_pipeline.go:117-149 | Total price and stored items agree to half a cent at all catalogue prices if and only if every requested quantity has at most two decimals; the handler does not check that. |
| Pricing.BillReconciles | internal/order/handler_pipeline.go:137-143 | With two-decimal quantities the recorded total is within half a cent of the sum of quantity x price_at_order over the stored rows plus the fee. |
| Pricing.RoundIsNearest | migrations/000015_create_orders.up.sql:22-22 | Storing rounds to the nearest, and from half-way away from zero. |
| Pricing.ChargeIsSum | internal/order/handler_pipeline.go:137-138 | The charge of a request is additive, and of one line price times quantity. |
| Pricing.StoredChargeIsSum | migrations/000023_create_order_items.up.sql:5-6 | So is the charge of the stored rows. |
| Pricing.StoredIsNearest | migrations/000023_create_order_items.up.sql:5-5 | A quantity is stored unchanged exactly when it is a multiple of a hundredth, and is never off by more than half of one. |
| Pricing.ThirdDecimalExample | migrations/000023_create_order_items.up.sql:5-6 | Concrete failure: 0.005 units at 1000.00 are billed as 5.00 and stored as 10.00. |
| Completion.CanBeCompleted | internal/order/constants.go:40-74 | From every sound state an order that can be paid for has an explicit continuation of at most eleven accepted requests that completes it and leaves all other orders as they were; a failed or expired gateway transaction is replaced by a new checkout first. |
| Completion.CompletableIffPayable | internal/order/handler_pipeline.go:294-304 | An order can still be completed if and only if it is not yet processed or its total is positive. |
| Completion.UnpayableNeverCompletes | internal/payment/handler_payment.go:51-55 | No sequence of accepted requests, of any length, on any orders and creating any others, completes an order whose total is zero or less. |
| Intake.StrandingRequest | internal/order/handler_pipeline.go:299-309 | Concrete stranding request: quantities 1 and -1 of one active item meet everything ProcessOrder and the columns ask, bill nothing, and leave the order unpayable. |
| Completion.NextEventAdvances | internal/order/constants.go:40-74 | At every status before completed the next event is accepted, keeps the invariant, and brings the order strictly closer. |
| OrderHandlers.CreateOrder | internal/order/handler_order.go:105-154 | Commits exactly the opening of the order: order row, first history row, available pickup task; nothing else changes. |
| OrderHandlers.CompleteOrder | internal/order/handler_order.go:600-659 | Accepted only for the customer's own order read as received_by_customer; succeeds exactly when the row still is, and then commits the confirmation; otherwise changes nothing. |
| OrderHandlers.ClaimTask | internal/order/handler_driver.go:164-236 | Whatever was read before, the transaction commits the claim of the order's real status or nothing; it succeeds exactly when the order is at the claim status, so the unguarded order update always overwrites the status recorded as old. |
| OrderHandlers.CompleteTask | internal/order/handler_driver.go:280-354 | Succeeds exactly when the caller holds the task, commits the completion or nothing, and never answers order_status_mismatch in a reachable state. |
| OrderHandlers.CompleteStationTx | internal/order/handler_worker.go:402-458 | The exact tables after a committed station transition; no row exactly when the order is not at the station; aborted only when a delivery task already exists. |
| OrderHandlers.CompleteStation | internal/order/handler_worker.go:465-495 | Succeeds exactly when the order is at the station, commits that transition or nothing, and never fails on the unique index in a reachable state. |
| OrderHandlers.CreateBypassRequest | internal/order/handler_bypass.go:94-213 | Each reply is given exactly for its stale reads (order row, pending check, count), and an accepted request commits the bare insert with the count that was read; nothing is checked again. |
| OrderHandlers.CreateBypassRequestAlone | internal/order/handler_bypass.go:94-213 | Uninterrupted and on numbered requests: accepted exactly when the order is at the station and nothing is pending there, with the right attempt number; the limit is never answered and the numbering is kept. |
| OrderHandlers.ReviewBypassRequest | internal/order/handler_bypass.go:397-514 | All or nothing: commits the rejection, or the approval together with the station transition; answers station_already_processed exactly when an approval finds the order elsewhere, and then leaves the bypass pending and every table as it was. |
| OrderHandlers.TaskTellsStatus | internal/order/handler_driver.go:187-198 | A task row is available and undriven, or in_progress, exactly when its order has the matching status, which is why guarding the task row alone is enough. |
| OrderHandlers.NoDeliveryTaskYet | internal/order/handler_worker.go:437-444 | Before release no delivery task exists, so creating one never meets the unique index. |
| OrderHandlers.CommitsKeepSound | internal/order/handler_worker.go:402-458 | A committed transition leaves every order's tables in a sound configuration, so the handlers' hypotheses carry over to the next call. |
| Intake.ProcessOrder | internal/order/handler_pipeline.go:68-292 | Accepted exactly when the reads, the validation, both catalogue lookups, the columns' ranges, the unique index on clothing types and the guarded update all hold; commits that one processing; every failure changes nothing. |
| Intake.OnlyDuplicatesCollide | migrations/000024_create_order_item_breakdowns.up.sql:11-11 | In reachable states only a clothing type named twice in the request itself meets the unique index. |
| Intake.RecordProcessing | internal/order/handler_pipeline.go:197-272 | The transaction: succeeds exactly at laundry_arrived_outlet with rows that fit and clothing types that are new, with the exact tables after it; a loser's inserted items and breakdown are undone. |
| Intake.ValidateProcessOrderRequest | internal/order/handler_pipeline.go:294-333 | Valid exactly when some quantity is positive, the weight is a whole number from 0 to 999.99, and weight and breakdown come together; every refusal is characterised. |
| Intake.ResolveItems | internal/order/handler_pipeline.go:117-149 | Succeeds exactly when all items are in the active catalogue; returns every line with its catalogue price and the sum of the extended prices. |
| Intake.ResolveBreakdown | internal/order/handler_pipeline.go:151-182 | Succeeds exactly when all clothing types are active. |
| Intake.ResolveRequest | internal/order/handler_pipeline.go:106-182 | Succeeds exactly for a well-formed request of known items and clothing types, and returns its lines and charge. |
| Intake.ColumnRanges | migrations/000023_create_order_items.up.sql:5-6 | The largest quantities, prices and totals the columns take. |
| Intake.InsertItems | internal/order/handler_pipeline.go:206-225 | Succeeds exactly when every line fits its columns, and then appends to this order, in request order, the rows the database stores. |
| Intake.InsertBreakdown | internal/order/handler_pipeline.go:228-238 | Succeeds exactly when no clothing type is repeated or already recorded, and then appends the breakdown to this order. |
| PaymentHandlers.RedeliveryChangesNothing | internal/payment/handler_payment.go:283-306 | Any notification delivered twice in a row, of any kind, in any sound state: the second delivery changes nothing. |
| PaymentHandlers.ConfirmationSettles | internal/payment/handler_helpers.go:83-122 | A matching confirmation leaves the payment paid and the order not waiting for payment, releasing it exactly when it was waiting. |
| PaymentHandlers.ApplyPaymentStatus | internal/payment/handler_helpers.go:67-157 | With a report computed from any earlier read, commits exactly the payment transition in every reachable state and never fails there; a failing run restores all tables. |
| PaymentHandlers.HandleWebhook | internal/payment/handler_payment.go:253-334 | Whatever payment row and order status were read: each refusal is given exactly for an unsigned notification, another gateway transaction, another amount, or nothing left to do; only a signed and matching notification writes; only a settlement or accepted capture (or an unrecognised status over a payment read as paid) makes a payment paid or moves an order; and what is written is exactly that payment transition. |
| PaymentHandlers.HandleWebhookAlone | internal/payment/handler_payment.go:253-334 | Reads and transaction uninterrupted: the order's dossier becomes what one delivery of the notification makes of it, and no other order changes. |
| PaymentHandlers.OnlyMatchingNotificationsAct | internal/payment/handler_payment.go:260-287 | A delivery that changes anything was signed, for this gateway transaction, and over an amount less than a rupiah off; one that newly pays or moves the order reports a settlement or an accepted capture. |
| PaymentHandlers.ResolvesExactly | internal/payment/handler_helpers.go:38-60 | For each payment status, exactly which gateway and fraud statuses over which recorded status lead to it. |
| PaymentHandlers.RupiahIsNearest | internal/payment/handler_payment.go:283-283 | Amounts are compared at the nearest whole rupiah, half-way away from zero. |
| PaymentHandlers.SyncPaymentStatus | internal/payment/handler_payment.go:198-242 | Does nothing for a payment read as paid; otherwise commits the payment transition for the gateway's answer, and only a settlement or an accepted capture makes the payment paid or moves the order. |
| PaymentHandlers.CreateTransaction | internal/payment/handler_payment.go:37-132 | Each refusal is given exactly for its reason; accepted exactly for the customer's own order, read with a positive total and no paid payment, when the gateway answers; then upserts the total that was read, over whatever the payment row has become. |
| Race.OnlyOneDivergence | internal/payment/handler_helpers.go:98-104 | From any sound state, however the statements, commits and losses of any number of packing completions, bypass approvals and payment transactions interleave with each other, with checkouts and with every other transaction of the order, a committed state satisfies the whole invariant unless it is paid and waiting_payment, and then it has no delivery task. |
| Race.EveryRaceStateIsSound | internal/order/handler_worker.go:411-458 | Invariant of every statement-level run: row locks exclude each other, transactions in flight agree with the committed rows they hold, and committed data are sound but for the payment's status. |
| Race.ReleaseWasPaid | internal/order/handler_worker.go:414-420 | At statement level too, an order is released only after some committed state in which its payment was paid. |
| Race.OnlyPaidReportFrees | internal/payment/handler_helpers.go:105-112 | A diverged order keeps its status until a payment transaction that reports paid and found it waiting commits. |
| Race.DivergedReadsStop | internal/payment/handler_payment.go:210-213 | A SyncPaymentStatus or CreateTransaction that reads the payment while the order is diverged goes no further. |
| Race.OtherSound | internal/order/handler_worker.go:402-458 | Every other transaction of the order, on data sound but for the payment's status, keeps them so. |
| Race.DivergesIffStaleCommit | internal/order/handler_worker.go:414-426 | A step diverges if and only if it is the commit of a station transaction that read "not paid" over a by-now paid row, or of a payment transaction that found the order packing over a by-now waiting one. |
| Repair.DivergenceIsReachable | internal/payment/handler_helpers.go:98-104 | A concrete interleaving that ends diverged, from every sound unpaid order at packing that has a payment row. |
| Repair.RedeliveryRepairs | internal/payment/handler_payment.go:289-331 | From every reachable diverged state without locks, one matching payment confirmation is not short-circuited and, uninterrupted, leads to ready_for_delivery with one delivery task and one new history row. |
| Repair.PaidReportRepairs | internal/payment/handler_helpers.go:67-133 | The same for any payment transaction that reports paid, whichever handler it comes from and whatever that handler had read. |
| Repair.StationAlone | internal/order/handler_worker.go:402-495 | Uninterrupted, the statements of a station transaction make all its writes or none. |
| Repair.CompletionAlone | internal/order/handler_worker.go:465-495 | Uninterrupted, a packing completion has exactly the effect of the atomic transition. |
| Repair.ApprovalAlone | internal/order/handler_bypass.go:468-514 | Uninterrupted, an approval at packing, forced or not, has exactly the effect of the atomic review. |
| Repair.SettleAlone | internal/payment/handler_helpers.go:67-133 | Uninterrupted, the statements of a payment transaction have exactly the effect of the atomic transition, from diverged states too. |
| Race.StepKeepsRaceSound | internal/payment/handler_helpers.go:105-122 | Each statement, commit, loss, begin or checkout keeps the statement-level invariant. |
| Drivers.NeverTwoTasks | internal/order/handler_helpers.go:35-48 | A driver whose own requests do not overlap never holds two in_progress tasks, whatever all others do in between. |
| Drivers.CheckThenClaim | internal/order/handler_driver.go:153-198 | A free driver passes the check and then gets a task still to be claimed. |
| Drivers.ClaimKeepsOneTaskIffFree | internal/order/handler_helpers.go:41-45 | A winning claim keeps "at most one task" if and only if the driver is still free when it commits. |
| Drivers.OneTaskIffChecksHold | internal/order/handler_helpers.go:35-48 | Over every run: a driver never holds two tasks if and only if every claim the driver wins is committed while the driver is free. |
| Drivers.OverlapTakesTwo | internal/order/handler_driver.go:153-198 | Every run with a free driver and two orders to be claimed can go on so that both eligibility checks pass before either claim, and the driver holds both tasks. |
| Drivers.OnlyOwnClaimsGive | internal/db/queries/driver_tasks.sql:15-19 | Only a claim in the driver's own name gives a driver a task. |
| Cron.RunAutoCompleteOrders | internal/cron/auto_complete_orders.go:25-83 | With any transactions of any kind between its steps: the candidates are exactly the received orders past their deadline, each once; all end completed; what happened is a piece of a run made of one step per candidate and the others' steps; and the count is how many of the job's own steps moved their order. |
| Cron.AutoComplete | internal/cron/auto_complete_orders.go:38-79 | Commits the automatic completion of the order's real status or nothing; succeeds exactly when the order is still received_by_customer. |
| Cron.ClosedByExactlyOne | internal/cron/auto_complete_orders.go:17-24 | A received order that ends completed was moved by exactly one step, whatever came between, so nothing is counted that somebody else completed. |
| Cron.ClosingsOnlyClose | internal/cron/auto_complete_orders.go:55-62 | With only confirmations and completions about, an order stays as it was or was received and is closed once, with a history row in the name of whoever's step did it. |
| Tables.Database.ListOrdersReadyForAutoComplete | internal/db/queries/orders.sql:96-98 | Exactly the received orders whose deadline has passed, each once, in no particular order. |
| Tables.Database.CountNonPendingBypassRequests | internal/db/queries/bypass_requests.sql:13-15 | The number of decided requests of the order at the station. |
| Shift.ListingIsAssignment | internal/db/queries/employee_shifts.sql:27-31 | Filter, sort, first per employee: for every result the database may return, the listing has each employee at most once and exactly the row the per-employee lookup picks, and no one else. |
| Shift.AssignmentSpec | internal/shift/handler_helpers.go:89-122 | The row chosen is active, the employee's own, for the date itself or, if none is, for its weekday; none is chosen only when no row fits. |
| Shift.ListingAgreesIffLive | internal/shift/handler_helpers.go:89-122 | The listed row and the lookup's answer differ exactly when the row's work shift is soft-deleted. |
| Shift.WindowSpec | internal/shift/handler_helpers.go:69-81 | A window starts on its civil date, lasts (end - start) modulo a day, ends on the next date exactly when end is before start, and is the same for every instant of the date. |
| Shift.WindowIsOnTheClock | internal/shift/handler_helpers.go:72-80 | A window starts at start_time and ends at end_time on Jakarta's wall clock, the end on the next date exactly for a shift over midnight. |
| Shift.CalendarAnchors | internal/shift/handler_helpers.go:107-107 | Where day 0 lies and which weekday it is; the weekdays follow one another. |
| Shift.CivilDateStartSpec | internal/shift/handler_helpers.go:58-61 | Civil midnight is the last one not after the instant, on the same civil date, and idempotent. |
| Shift.TruncateKeepsDateIff | internal/shift/handler_helpers.go:53-57 | Truncation to 24 hours stays on the civil date if and only if the local time is 07:00 or later. |
| Attendance.EveryRowIsSound | internal/attendance/handler_attendance.go:39-95 | Over every run of check-ins, check-outs and sweep statements on a monotone clock: check-in inside its window, late minutes and status as the window and threshold say, check-out not before check-in nor before the window's end, and written at most once, overnight windows included. |
| Attendance.RowsAgreeWithTheClock | internal/attendance/handler_attendance.go:39-95 | The same read off the wall clock: check-in hours, late minutes and status by the shift's start, check-out not before check-in nor the shift's end, and nothing changes later but a first check-out. |
| Attendance.MinutesAreWhole | internal/attendance/handler_attendance.go:76-76 | Late minutes are whole minutes, truncated toward zero. |
| Attendance.OnTheClock | internal/attendance/handler_attendance.go:39-47 | The hours of check-in and check-out on the wall clock are exactly the instants the window and the tolerance of 15 minutes allow. |
| Attendance.ApplyKeepsTable | internal/attendance/handler_attendance.go:139-195 | One statement keeps every row consistent and rewrites nothing already recorded. |
| Attendance.Attendances.CheckIn | internal/attendance/handler_attendance.go:31-104 | Succeeds exactly when the employee's shift of the date is live, the wall clock is within its check-in hours, the employee is in range and has no row yet; the row inserted is stated in full. |
| Attendance.Attendances.CheckOut | internal/attendance/handler_attendance.go:137-203 | Succeeds exactly when the live shift has ended on the wall clock of its own date and the day's row is open; then only the check-out changes. A shift over midnight is never checked out by hand. |
| Attendance.Attendances.RunEndOfDaySweep | internal/attendance/handler_admin.go:184-231 | For any listing the database may return: scheduled employees without a row become absent, open rows of live shifts are closed at the window's end, every other row stays, and the counts are the numbers of listed employees without a row and with an open one. |
| Attendance.Attendances.SweepEmployee | internal/attendance/handler_admin.go:198-228 | The loop body: the exact row of one employee after the sweep, and whether each counter moves. |
| Attendance.Attendances.CreateAbsentAttendance | internal/db/queries/attendances.sql:52-56 | Inserts exactly when the key is free. |
| Attendance.Attendances.AutoCheckoutAttendance | internal/db/queries/attendances.sql:58-61 | Closes exactly a checked-in row that is not checked out. |
| Attendance.SecondSweepFindsNothing | internal/attendance/handler_admin.go:198-230 | After a sweep every scheduled employee has a row, no row of a live shift is open, and another sweep under any listing changes nothing and counts zero. |
| Attendance.SweepKeepsRows | internal/attendance/handler_admin.go:204-227 | A sweep drops no row and overwrites no recorded check-in, check-out or status. |
| Attendance.SweepIsStatements | internal/attendance/handler_admin.go:204-227 | Each employee's part of a sweep is one of the statements the runs are made of. |
| Broadcaster.EveryStateIsSound | internal/sse/broadcaster.go:19-52 | In every interleaving of subscribe, unsubscribe (once per subscription), overlapping broadcasts and reads no step sends on or closes a closed channel, no empty subscriber set is kept, and every subscriber's books are right. |
| Delivery.DeliveryIsFaithful | internal/sse/broadcaster.go:40-52 | What a subscriber received and can still receive is a subsequence of the messages broadcast on its name between the step that subscribed it and the one that removes it: each attempt is traced to the step that began that broadcast with that message and to the step that tried it, with the buffer's fill of that moment; each broadcast is tried once, non-overlapping ones in order, and once nothing is being sent exactly those begun while it was subscribed have been tried. |
| Delivery.AttemptIsTraced | internal/sse/broadcaster.go:43-51 | Every attempt recorded for a subscriber is a Send of the run, of a broadcast begun earlier with that message on its name while it was subscribed; it is kept exactly when the buffer had room at that step. |
| Delivery.BegunIsTraced | internal/sse/broadcaster.go:40-43 | What counts as begun for a subscriber is exactly what steps of the run began on its name while it was subscribed. |
| Delivery.ListedIffSubscribed | internal/sse/broadcaster.go:19-38 | In every run the subscribers of a name are exactly the channels that an earlier step subscribed to it and none since removed. |
| Delivery.OrderIsKept | internal/sse/broadcaster.go:40-52 | A broadcast that ended before another began precedes it in every subscriber's log. |
| Delivery.BroadcastAlone | internal/sse/broadcaster.go:40-52 | Run in one piece, in whatever order the map is walked, the machine's broadcast does what Hub.Broadcast promises. |
| Delivery.SubscribeAlone | internal/sse/broadcaster.go:19-28 | Whenever nothing is being sent a fresh channel can subscribe, and the machine's step does what Hub.Subscribe promises. |
| Delivery.UnsubscribeAlone | internal/sse/broadcaster.go:30-38 | Run in one piece, removing and closing do what Hub.Unsubscribe promises. |
| Broadcaster.NothingPanics | internal/sse/broadcaster.go:30-38 | In a sound state no enabled step sends on, or closes, a closed channel, although close runs outside the lock. |
| Broadcaster.StepKeepsSound | internal/sse/broadcaster.go:19-52 | Every enabled step keeps the invariant. |
| Broadcaster.KeptIsSubsequence | internal/sse/broadcaster.go:43-51 | Dropping the sends that found no room leaves a subsequence of all sends. |
| Broadcaster.SubsequenceEmbeds | internal/sse/broadcaster.go:43-51 | The messages of a subsequence are found in the whole in order. |
| Broadcaster.Hub.Subscribe | internal/sse/broadcaster.go:19-28 | Adds one fresh, open, empty channel under the name and changes nothing else. |
| Broadcaster.Hub.Unsubscribe | internal/sse/broadcaster.go:30-38 | Removes the channel, removes the name exactly when it was the last, closes the channel, and leaves other names alone. |
| Broadcaster.Hub.Broadcast | internal/sse/broadcaster.go:40-52 | In whatever order the map is walked, each subscriber of the name with room gets the message at the end; no other channel and no subscription changes. |
| Inspection.SubmitItems | internal/order/handler_worker.go:347-369 | Discrepancies are empty exactly when every expected count matches; only then is the station completed, exactly as CompleteStation would; a mismatch changes nothing. |
| Inspection.CompareItems | internal/order/handler_worker.go:139-172 | Reports exactly the differing expected items, each once, and none if and only if all match; unexpected items are ignored. |
| Inspection.ExpectedItems | internal/order/handler_worker.go:110-136 | The two maps represent the breakdown rows and the whole pieces of the per-piece items (truncated toward zero, negative ones too), the last entry for an id winning. |
| Inspection.MatchesWholePieces | internal/order/handler_worker.go:131-132 | A per-piece item stored as n whole pieces matches a submission of n and no other. |
| Inspection.LastRowCounts | internal/order/handler_worker.go:123-133 | Each per-piece item is expected by the whole pieces of its last row. |
| Inspection.OnlyPieceRowsCount | internal/order/handler_worker.go:128-132 | Nothing but a stored per-piece item is expected. |
| Inspection.LastEntryCounts | internal/order/handler_worker.go:143-149 | Of several entries for an id the last counts. |
| Inspection.PiecesAreWhole | internal/order/handler_worker.go:132-132 | Pieces are whole hundreds of hundredths, truncated toward zero. |
| Inspection.UnmentionedIsZero | internal/order/handler_worker.go:139-147 | An item the submission does not mention counts as zero. |
| Inspection.NoDifferenceIffMatch | internal/order/handler_worker.go:151-169 | A list of exactly the differing items is empty if and only if all counts match. |

## Left out

- CheckOut: check-out after midnight of an overnight shift, because the lookup re-anchors to the new civil date; only the sweep closes such rows.
- RunEndOfDaySweep: the schedule and the work shifts do not change during a day, and statements of others between its iterations appear only as single steps in `EveryRowIsSound`.
- Race.OnlyOneDivergence: packing completions, approvals at packing and payment transactions are split into statements; the order's other transactions are single steps, because they decide only on rows that their own guarded updates lock.
- HTTP, sessions, roles, outlet scoping and shift eligibility of workers; the caller's identity is a parameter.
- The payment gateway, photo storage, mail and geocoding clients; the gateway is any stream of notifications, its signature a boolean.
- Notifications and the content of broadcast events.
- Distances, the nearest outlet and the flat delivery fee: the fee of a new order is arbitrary.
- The invoice-number retry loop: an order is created with a fresh identity or not at all.
- Binary floating point in prices: amounts are exact until they are rounded for storage.
- The stored weight of an order: validated, but not part of its dossier.
- Columns no transition reads: updated_at, gateway_response, payment_link, notes, coordinates, photos.
- Reading history back by created_at: rows are in insertion order.
- Database failures, except failed guards, refused inserts, and transactions lost in `Race`; the candidates the auto-complete job skips after an error.
- The application's and the database's clocks are one clock.
- Employee lifecycle, shift editing, complaints, reports, catalogue and address administration, tokens, rate limiting, seed data.
