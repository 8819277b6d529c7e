/** One order and everything recorded about it, and what each committed transaction does to it.

    The transitions here are driven by the order's status alone. The handlers decide by looking at
    other tables (task rows, payment rows, counts of bypass rows) and write constants from lookup
    tables; OrderHandlers and PaymentHandlers prove that they have exactly these effects. */
module Pipeline {
  import opened Schema
  import opened Pricing

  datatype Dossier = Dossier(
    order: Order,
    pickup: Option<DriverTask>,
    delivery: Option<DriverTask>,
    payment: Option<Payment>,
    history: seq<HistoryRow>,
    items: seq<OrderItem>,
    breakdown: seq<Count>,
    bypasses: seq<Bypass>)

  /** The committed state: every order's dossier. */
  type World = map<OrderId, Dossier>

  /** The transactions that touch an existing order. Checkout is CreateTransaction's upsert and
      Gateway is applyPaymentStatus, reached from the webhook and from SyncPaymentStatus.
      InsertBypass is the INSERT of CreateBypassRequest on its own: the checks and the count it
      rests on were read earlier, outside any transaction. */
  datatype Event =
    | Claim(kind: TaskKind, driver: EmployeeId, at: Time)
    | CompleteTask(kind: TaskKind, driver: EmployeeId, at: Time)
    | Process(admin: EmployeeId, request: seq<Line>, breakdown: seq<Count>)
    | CompleteStation(station: Station, worker: EmployeeId)
    | InsertBypass(station: Station, worker: EmployeeId, count: nat)
    | Review(index: nat, admin: EmployeeId, approve: bool)
    | Checkout(amount: Cents, gateway: GatewayId)
    | Gateway(report: PaymentStatus, at: Time)
    | Confirm(customer: CustomerId)
    | AutoComplete

  /** What CreateOrder commits. */
  function Opened(customer: CustomerId, fee: Cents): Dossier {
    Dossier(
      Order(customer, WaitingPickupDriver, fee, 0, None, None),
      Some(NEW_TASK), None, None,
      [HistoryRow(None, WaitingPickupDriver, ByCustomer(customer))], [], [], [])
  }

  /** Moving the order always records the status it really had. */
  function Advance(d: Dossier, next: Status, actor: Actor): Dossier {
    d.(order := d.order.(status := next),
       history := d.history + [HistoryRow(Some(d.order.status), next, actor)])
  }

  predicate IsPaid(d: Dossier) {
    d.payment.Some? && d.payment.value.status == Paid
  }

  /** Release to the drivers: ready_for_delivery together with a fresh delivery task. */
  function Release(d: Dossier, actor: Actor): Dossier {
    Advance(d, ReadyForDelivery, actor).(delivery := Some(NEW_TASK))
  }

  /** Leaving a station: packing goes straight to release when the order is already paid. */
  function LeaveStation(d: Dossier, actor: Actor): Dossier
    requires d.order.status.Washing? || d.order.status.Ironing? || d.order.status.Packing?
  {
    if d.order.status == Packing && IsPaid(d) then Release(d, actor)
    else Advance(d, StationNextStatus(d.order.status), actor)
  }

  function Task(d: Dossier, k: TaskKind): Option<DriverTask> {
    match k case Pickup => d.pickup case Delivery => d.delivery
  }

  function WithTask(d: Dossier, k: TaskKind, t: DriverTask): Dossier {
    match k case Pickup => d.(pickup := Some(t)) case Delivery => d.(delivery := Some(t))
  }

  predicate Holds(d: Dossier, k: TaskKind, driver: EmployeeId) {
    Task(d, k).Some? && Task(d, k).value.status == InProgress && Task(d, k).value.driver == Some(driver)
  }

  function Decided(b: Bypass, status: BypassStatus, admin: EmployeeId): Bypass {
    b.(status := status, reviewedBy := Some(admin))
  }

  function ClaimEffect(d: Dossier, k: TaskKind, driver: EmployeeId, at: Time): Dossier {
    var moved := Advance(d, ClaimNextStatus(k), ByEmployee(driver));
    var taken := WithTask(moved, k, DriverTask(InProgress, Some(driver), Some(at), None));
    if k == Pickup then taken.(order := taken.order.(pickupSchedule := Some(at))) else taken
  }

  function CompleteTaskEffect(d: Dossier, k: TaskKind, driver: EmployeeId, at: Time): Dossier
    requires Task(d, k).Some?
  {
    var moved := Advance(d, CompleteNextStatus(k), ByEmployee(driver));
    var done := WithTask(moved, k, Task(d, k).value.(status := Done, completedAt := Some(at)));
    if k == Delivery then done.(order := done.order.(autoConfirmAt := Some(at + AUTO_CONFIRM_DELAY))) else done
  }

  function ReviewEffect(d: Dossier, index: nat, admin: EmployeeId, approve: bool): Dossier
    requires index < |d.bypasses|
  {
    var b := d.bypasses[index];
    if !approve && b.attempt < MAX_BYPASS_ATTEMPTS_PER_STATION then
      d.(bypasses := d.bypasses[index := Decided(b, Rejected, admin)])
    else if d.order.status == b.station then
      LeaveStation(d, ByEmployee(admin)).(bypasses := d.bypasses[index := Decided(b, Approved, admin)])
    else d
  }

  function GatewayEffect(d: Dossier, report: PaymentStatus, at: Time): Dossier
    requires d.payment.Some?
  {
    var noted := d.(payment := Some(d.payment.value.(
      status := report, paidAt := if report == Paid then Some(at) else None)));
    if report == Paid && d.order.status == WaitingPayment then Release(noted, BySystem) else noted
  }

  function Apply(d: Dossier, e: Event): Dossier {
    match e
    case Claim(k, driver, at) =>
      if d.order.status == ClaimOldStatus(k) then ClaimEffect(d, k, driver, at) else d
    case CompleteTask(k, driver, at) =>
      if d.order.status == CompleteOldStatus(k) && Holds(d, k, driver) then CompleteTaskEffect(d, k, driver, at) else d
    case Process(admin, request, breakdown) =>
      if d.order.status == LaundryArrivedOutlet && Admissible(request) then
        Advance(d, Washing, ByEmployee(admin)).(
          order := d.order.(status := Washing, total := Bill(request, d.order.fee)), items := Store(request), breakdown := breakdown)
      else d
    case CompleteStation(s, worker) =>
      if d.order.status == s then LeaveStation(d, ByEmployee(worker)) else d
    case InsertBypass(s, worker, count) =>
      d.(bypasses := d.bypasses + [Bypass(s, worker, count + 1, Pending, None)])
    case Review(index, admin, approve) =>
      if index < |d.bypasses| && d.bypasses[index].status == Pending then ReviewEffect(d, index, admin, approve) else d
    case Checkout(amount, gateway) =>
      d.(payment := Some(Payment(amount, PaymentPending, gateway,
                                 if d.payment.Some? then d.payment.value.paidAt else None)))
    case Gateway(report, at) =>
      if d.payment.Some? then GatewayEffect(d, report, at) else d
    case Confirm(customer) =>
      if d.order.status == ReceivedByCustomer && d.order.customer == customer
      then Advance(d, Completed, ByCustomer(customer)) else d
    case AutoComplete =>
      if d.order.status == ReceivedByCustomer then Advance(d, Completed, BySystem) else d
  }

  // ------------------------------------------------------------------------------------------
  // The joint invariant over the seven tables.

  /** The status a task must have, given how far the order is past the task's claim point. */
  predicate TaskInStep(t: Option<DriverTask>, rank: nat, claimRank: nat) {
    if rank < claimRank then t.None?
    else
      && t.Some?
      && var row := t.value;
      && row.status == (if rank == claimRank then Available else if rank == claimRank + 1 then InProgress else Done)
      && (row.driver.None? <==> row.status == Available)
      && (row.takenAt.None? <==> row.status == Available)
      && (row.completedAt.Some? <==> row.status == Done)
  }

  /** Both tasks and the two COALESCE'd timestamps move in step with the order. */
  predicate LockStep(d: Dossier) {
    var r := Rank(d.order.status);
    && TaskInStep(d.pickup, r, 0)
    && TaskInStep(d.delivery, r, 7)
    && d.order.pickupSchedule == d.pickup.value.takenAt
    && (if r < 9 then d.order.autoConfirmAt.None?
        else d.order.autoConfirmAt == Some(d.delivery.value.completedAt.value + AUTO_CONFIRM_DELAY))
  }

  /** An unbroken path along pipeline edges from null to `last`. */
  predicate HistoryPath(h: seq<HistoryRow>, last: Status) {
    && |h| > 0
    && h[0].before.None? && h[0].after == WaitingPickupDriver
    && h[|h| - 1].after == last
    && forall i :: 0 < i < |h| ==>
         h[i].before == Some(h[i - 1].after) && Edge(h[i - 1].after, h[i].after)
  }

  /** A paid order never waits for payment; a payment row carries the order's positive total;
      nothing is delivered without one. */
  predicate PaymentSound(d: Dossier) {
    && (d.payment.Some? ==>
          var p := d.payment.value;
          && p.amount == d.order.total > 0
          && (p.status == Paid ==> d.order.status != WaitingPayment && p.paidAt.Some?))
    && (Rank(d.order.status) >= Rank(ReadyForDelivery) ==> d.payment.Some?)
  }

  ghost predicate FromOneRequest(d: Dossier) {
    exists request :: Admissible(request) && d.items == Store(request) && d.order.total == Bill(request, d.order.fee)
  }

  ghost predicate BillSound(d: Dossier) {
    if Rank(d.order.status) < Rank(Washing) then d.items == [] && d.breakdown == [] && d.order.total == 0
    else FromOneRequest(d)
  }

  /** A request's own columns: undecided or decided by someone, and the last attempt is never
      rejected. */
  predicate BypassRowSound(b: Bypass) {
    && 1 <= b.attempt <= MAX_BYPASS_ATTEMPTS_PER_STATION
    && (b.reviewedBy.None? <==> b.status == Pending)
    && (b.status == Rejected ==> b.attempt < MAX_BYPASS_ATTEMPTS_PER_STATION)
  }

  /** At most one request is ever approved at a station. */
  predicate OneApproval(bs: seq<Bypass>) {
    forall i, j :: 0 <= i < j < |bs| && bs[i].status == Approved && bs[j].status == Approved ==> bs[i].station != bs[j].station
  }

  /** The row that records leaving station s by the given employee. */
  predicate LeftBy(r: HistoryRow, s: Station, employee: EmployeeId) {
    r.before == Some(s) && r.actor == ByEmployee(employee)
  }

  predicate BypassOutcome(b: Bypass, h: seq<HistoryRow>, status: Status) {
    && Rank(b.station) <= Rank(status)
    && (b.status == Approved ==>
          && Rank(b.station) < Rank(status)
          && b.reviewedBy.Some?
          && exists k :: 0 <= k < |h| && LeftBy(h[k], b.station, b.reviewedBy.value))
  }

  predicate BypassSound(d: Dossier) {
    && OneApproval(d.bypasses)
    && forall i :: 0 <= i < |d.bypasses| ==>
         BypassRowSound(d.bypasses[i]) && BypassOutcome(d.bypasses[i], d.history, d.order.status)
  }

  ghost predicate Sound(d: Dossier) {
    && LockStep(d)
    && HistoryPath(d.history, d.order.status)
    && PaymentSound(d)
    && BillSound(d)
    && BypassSound(d)
  }

  /** What the reads before a write still guarantee when it happens; Runs derives it from reads
      however stale. CreateTransaction upserts only a positive total, and CreateBypassRequest
      inserts only for an order it saw at the station, with a count below the limit. */
  predicate Enabled(d: Dossier, e: Event) {
    && (e.Checkout? ==> e.amount == d.order.total > 0)
    && (e.InsertBypass? ==> Rank(e.station) <= Rank(d.order.status) && e.count < MAX_BYPASS_ATTEMPTS_PER_STATION)
  }

  lemma OpenedIsSound(customer: CustomerId, fee: Cents)
    ensures Sound(Opened(customer, fee))
  {}

  lemma HistoryGrows(h: seq<HistoryRow>, last: Status, row: HistoryRow)
    requires HistoryPath(h, last) && row.before == Some(last) && Edge(last, row.after)
    ensures HistoryPath(h + [row], row.after)
  {}

  lemma OutcomeSurvives(b: Bypass, h: seq<HistoryRow>, last: Status, row: HistoryRow)
    requires BypassOutcome(b, h, last) && Rank(last) < Rank(row.after)
    ensures BypassOutcome(b, h + [row], row.after)
  {
    if b.status == Approved {
      var k :| 0 <= k < |h| && LeftBy(h[k], b.station, b.reviewedBy.value);
      assert (h + [row])[k] == h[k];
    }
  }

  /** Any forward move keeps history and bypass outcomes; tasks and money are up to the caller. */
  lemma AdvanceKeepsRecords(d: Dossier, next: Status, actor: Actor)
    requires HistoryPath(d.history, d.order.status) && BypassSound(d) && Edge(d.order.status, next)
    ensures HistoryPath(Advance(d, next, actor).history, next) && BypassSound(Advance(d, next, actor))
  {
    var row := HistoryRow(Some(d.order.status), next, actor);
    HistoryGrows(d.history, d.order.status, row);
    forall i | 0 <= i < |d.bypasses| ensures BypassOutcome(d.bypasses[i], d.history + [row], next) {
      OutcomeSurvives(d.bypasses[i], d.history, d.order.status, row);
    }
  }

  lemma AdvanceKeepsBill(d: Dossier, next: Status, actor: Actor)
    requires BillSound(d) && Rank(d.order.status) < Rank(next)
    requires Rank(d.order.status) < Rank(Washing) ==> Rank(next) < Rank(Washing)
    ensures BillSound(Advance(d, next, actor))
  {
    if Rank(d.order.status) >= Rank(Washing) {
      var request :| Admissible(request) && d.items == Store(request) && d.order.total == Bill(request, d.order.fee);
      assert FromOneRequest(Advance(d, next, actor));
    }
  }

  lemma LeaveStationIsSound(d: Dossier, actor: Actor)
    requires Sound(d) && (d.order.status.Washing? || d.order.status.Ironing? || d.order.status.Packing?)
    ensures Sound(LeaveStation(d, actor))
  {
    var next := if d.order.status == Packing && IsPaid(d) then ReadyForDelivery else StationNextStatus(d.order.status);
    AdvanceKeepsRecords(d, next, actor);
    AdvanceKeepsBill(d, next, actor);
    var a := Advance(d, next, actor);
    assert FromOneRequest(a) ==> FromOneRequest(a.(delivery := Some(NEW_TASK)));
  }

  lemma InsertBypassIsSound(d: Dossier, s: Station, worker: EmployeeId, count: nat)
    requires Sound(d) && Enabled(d, InsertBypass(s, worker, count))
    ensures Sound(Apply(d, InsertBypass(s, worker, count)))
  {
    assert FromOneRequest(d) ==> FromOneRequest(Apply(d, InsertBypass(s, worker, count)));
  }

  lemma RejectionIsSound(d: Dossier, index: nat, admin: EmployeeId)
    requires Sound(d) && index < |d.bypasses| && d.bypasses[index].status == Pending
    requires d.bypasses[index].attempt < MAX_BYPASS_ATTEMPTS_PER_STATION
    ensures Sound(d.(bypasses := d.bypasses[index := Decided(d.bypasses[index], Rejected, admin)]))
  {
    assert FromOneRequest(d) ==>
      FromOneRequest(d.(bypasses := d.bypasses[index := Decided(d.bypasses[index], Rejected, admin)]));
  }

  lemma ApprovalIsSound(d: Dossier, moved: Dossier, index: nat, admin: EmployeeId)
    requires Sound(moved) && index < |d.bypasses| && d.bypasses[index].status == Pending
    requires moved.bypasses == d.bypasses && d.order.status == d.bypasses[index].station
    requires Rank(d.order.status) < Rank(moved.order.status)
    requires |moved.history| > 0 && moved.history[|moved.history| - 1].before == Some(d.order.status)
    requires moved.history[|moved.history| - 1].actor == ByEmployee(admin)
    requires forall i :: 0 <= i < |d.bypasses| && d.bypasses[i].status == Approved ==> d.bypasses[i].station != d.order.status
    ensures Sound(moved.(bypasses := d.bypasses[index := Decided(d.bypasses[index], Approved, admin)]))
  {
    assert LeftBy(moved.history[|moved.history| - 1], d.bypasses[index].station, admin);
    assert FromOneRequest(moved) ==>
      FromOneRequest(moved.(bypasses := d.bypasses[index := Decided(d.bypasses[index], Approved, admin)]));
  }

  lemma ReviewIsSound(d: Dossier, index: nat, admin: EmployeeId, approve: bool)
    requires Sound(d) && index < |d.bypasses| && d.bypasses[index].status == Pending
    ensures Sound(ReviewEffect(d, index, admin, approve))
  {
    var b := d.bypasses[index];
    if !approve && b.attempt < MAX_BYPASS_ATTEMPTS_PER_STATION {
      RejectionIsSound(d, index, admin);
    } else if d.order.status == b.station {
      LeaveStationIsSound(d, ByEmployee(admin));
      ApprovalIsSound(d, LeaveStation(d, ByEmployee(admin)), index, admin);
    }
  }

  lemma GatewayIsSound(d: Dossier, report: PaymentStatus, at: Time)
    requires Sound(d) && d.payment.Some?
    ensures Sound(GatewayEffect(d, report, at))
  {
    var noted := d.(payment := Some(d.payment.value.(
      status := report, paidAt := if report == Paid then Some(at) else None)));
    assert FromOneRequest(d) ==> FromOneRequest(noted);
    if report == Paid && d.order.status == WaitingPayment {
      AdvanceKeepsRecords(noted, ReadyForDelivery, BySystem);
      AdvanceKeepsBill(noted, ReadyForDelivery, BySystem);
      var a := Advance(noted, ReadyForDelivery, BySystem);
      assert FromOneRequest(a) ==> FromOneRequest(a.(delivery := Some(NEW_TASK)));
    }
  }

  lemma TaskStepIsSound(d: Dossier, e: Event)
    requires Sound(d) && (e.Claim? || e.CompleteTask?)
    ensures Sound(Apply(d, e))
  {
    var d' := Apply(d, e);
    if d' != d {
      var next := if e.Claim? then ClaimNextStatus(e.kind) else CompleteNextStatus(e.kind);
      var actor := ByEmployee(e.driver);
      AdvanceKeepsRecords(d, next, actor);
      AdvanceKeepsBill(d, next, actor);
      assert FromOneRequest(Advance(d, next, actor)) ==> FromOneRequest(d');
    }
  }

  lemma ProcessIsSound(d: Dossier, admin: EmployeeId, request: seq<Line>, breakdown: seq<Count>)
    requires Sound(d)
    ensures Sound(Apply(d, Process(admin, request, breakdown)))
  {
    var d' := Apply(d, Process(admin, request, breakdown));
    if d' != d {
      AdvanceKeepsRecords(d, Washing, ByEmployee(admin));
      assert FromOneRequest(d');
    }
  }

  lemma CheckoutIsSound(d: Dossier, amount: Cents, gateway: GatewayId)
    requires Sound(d) && Enabled(d, Checkout(amount, gateway))
    ensures Sound(Apply(d, Checkout(amount, gateway)))
  {
    assert FromOneRequest(d) ==> FromOneRequest(Apply(d, Checkout(amount, gateway)));
  }

  lemma ClosingIsSound(d: Dossier, actor: Actor)
    requires Sound(d) && d.order.status == ReceivedByCustomer
    ensures Sound(Advance(d, Completed, actor))
  {
    AdvanceKeepsRecords(d, Completed, actor);
    AdvanceKeepsBill(d, Completed, actor);
  }

  /** Every transaction keeps the joint invariant. */
  lemma ApplyIsSound(d: Dossier, e: Event)
    requires Sound(d) && Enabled(d, e)
    ensures Sound(Apply(d, e))
  {
    hide Sound, Enabled, LeaveStation, ReviewEffect, GatewayEffect, Advance;
    match e
    case Claim(_, _, _) => TaskStepIsSound(d, e);
    case CompleteTask(_, _, _) => TaskStepIsSound(d, e);
    case Process(admin, request, breakdown) => ProcessIsSound(d, admin, request, breakdown);
    case CompleteStation(s, worker) => if d.order.status == s { LeaveStationIsSound(d, ByEmployee(worker)); }
    case InsertBypass(s, worker, count) => InsertBypassIsSound(d, s, worker, count);
    case Review(index, admin, approve) =>
      if index < |d.bypasses| && d.bypasses[index].status == Pending { ReviewIsSound(d, index, admin, approve); }
    case Checkout(amount, gateway) => CheckoutIsSound(d, amount, gateway);
    case Gateway(report, at) => if d.payment.Some? { GatewayIsSound(d, report, at); }
    case Confirm(customer) => if d.order.status == ReceivedByCustomer { ClosingIsSound(d, ByCustomer(customer)); }
    case AutoComplete => if d.order.status == ReceivedByCustomer { ClosingIsSound(d, BySystem); }
  }
}
