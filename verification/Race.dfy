/** Packing completion and bypass approval against payment confirmation, one SQL statement at a
    time, among all the other transactions of the order.

    Each transaction's statements see committed data and the transaction's own writes (READ
    COMMITTED). An UPDATE that matches a row locked by another transaction waits for it; one that
    does not match the committed row affects no row. Writes become visible at commit, and a
    transaction may be lost at any point before it. */
module Race {
  import opened Schema
  import opened Pipeline
  import opened PaymentHandlers

  datatype Tx =
    // ReviewBypassRequest approving a request at packing
    | ReviewStart(worker: EmployeeId, index: nat)
    // completeStationTx at packing; an approval holds the row of the bypass it has decided
    | StationStart(worker: EmployeeId, bypass: Option<nat>)
    | StationRead(worker: EmployeeId, bypass: Option<nat>, paid: bool)      // has read the payment row
    | StationUpdated(worker: EmployeeId, bypass: Option<nat>, paid: bool)   // holds the order row
    | StationReleased(worker: EmployeeId, bypass: Option<nat>)              // has inserted the delivery task
    | StationReady(worker: EmployeeId, bypass: Option<nat>, paid: bool)     // has inserted the history row
    // applyPaymentStatus
    | SettleStart(report: PaymentStatus, at: Time)
    | SettleNoted(report: PaymentStatus, at: Time)     // holds the payment row
    | SettleMatched(at: Time)                          // holds the order row too
    | SettleReleased(at: Time)                         // has inserted the delivery task
    | SettleReady(report: PaymentStatus, at: Time, released: bool)

  predicate LocksOrder(t: Tx) {
    t.StationUpdated? || t.StationReleased? || t.StationReady?
    || t.SettleMatched? || t.SettleReleased? || (t.SettleReady? && t.released)
  }

  predicate LocksPayment(t: Tx) {
    t.SettleNoted? || t.SettleMatched? || t.SettleReleased? || t.SettleReady?
  }

  function BypassOf(t: Tx): Option<nat> {
    match t
    case StationStart(_, bypass) => bypass
    case StationRead(_, bypass, _) => bypass
    case StationUpdated(_, bypass, _) => bypass
    case StationReleased(_, bypass) => bypass
    case StationReady(_, bypass, _) => bypass
    case _ => None
  }

  predicate LocksBypass(t: Tx, index: nat) {
    BypassOf(t) == Some(index)
  }

  /** Two transactions in flight hold no row in common. */
  predicate Compatible(t: Tx, u: Tx) {
    !(LocksOrder(t) && LocksOrder(u)) && (BypassOf(t).Some? ==> BypassOf(u) != BypassOf(t))
  }

  datatype State = State(db: Dossier, txs: map<nat, Tx>)

  predicate OrderLocked(s: State, me: nat) {
    exists i :: i in s.txs && i != me && LocksOrder(s.txs[i])
  }

  predicate PaymentLocked(s: State, me: nat) {
    exists i :: i in s.txs && i != me && LocksPayment(s.txs[i])
  }

  predicate BypassLocked(s: State, me: nat, index: nat) {
    exists i :: i in s.txs && i != me && LocksBypass(s.txs[i], index)
  }

  function With(s: State, id: nat, t: Tx): State {
    s.(txs := s.txs[id := t])
  }

  /** Rolled back, whether by the handler, by a failed statement or by a lost connection. */
  function Without(s: State, id: nat): State {
    s.(txs := s.txs - {id})
  }

  /** The writes of completeStationTx at packing; the old status in the history row is the
      constant `packing`. */
  function StationMove(d: Dossier, worker: EmployeeId, paid: bool): Dossier {
    var next := if paid then ReadyForDelivery else WaitingPayment;
    d.(order := d.order.(status := next),
       history := d.history + [HistoryRow(Some(Packing), next, ByEmployee(worker))],
       delivery := if paid then Some(NEW_TASK) else d.delivery)
  }

  /** Together with the decision on the bypass, if that is what moved the order. */
  function StationWrites(d: Dossier, worker: EmployeeId, bypass: Option<nat>, paid: bool): Dossier {
    var moved := StationMove(d, worker, paid);
    if bypass.Some? && bypass.value < |d.bypasses| then
      moved.(bypasses := d.bypasses[bypass.value := Decided(d.bypasses[bypass.value], Approved, worker)])
    else moved
  }

  function Noted(d: Dossier, report: PaymentStatus, at: Time): Dossier
    requires d.payment.Some?
  {
    d.(payment := Some(d.payment.value.(status := report, paidAt := if report == Paid then Some(at) else None)))
  }

  function SettleWrites(d: Dossier, report: PaymentStatus, at: Time, released: bool): Dossier
    requires d.payment.Some?
  {
    var noted := Noted(d, report, at);
    if released then
      noted.(order := noted.order.(status := ReadyForDelivery),
             history := noted.history + [HistoryRow(Some(WaitingPayment), ReadyForDelivery, BySystem)],
             delivery := Some(NEW_TASK))
    else noted
  }

  /** Other(e) is any other transaction of the order, or one of these run in one piece; Upsert is
      a checkout's. */
  datatype Label =
    | Begin(id: nat, tx: Tx)
    | Exec(id: nat)
    | Lose(id: nat)
    | Upsert(gateway: GatewayId)
    | Other(event: Event)

  predicate PendingAtPacking(d: Dossier, index: nat) {
    index < |d.bypasses| && d.bypasses[index].station == Packing && d.bypasses[index].status == Pending
  }

  /** The statement of transaction id that comes next can run now. */
  predicate CanExec(s: State, id: nat) {
    && id in s.txs
    && var t := s.txs[id];
       && (t.ReviewStart? && PendingAtPacking(s.db, t.index) ==> !BypassLocked(s, id, t.index))
       && (t.StationRead? && s.db.order.status == Packing ==> !OrderLocked(s, id))
       && (t.SettleStart? ==> s.db.payment.Some? && !PaymentLocked(s, id))
       && (t.SettleNoted? && t.report == Paid && s.db.order.status == WaitingPayment ==> !OrderLocked(s, id))
       && (t.SettleReady? ==> s.db.payment.Some?)
  }

  predicate CanBegin(d: Dossier, t: Tx) {
    match t
    case ReviewStart(_, index) => index < |d.bypasses| && d.bypasses[index].station == Packing
    case StationStart(_, bypass) => bypass.None?
    case SettleStart(_, _) => d.payment.Some?
    case _ => false
  }

  predicate CanStep(s: State, l: Label) {
    match l
    case Begin(id, tx) => id !in s.txs && CanBegin(s.db, tx)
    case Exec(id) => CanExec(s, id)
    case Lose(id) => id in s.txs
    case Upsert(_) => s.db.order.total > 0 && forall i :: i in s.txs ==> !LocksPayment(s.txs[i])
    case Other(e) =>
      && !e.Checkout? && !e.Gateway? && Enabled(s.db, e)
      && (Apply(s.db, e).order != s.db.order ==> forall i :: i in s.txs ==> !LocksOrder(s.txs[i]))
      && (e.Review? ==> forall i :: i in s.txs ==> !LocksBypass(s.txs[i], e.index))
  }

  /** Where a statement that commits nothing leaves its transaction; None when it fails and the
      transaction is rolled back. */
  function Statement(t: Tx, d: Dossier): Option<Tx>
    requires !t.StationReady? && !t.SettleReady?
  {
    match t
    case ReviewStart(w, index) => if PendingAtPacking(d, index) then Some(StationStart(w, Some(index))) else None
    case StationStart(w, b) => Some(StationRead(w, b, IsPaid(d)))
    case StationRead(w, b, paid) => if d.order.status == Packing then Some(StationUpdated(w, b, paid)) else None
    case StationUpdated(w, b, paid) =>
      if !paid then Some(StationReady(w, b, false)) else if d.delivery.Some? then None else Some(StationReleased(w, b))
    case StationReleased(w, b) => Some(StationReady(w, b, true))
    case SettleStart(report, at) => Some(SettleNoted(report, at))
    case SettleNoted(report, at) =>
      if report == Paid && d.order.status == WaitingPayment then Some(SettleMatched(at))
      else Some(SettleReady(report, at, false))
    case SettleMatched(at) => if d.delivery.Some? then None else Some(SettleReleased(at))
    case SettleReleased(at) => Some(SettleReady(Paid, at, true))
  }

  function ExecResult(s: State, id: nat): State
    requires CanExec(s, id)
  {
    match s.txs[id]
    case StationReady(w, b, paid) => Without(s.(db := StationWrites(s.db, w, b, paid)), id)
    case SettleReady(report, at, released) => Without(s.(db := SettleWrites(s.db, report, at, released)), id)
    case t =>
      match Statement(t, s.db)
      case Some(t') => With(s, id, t')
      case None => Without(s, id)
  }

  function Step(s: State, l: Label): State
    requires CanStep(s, l)
  {
    match l
    case Begin(id, tx) => With(s, id, tx)
    case Exec(id) => ExecResult(s, id)
    case Lose(id) => Without(s, id)
    case Upsert(g) => s.(db := Apply(s.db, Checkout(s.db.order.total, g)))
    case Other(e) => s.(db := Apply(s.db, e))
  }

  // ------------------------------------------------------------------------------------------

  /** The one way the two tables can disagree. */
  predicate Divergent(d: Dossier) {
    d.order.status == WaitingPayment && IsPaid(d)
  }

  function Unpaid(d: Dossier): Dossier {
    if d.payment.Some? then d.(payment := Some(d.payment.value.(status := PaymentPending))) else d
  }

  /** Sound, but for what the payment row's status says. */
  ghost predicate NearlySound(d: Dossier) {
    Sound(Unpaid(d)) && (IsPaid(d) ==> d.payment.value.paidAt.Some?)
  }

  /** What a transaction in flight relies on, besides the bypass it has decided. */
  predicate RowsHeld(t: Tx, d: Dossier) {
    match t
    case ReviewStart(_, index) => index < |d.bypasses| && d.bypasses[index].station == Packing
    case StationStart(_, _) => true
    case StationRead(_, _, paid) => paid ==> d.payment.Some?
    case StationUpdated(_, _, paid) => d.order.status == Packing && (paid ==> d.payment.Some?)
    case StationReleased(_, _) => d.order.status == Packing && d.payment.Some?
    case StationReady(_, _, paid) => d.order.status == Packing && (paid ==> d.payment.Some?)
    case SettleStart(_, _) => d.payment.Some?
    case SettleNoted(_, _) => d.payment.Some?
    case SettleMatched(_) => d.payment.Some? && d.order.status == WaitingPayment
    case SettleReleased(_) => d.payment.Some? && d.order.status == WaitingPayment
    case SettleReady(report, _, released) =>
      d.payment.Some? && (released ==> report == Paid && d.order.status == WaitingPayment)
  }

  predicate TxSound(t: Tx, d: Dossier) {
    RowsHeld(t, d) && (BypassOf(t).Some? ==> PendingAtPacking(d, BypassOf(t).value))
  }

  ghost predicate RaceSound(s: State) {
    && NearlySound(s.db)
    && (forall i :: i in s.txs ==> TxSound(s.txs[i], s.db))
    && (forall i, j :: i in s.txs && j in s.txs && i != j ==> Compatible(s.txs[i], s.txs[j]))
  }

  lemma SoundIsNearlySound(d: Dossier)
    requires Sound(d)
    ensures NearlySound(d)
  {
    assert FromOneRequest(d) ==> FromOneRequest(Unpaid(d));
  }

  lemma StationMoveSound(u: Dossier, worker: EmployeeId, paid: bool)
    requires Sound(u) && u.order.status == Packing && (paid ==> u.payment.Some?) && !IsPaid(u)
    ensures Sound(StationMove(u, worker, paid))
  {
    var next := if paid then ReadyForDelivery else WaitingPayment;
    AdvanceKeepsRecords(u, next, ByEmployee(worker));
    AdvanceKeepsBill(u, next, ByEmployee(worker));
    var a := Advance(u, next, ByEmployee(worker));
    assert FromOneRequest(a) ==> FromOneRequest(StationMove(u, worker, paid));
  }

  lemma StationWritesSound(d: Dossier, worker: EmployeeId, bypass: Option<nat>, paid: bool)
    requires NearlySound(d) && d.order.status == Packing && (paid ==> d.payment.Some?)
    requires bypass.Some? ==> PendingAtPacking(d, bypass.value)
    ensures NearlySound(StationWrites(d, worker, bypass, paid))
  {
    hide Sound;
    var u := Unpaid(d);
    StationMoveSound(u, worker, paid);
    var moved := StationMove(u, worker, paid);
    if bypass.Some? {
      NoApprovalYet(u);
      ApprovalIsSound(u, moved, bypass.value, worker);
    }
    assert Unpaid(StationWrites(d, worker, bypass, paid)) == StationWrites(u, worker, bypass, paid);
  }

  lemma NoApprovalYet(d: Dossier)
    requires Sound(d)
    ensures forall i :: 0 <= i < |d.bypasses| && d.bypasses[i].status == Approved ==> d.bypasses[i].station != d.order.status
  {
    assert forall i :: 0 <= i < |d.bypasses| ==> BypassOutcome(d.bypasses[i], d.history, d.order.status);
  }

  lemma SettleWritesSound(d: Dossier, report: PaymentStatus, at: Time, released: bool)
    requires NearlySound(d) && d.payment.Some?
    requires released ==> report == Paid && d.order.status == WaitingPayment
    ensures NearlySound(SettleWrites(d, report, at, released))
  {
    var d' := SettleWrites(d, report, at, released);
    var u := Unpaid(d);
    if released {
      AdvanceKeepsRecords(u, ReadyForDelivery, BySystem);
      AdvanceKeepsBill(u, ReadyForDelivery, BySystem);
      var a := Advance(u, ReadyForDelivery, BySystem);
      assert FromOneRequest(a) ==> FromOneRequest(Unpaid(d'));
    } else {
      assert FromOneRequest(u) ==> FromOneRequest(Unpaid(d'));
    }
  }

  lemma UpsertSound(d: Dossier, g: GatewayId)
    requires NearlySound(d) && d.order.total > 0
    ensures NearlySound(Apply(d, Checkout(d.order.total, g)))
  {
    var d' := Apply(d, Checkout(d.order.total, g));
    assert FromOneRequest(Unpaid(d)) ==> FromOneRequest(Unpaid(d'));
  }

  /** Leaving packing paid, in one piece. */
  predicate LeavesPaid(d: Dossier, e: Event) {
    d.order.status == Packing && IsPaid(d) && Apply(d, e).order.status != Packing
  }

  function ReviewedBy(e: Event): Option<nat> {
    if e.Review? then Some(e.index) else None
  }

  /** But for a paid order leaving packing, transactions other than the payment's own do not look
      at the payment's status. */
  lemma OtherIgnoresPayment(d: Dossier, e: Event)
    requires !e.Checkout? && !e.Gateway?
    ensures Apply(d, e).payment == d.payment
    ensures !LeavesPaid(d, e) ==> Unpaid(Apply(d, e)) == Apply(Unpaid(d), e)
    ensures LeavesPaid(d, e) ==>
      && (e.CompleteStation? || (e.Review? && PendingAtPacking(d, e.index)))
      && Apply(d, e) == StationWrites(d, if e.Review? then e.admin else e.worker, ReviewedBy(e), true)
  {
    hide Apply;
    if e.CompleteStation? || e.Review? {
      StationIgnoresPayment(d, e);
    } else {
      RestIgnoresPayment(d, e);
    }
  }

  lemma StationIgnoresPayment(d: Dossier, e: Event)
    requires e.CompleteStation? || e.Review?
    ensures Apply(d, e).payment == d.payment
    ensures !LeavesPaid(d, e) ==> Unpaid(Apply(d, e)) == Apply(Unpaid(d), e)
    ensures LeavesPaid(d, e) ==>
      && (e.Review? ==> PendingAtPacking(d, e.index))
      && Apply(d, e) == StationWrites(d, if e.Review? then e.admin else e.worker, ReviewedBy(e), true)
  {}

  lemma RestIgnoresPayment(d: Dossier, e: Event)
    requires !e.Checkout? && !e.Gateway? && !e.CompleteStation? && !e.Review?
    ensures Apply(d, e).payment == d.payment && Unpaid(Apply(d, e)) == Apply(Unpaid(d), e)
    ensures !LeavesPaid(d, e)
  {}

  lemma OtherSound(d: Dossier, e: Event)
    requires NearlySound(d) && Enabled(d, e) && !e.Checkout? && !e.Gateway?
    ensures NearlySound(Apply(d, e))
  {
    hide Sound, Apply;
    OtherIgnoresPayment(d, e);
    if LeavesPaid(d, e) {
      StationWritesSound(d, if e.Review? then e.admin else e.worker, ReviewedBy(e), true);
    } else {
      ApplyIsSound(Unpaid(d), e);
    }
  }

  lemma CommitKeepsRaceSound(s: State, id: nat)
    requires RaceSound(s) && CanExec(s, id) && (s.txs[id].StationReady? || s.txs[id].SettleReady?)
    ensures RaceSound(ExecResult(s, id))
  {
    hide NearlySound;
    var t := s.txs[id];
    assert TxSound(t, s.db);
    if t.StationReady? { StationWritesSound(s.db, t.worker, t.bypass, t.paid); }
    else { SettleWritesSound(s.db, t.report, t.at, t.released); }
    var s' := ExecResult(s, id);
    forall i | i in s'.txs ensures TxSound(s'.txs[i], s'.db) {
      assert s'.txs[i] == s.txs[i] && TxSound(s.txs[i], s.db) && Compatible(s.txs[i], t);
      CommitKeepsOthers(s.txs[i], t, s.db);
    }
  }

  lemma CommitKeepsOthers(u: Tx, t: Tx, d: Dossier)
    requires TxSound(u, d) && TxSound(t, d) && Compatible(u, t)
    ensures t.StationReady? ==> TxSound(u, StationWrites(d, t.worker, t.bypass, t.paid))
    ensures t.SettleReady? ==> TxSound(u, SettleWrites(d, t.report, t.at, t.released))
  {}

  lemma OtherKeepsRaceSound(s: State, e: Event)
    requires RaceSound(s) && CanStep(s, Other(e))
    ensures RaceSound(Step(s, Other(e)))
  {
    hide NearlySound, Apply, TxSound, Compatible;
    OtherSound(s.db, e);
    forall i | i in s.txs ensures TxSound(s.txs[i], Apply(s.db, e)) {
      OtherKeepsTx(s.txs[i], s.db, e);
    }
  }

  lemma OtherKeepsTx(t: Tx, d: Dossier, e: Event)
    requires TxSound(t, d) && !e.Checkout? && !e.Gateway?
    requires Apply(d, e).order != d.order ==> !LocksOrder(t)
    requires e.Review? ==> !LocksBypass(t, e.index)
    ensures TxSound(t, Apply(d, e))
  {
    var d' := Apply(d, e);
    assert d'.payment == d.payment;
    assert |d.bypasses| <= |d'.bypasses|;
    forall k | 0 <= k < |d.bypasses|
      ensures d'.bypasses[k].station == d.bypasses[k].station
      ensures !(e.Review? && k == e.index) ==> d'.bypasses[k] == d.bypasses[k]
    {}
    hide Apply;
  }

  lemma DroppedIsSound(s: State, id: nat)
    requires RaceSound(s)
    ensures RaceSound(Without(s, id))
  {
    hide NearlySound, TxSound, Compatible;
  }

  lemma MovedIsSound(s: State, id: nat, t: Tx)
    requires RaceSound(s) && TxSound(t, s.db)
    requires forall j :: j in s.txs && j != id ==> Compatible(t, s.txs[j])
    ensures RaceSound(With(s, id, t))
  {
    hide NearlySound, TxSound;
  }

  lemma NextTxIsSound(s: State, id: nat, t: Tx)
    requires RaceSound(s) && CanExec(s, id) && !s.txs[id].StationReady? && !s.txs[id].SettleReady?
    requires Statement(s.txs[id], s.db) == Some(t)
    ensures TxSound(t, s.db)
    ensures forall j :: j in s.txs && j != id ==> Compatible(t, s.txs[j])
  {
    hide NearlySound;
    assert TxSound(s.txs[id], s.db);
    forall j | j in s.txs && j != id ensures Compatible(t, s.txs[j]) {
      assert Compatible(s.txs[id], s.txs[j]);
    }
  }

  lemma StatementKeepsRaceSound(s: State, id: nat)
    requires RaceSound(s) && CanExec(s, id) && !s.txs[id].StationReady? && !s.txs[id].SettleReady?
    ensures RaceSound(ExecResult(s, id))
  {
    hide RaceSound, TxSound, Compatible;
    match Statement(s.txs[id], s.db)
    case Some(t) =>
      NextTxIsSound(s, id, t);
      MovedIsSound(s, id, t);
    case None =>
      DroppedIsSound(s, id);
  }

  lemma BeginIsCompatible(s: State, id: nat, t: Tx)
    requires CanBegin(s.db, t)
    ensures TxSound(t, s.db) && forall j :: j in s.txs ==> Compatible(t, s.txs[j])
  {}

  lemma UpsertKeepsRaceSound(s: State, g: GatewayId)
    requires RaceSound(s) && CanStep(s, Upsert(g))
    ensures RaceSound(Step(s, Upsert(g)))
  {
    hide NearlySound, Compatible;
    UpsertSound(s.db, g);
  }

  /** Every statement, commit, loss, upsert and other transaction keeps the race invariant. */
  lemma StepKeepsRaceSound(s: State, l: Label)
    requires RaceSound(s) && CanStep(s, l)
    ensures RaceSound(Step(s, l))
  {
    hide RaceSound, CanBegin, ExecResult, With, Without, Apply, Enabled;
    match l
    case Begin(id, tx) =>
      BeginIsCompatible(s, id, tx);
      MovedIsSound(s, id, tx);
    case Lose(id) => DroppedIsSound(s, id);
    case Upsert(g) => UpsertKeepsRaceSound(s, g);
    case Exec(id) =>
      if s.txs[id].StationReady? || s.txs[id].SettleReady? {
        CommitKeepsRaceSound(s, id);
      } else {
        StatementKeepsRaceSound(s, id);
      }
    case Other(e) => OtherKeepsRaceSound(s, e);
  }

  /** Any sound state may come first, whatever the order's status; transactions begin at any time. */
  ghost predicate IsRaceRun(states: seq<State>, labels: seq<Label>) {
    && |states| == |labels| + 1
    && Sound(states[0].db) && states[0].txs == map[]
    && forall i :: 0 <= i < |labels| ==> CanStep(states[i], labels[i]) && states[i + 1] == Step(states[i], labels[i])
  }

  lemma {:induction false} EveryRaceStateIsSound(states: seq<State>, labels: seq<Label>, n: nat)
    requires IsRaceRun(states, labels) && n < |states|
    ensures RaceSound(states[n])
  {
    hide Sound, NearlySound, CanStep, Step;
    if n == 0 {
      SoundIsNearlySound(states[0].db);
    } else {
      EveryRaceStateIsSound(states, labels, n - 1);
      StepKeepsRaceSound(states[n - 1], labels[n - 1]);
    }
  }

  /** However the statements interleave, every committed state either satisfies the whole
      transaction-level invariant or is the divergent one: paid, waiting_payment, no delivery task. */
  lemma OnlyOneDivergence(states: seq<State>, labels: seq<Label>, n: nat)
    requires IsRaceRun(states, labels) && n < |states|
    ensures Sound(states[n].db) <==> !Divergent(states[n].db)
    ensures Divergent(states[n].db) ==> states[n].db.delivery.None?
  {
    hide IsRaceRun, Sound;
    EveryRaceStateIsSound(states, labels, n);
    SoundUnlessDivergent(states[n].db);
  }

  lemma SoundUnlessDivergent(d: Dossier)
    requires NearlySound(d)
    ensures Sound(d) <==> !Divergent(d)
    ensures Divergent(d) ==> d.delivery.None?
  {
    assert FromOneRequest(Unpaid(d)) ==> FromOneRequest(d);
  }

  /** The step into divergence is the later of two commits: a station transaction that had read
      "not paid" over a payment by now paid, or a payment transaction that had found the order
      not waiting over an order by now waiting. */
  predicate StaleCommit(s: State, l: Label) {
    && l.Exec? && l.id in s.txs
    && var t := s.txs[l.id];
       || (t.StationReady? && !t.paid && IsPaid(s.db))
       || (t.SettleReady? && t.report == Paid && !t.released && s.db.order.status == WaitingPayment)
  }

  lemma DivergesIffStaleCommit(s: State, l: Label)
    requires RaceSound(s) && CanStep(s, l) && !Divergent(s.db)
    ensures Divergent(Step(s, l).db) <==> StaleCommit(s, l)
  {
    hide NearlySound;
    if l.Other? { OthersDoNotDiverge(s.db, l.event); }
  }

  lemma OthersDoNotDiverge(d: Dossier, e: Event)
    requires !Divergent(d) && !e.Checkout? && !e.Gateway?
    ensures !Divergent(Apply(d, e))
  {}

  /** A diverged order stays at waiting_payment until a payment transaction that reports paid, and
      has found it waiting, commits. */
  lemma OnlyPaidReportFrees(s: State, l: Label)
    requires RaceSound(s) && CanStep(s, l) && Divergent(s.db)
    ensures Step(s, l).db.order == s.db.order
      || (l.Exec? && l.id in s.txs && s.txs[l.id].SettleReady? && s.txs[l.id].report == Paid && s.txs[l.id].released)
  {
    hide NearlySound;
    if l.Exec? { assert TxSound(s.txs[l.id], s.db); }
  }

  /** A SyncPaymentStatus or CreateTransaction that reads the payment while the order is diverged
      stops there; one that read it earlier may still go on. */
  lemma DivergedReadsStop(d: Dossier, customer: CustomerId)
    requires Divergent(d)
    ensures !MaySync(d.payment.value) && !MayCheckOut(Some(d.order), customer, d.payment)
  {}

  // ------------------------------------------------------------------------------------------
  // Delivery is paid for, at statement level too.

  predicate EverPaid(states: seq<State>, n: nat)
    requires n < |states|
  {
    exists k :: 0 <= k <= n && IsPaid(states[k].db)
  }

  predicate BelievesPaid(t: Tx) {
    t.StationReleased? || ((t.StationRead? || t.StationUpdated? || t.StationReady?) && t.paid)
  }

  predicate Released(d: Dossier) {
    Rank(d.order.status) >= Rank(ReadyForDelivery)
  }

  /** A step that releases the order, or makes a transaction believe it paid, does so on a paid row
      or on that belief, or commits the payment. */
  lemma BeliefSteps(s: State, l: Label)
    requires CanStep(s, l) && !IsPaid(s.db) && !IsPaid(Step(s, l).db)
    requires forall i :: i in s.txs ==> !BelievesPaid(s.txs[i]) && TxSound(s.txs[i], s.db)
    requires !Released(s.db)
    ensures forall i :: i in Step(s, l).txs ==> !BelievesPaid(Step(s, l).txs[i])
    ensures !Released(Step(s, l).db)
  {}

  /** An order that was not released when the run began is released only after a committed state in
      which its payment was paid. */
  lemma {:induction false} ReleaseWasPaid(states: seq<State>, labels: seq<Label>, n: nat)
    requires IsRaceRun(states, labels) && n < |states| && !Released(states[0].db)
    ensures EverPaid(states, n) || (!Released(states[n].db) && forall i :: i in states[n].txs ==> !BelievesPaid(states[n].txs[i]))
  {
    hide Released, BelievesPaid, Sound, CanStep, Step;
    if n > 0 {
      ReleaseWasPaid(states, labels, n - 1);
      EveryRaceStateIsSound(states, labels, n - 1);
      if !EverPaid(states, n) {
        assert !EverPaid(states, n - 1);
        assert !IsPaid(states[n - 1].db) && !IsPaid(states[n].db);
        BeliefSteps(states[n - 1], labels[n - 1]);
      }
    }
  }
}
