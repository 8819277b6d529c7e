/** Transactions of the race run without interruption, and what follows: they are the atomic
    transitions, divergence is reachable, and one redelivered notification repairs it. */
module Repair {
  import opened Schema
  import opened Pipeline
  import opened PaymentHandlers
  import opened Race

  /** The next n statements of one transaction, nothing else in between. */
  function Uninterrupted(s: State, id: nat, n: nat): State {
    if n == 0 then s
    else
      var before := Uninterrupted(s, id, n - 1);
      if CanExec(before, id) then ExecResult(before, id) else before
  }

  predicate Unlocked(s: State) {
    forall i :: i in s.txs ==> !LocksOrder(s.txs[i]) && !LocksPayment(s.txs[i])
  }

  /** One statement of a transaction that meets no lock. */
  lemma StatementAlone(s: State, id: nat, t: Tx)
    requires Unlocked(s) && id !in s.txs && !t.StationReady? && !t.SettleReady?
    requires t.SettleStart? ==> s.db.payment.Some?
    requires t.ReviewStart? ==> !BypassLocked(s, id, t.index)
    ensures CanExec(With(s, id, t), id)
    ensures ExecResult(With(s, id, t), id) == if Statement(t, s.db).Some? then With(s, id, Statement(t, s.db).value) else s
  {
    var s' := With(s, id, t);
    assert !OrderLocked(s', id) && !PaymentLocked(s', id);
    assert t.ReviewStart? ==> !BypassLocked(s', id, t.index);
    assert Without(s', id).txs == s.txs;
    if Statement(t, s.db).Some? { assert With(s', id, Statement(t, s.db).value).txs == With(s, id, Statement(t, s.db).value).txs; }
  }

  lemma CommitAlone(s: State, id: nat, t: Tx, d: Dossier)
    requires id !in s.txs
    requires || (t.StationReady? && d == StationWrites(s.db, t.worker, t.bypass, t.paid))
             || (t.SettleReady? && s.db.payment.Some? && d == SettleWrites(s.db, t.report, t.at, t.released))
    ensures CanExec(With(s, id, t), id) && ExecResult(With(s, id, t), id) == s.(db := d)
  {
    assert With(s, id, t).txs - {id} == s.txs;
  }

  lemma NothingReleasedYet(s: State)
    requires RaceSound(s)
    ensures Rank(s.db.order.status) < Rank(ReadyForDelivery) ==> s.db.delivery.None?
  {
    assert LockStep(Unpaid(s.db));
  }

  /** A station transaction that meets no lock and is not interrupted, by itself or as part of an
      approval that has decided its bypass: all its writes or none, in at most five statements. */
  lemma StationAlone(s: State, id: nat, worker: EmployeeId, bypass: Option<nat>)
    requires RaceSound(s) && Unlocked(s) && id !in s.txs
    ensures Uninterrupted(With(s, id, StationStart(worker, bypass)), id, 5)
      == if s.db.order.status == Packing then s.(db := StationWrites(s.db, worker, bypass, IsPaid(s.db))) else s
  {
    hide RaceSound, Unlocked, CanExec, ExecResult, With, StationWrites, Apply;
    NothingReleasedYet(s);
    var s0 := With(s, id, StationStart(worker, bypass));
    var paid := IsPaid(s.db);
    StatementAlone(s, id, StationStart(worker, bypass));
    StatementAlone(s, id, StationRead(worker, bypass, paid));
    assert Uninterrupted(s0, id, 1) == With(s, id, StationRead(worker, bypass, paid));
    if s.db.order.status != Packing {
      assert Uninterrupted(s0, id, 2) == s;
      Finished(s0, id, 2, 5);
    } else {
      var done := s.(db := StationWrites(s.db, worker, bypass, paid));
      StatementAlone(s, id, StationUpdated(worker, bypass, paid));
      StatementAlone(s, id, StationReleased(worker, bypass));
      CommitAlone(s, id, StationReady(worker, bypass, paid), done.db);
      assert Uninterrupted(s0, id, 2) == With(s, id, StationUpdated(worker, bypass, paid));
      if paid {
        assert Uninterrupted(s0, id, 3) == With(s, id, StationReleased(worker, bypass));
        assert Uninterrupted(s0, id, 4) == With(s, id, StationReady(worker, bypass, paid));
        assert Uninterrupted(s0, id, 5) == done;
      } else {
        assert Uninterrupted(s0, id, 3) == With(s, id, StationReady(worker, bypass, paid));
        assert Uninterrupted(s0, id, 4) == done;
        Finished(s0, id, 4, 5);
      }
    }
  }

  /** So a packing completion does exactly what the transaction-level model says it does. */
  lemma CompletionAlone(s: State, id: nat, worker: EmployeeId)
    requires RaceSound(s) && Unlocked(s) && id !in s.txs
    ensures Uninterrupted(With(s, id, StationStart(worker, None)), id, 5)
      == s.(db := Apply(s.db, CompleteStation(Packing, worker)))
  {
    hide RaceSound, Unlocked, Uninterrupted;
    StationAlone(s, id, worker, None);
  }

  lemma WritesAreReview(d: Dossier, admin: EmployeeId, index: nat, approve: bool)
    requires index < |d.bypasses| && d.bypasses[index].station == Packing
    requires approve || d.bypasses[index].attempt >= MAX_BYPASS_ATTEMPTS_PER_STATION
    ensures Apply(d, Review(index, admin, approve)) ==
      if PendingAtPacking(d, index) && d.order.status == Packing then StationWrites(d, admin, Some(index), IsPaid(d)) else d
  {}

  /** And so does an approval at packing, forced or not: the decision and the move, or neither. */
  lemma ApprovalAlone(s: State, id: nat, admin: EmployeeId, index: nat, approve: bool)
    requires RaceSound(s) && Unlocked(s) && id !in s.txs && !BypassLocked(s, id, index)
    requires index < |s.db.bypasses| && s.db.bypasses[index].station == Packing
    requires approve || s.db.bypasses[index].attempt >= MAX_BYPASS_ATTEMPTS_PER_STATION
    ensures Uninterrupted(With(s, id, ReviewStart(admin, index)), id, 6)
      == s.(db := Apply(s.db, Review(index, admin, approve)))
  {
    hide RaceSound, Unlocked, CanExec, ExecResult, With, StationWrites, Apply;
    var s0 := With(s, id, ReviewStart(admin, index));
    StatementAlone(s, id, ReviewStart(admin, index));
    WritesAreReview(s.db, admin, index, approve);
    if PendingAtPacking(s.db, index) {
      assert Uninterrupted(s0, id, 1) == With(s, id, StationStart(admin, Some(index)));
      StationAlone(s, id, admin, Some(index));
      AfterFirst(s0, id, 5);
    } else {
      assert Uninterrupted(s0, id, 1) == s;
      Finished(s0, id, 1, 6);
    }
  }

  lemma {:induction false} AfterFirst(s: State, id: nat, n: nat)
    ensures Uninterrupted(s, id, n + 1) == Uninterrupted(Uninterrupted(s, id, 1), id, n)
  {
    hide CanExec, ExecResult;
    if n > 0 { AfterFirst(s, id, n - 1); }
  }

  lemma {:induction false} Finished(s: State, id: nat, n: nat, m: nat)
    requires n <= m && id !in Uninterrupted(s, id, n).txs
    ensures Uninterrupted(s, id, m) == Uninterrupted(s, id, n)
  {
    if n < m { Finished(s, id, n, m - 1); }
  }

  lemma SettlementIsApply(d: Dossier, report: PaymentStatus, at: Time)
    requires d.payment.Some?
    ensures SettleWrites(d, report, at, report == Paid && d.order.status == WaitingPayment) == Apply(d, Gateway(report, at))
  {}

  /** The same for a payment transaction: five statements, from any committed state whether
      divergent or not. */
  lemma SettleAlone(s: State, id: nat, report: PaymentStatus, at: Time)
    requires RaceSound(s) && Unlocked(s) && id !in s.txs && s.db.payment.Some?
    ensures Uninterrupted(With(s, id, SettleStart(report, at)), id, 5)
      == s.(db := Apply(s.db, Gateway(report, at)))
  {
    hide RaceSound, Unlocked, CanExec, ExecResult, With, SettleWrites, Apply;
    NothingReleasedYet(s);
    var s0 := With(s, id, SettleStart(report, at));
    var released := report == Paid && s.db.order.status == WaitingPayment;
    var ready := SettleReady(report, at, released);
    var done := s.(db := SettleWrites(s.db, report, at, released));
    StatementAlone(s, id, SettleStart(report, at));
    StatementAlone(s, id, SettleNoted(report, at));
    CommitAlone(s, id, ready, done.db);
    SettlementIsApply(s.db, report, at);
    assert Uninterrupted(s0, id, 1) == With(s, id, SettleNoted(report, at));
    if released {
      StatementAlone(s, id, SettleMatched(at));
      StatementAlone(s, id, SettleReleased(at));
      assert Uninterrupted(s0, id, 2) == With(s, id, SettleMatched(at));
      assert Uninterrupted(s0, id, 3) == With(s, id, SettleReleased(at));
      assert Uninterrupted(s0, id, 4) == With(s, id, ready);
      assert Uninterrupted(s0, id, 5) == done;
    } else {
      assert Uninterrupted(s0, id, 2) == With(s, id, ready);
      assert Uninterrupted(s0, id, 3) == done;
      Finished(s0, id, 3, 5);
    }
  }

  /** Whenever no row is locked, any payment transaction that reports paid, from a notification or
      from a SyncPaymentStatus that had read the payment before it was paid, repairs the divergent
      order when run without interruption. */
  lemma PaidReportRepairs(states: seq<State>, labels: seq<Label>, n: nat, id: nat, at: Time)
    requires IsRaceRun(states, labels) && n < |states|
    requires var s := states[n]; Divergent(s.db) && Unlocked(s) && id !in s.txs
    ensures var s := states[n]; var s' := Uninterrupted(With(s, id, SettleStart(Paid, at)), id, 5);
      && s'.txs == s.txs && Sound(s'.db)
      && s'.db.order.status == ReadyForDelivery && s'.db.delivery == Some(NEW_TASK) && IsPaid(s'.db)
      && s'.db.history == s.db.history + [HistoryRow(Some(WaitingPayment), ReadyForDelivery, BySystem)]
  {
    hide IsRaceRun, Uninterrupted, Sound, CanExec, ExecResult, Unlocked;
    var s := states[n];
    EveryRaceStateIsSound(states, labels, n);
    SettleAlone(s, id, Paid, at);
    SettleWritesSound(s.db, Paid, at, true);
    SoundUnlessDivergent(SettleWrites(s.db, Paid, at, true));
  }

  /** Repair: a matching payment confirmation, redelivered, finds the divergent order still waiting,
      does not short-circuit, and run without interruption leaves it at ready_for_delivery with its
      one delivery task and one new history row. */
  lemma RedeliveryRepairs(states: seq<State>, labels: seq<Label>, n: nat, id: nat, m: Notification, at: Time)
    requires IsRaceRun(states, labels) && n < |states|
    requires var s := states[n]; Divergent(s.db) && Unlocked(s) && id !in s.txs
    requires var p := states[n].db.payment.value;
      m.signed && m.gateway == p.gateway && Rupiah(m.gross) == Rupiah(p.amount) && ConfirmsPayment(m.transaction, m.fraud)
    ensures var s := states[n];
      && Decide(m, s.db.payment, s.db.order.status) == Proceed(Paid)
      && var s' := Uninterrupted(With(s, id, SettleStart(Paid, at)), id, 5);
         && s'.txs == s.txs && Sound(s'.db)
         && s'.db.order.status == ReadyForDelivery && s'.db.delivery == Some(NEW_TASK) && IsPaid(s'.db)
         && s'.db.history == s.db.history + [HistoryRow(Some(WaitingPayment), ReadyForDelivery, BySystem)]
  {
    hide IsRaceRun, Uninterrupted, Sound, Unlocked;
    PaidReportRepairs(states, labels, n, id, at);
  }

  lemma Extend(states: seq<State>, labels: seq<Label>, l: Label) returns (states': seq<State>, labels': seq<Label>)
    requires IsRaceRun(states, labels) && CanStep(states[|labels|], l)
    ensures IsRaceRun(states', labels') && |labels'| == |labels| + 1
    ensures states'[|labels'|] == Step(states[|labels|], l)
  {
    states', labels' := states + [Step(states[|labels|], l)], labels + [l];
  }

  lemma ExtendExec(states: seq<State>, labels: seq<Label>, id: nat) returns (states': seq<State>, labels': seq<Label>)
    requires IsRaceRun(states, labels) && CanExec(states[|labels|], id)
    ensures IsRaceRun(states', labels') && |labels'| == |labels| + 1
    ensures states'[|labels'|] == ExecResult(states[|labels|], id)
  {
    states', labels' := Extend(states, labels, Exec(id));
  }

  /** Divergence does happen: the worker's transaction reads "not paid", the whole payment
      transaction runs, the worker's transaction goes on and commits. */
  lemma DivergenceIsReachable(d: Dossier, worker: EmployeeId, at: Time) returns (states: seq<State>, labels: seq<Label>)
    requires Sound(d) && d.order.status == Packing && d.payment.Some? && !IsPaid(d)
    ensures IsRaceRun(states, labels) && Divergent(states[|labels|].db)
  {
    hide IsRaceRun, Sound, StationWrites, SettleWrites;
    var settle := SettleStart(Paid, at);
    var read := StationRead(worker, None, false);
    states, labels := [State(d, map[])], [];
    RunStarts(d);
    states, labels := Extend(states, labels, Begin(0, StationStart(worker, None)));
    states, labels := ExtendExec(states, labels, 0);
    assert states[|labels|] == State(d, map[0 := read]);
    states, labels := Extend(states, labels, Begin(1, settle));
    states, labels := PaymentSlipsIn(states, labels, d, read, at);
    DivergentWrites(d, worker, at);
    states, labels := WorkerFinishes(states, labels, worker);
  }

  lemma RunStarts(d: Dossier)
    requires Sound(d)
    ensures IsRaceRun([State(d, map[])], [])
  {}

  lemma PaymentSlipsIn(states: seq<State>, labels: seq<Label>, d: Dossier, read: Tx, at: Time)
    returns (states': seq<State>, labels': seq<Label>)
    requires IsRaceRun(states, labels) && !LocksOrder(read) && !LocksPayment(read)
    requires states[|labels|] == With(State(d, map[0 := read]), 1, SettleStart(Paid, at))
    requires d.order.status == Packing && d.payment.Some?
    ensures IsRaceRun(states', labels')
    ensures states'[|labels'|] == State(SettleWrites(d, Paid, at, false), map[0 := read])
  {
    hide IsRaceRun, CanExec, ExecResult, SettleWrites;
    var s := State(d, map[0 := read]);
    StatementAlone(s, 1, SettleStart(Paid, at));
    StatementAlone(s, 1, SettleNoted(Paid, at));
    CommitAlone(s, 1, SettleReady(Paid, at, false), SettleWrites(d, Paid, at, false));
    states', labels' := ExtendExec(states, labels, 1);
    states', labels' := ExtendExec(states', labels', 1);
    states', labels' := ExtendExec(states', labels', 1);
  }

  lemma WorkerFinishes(states: seq<State>, labels: seq<Label>, worker: EmployeeId)
    returns (states': seq<State>, labels': seq<Label>)
    requires IsRaceRun(states, labels) && states[|labels|].txs == map[0 := StationRead(worker, None, false)]
    requires states[|labels|].db.order.status == Packing
    ensures IsRaceRun(states', labels')
    ensures states'[|labels'|].db == StationWrites(states[|labels|].db, worker, None, false)
  {
    var s := State(states[|labels|].db, map[]);
    hide IsRaceRun, CanExec, ExecResult, StationWrites;
    assert states[|labels|] == With(s, 0, StationRead(worker, None, false));
    StatementAlone(s, 0, StationRead(worker, None, false));
    StatementAlone(s, 0, StationUpdated(worker, None, false));
    CommitAlone(s, 0, StationReady(worker, None, false), StationWrites(s.db, worker, None, false));
    states', labels' := ExtendExec(states, labels, 0);
    states', labels' := ExtendExec(states', labels', 0);
    states', labels' := ExtendExec(states', labels', 0);
  }

  lemma DivergentWrites(d: Dossier, worker: EmployeeId, at: Time)
    requires d.payment.Some?
    ensures Divergent(StationWrites(SettleWrites(d, Paid, at, false), worker, None, false))
    ensures SettleWrites(d, Paid, at, false).order == d.order
  {}
}
