/** What a sound dossier says: consequences of the joint invariant that a reader of one handler
    would not see, and what no later transaction can take back. */
module Records {
  import opened Schema
  import opened Pipeline

  lemma {:induction false} RanksIncrease(h: seq<HistoryRow>, last: Status, i: nat, j: nat)
    requires HistoryPath(h, last) && i < j < |h|
    ensures Rank(h[i].after) + (j - i) <= Rank(h[j].after)
  {
    if i + 1 < j { RanksIncrease(h, last, i, j - 1); }
  }

  /** An order's history has one row per pipeline stage it has reached, eleven at most; the only
      stage it may have skipped is waiting_payment. */
  lemma HistoryIsShort(d: Dossier)
    requires Sound(d)
    ensures |d.history| <= Rank(d.order.status) + 1 <= 11
    ensures |d.history| >= Rank(d.order.status) + (if Rank(d.order.status) >= Rank(ReadyForDelivery) then 0 else 1)
  {
    if |d.history| > 1 { RanksIncrease(d.history, d.order.status, 0, |d.history| - 1); }
    HistoryIsLong(d.history, d.order.status, |d.history| - 1);
  }

  lemma {:induction false} HistoryIsLong(h: seq<HistoryRow>, last: Status, i: nat)
    requires HistoryPath(h, last) && i < |h|
    ensures i >= Rank(h[i].after) - (if Rank(h[i].after) >= Rank(ReadyForDelivery) then 1 else 0)
  {
    if i > 0 { HistoryIsLong(h, last, i - 1); }
  }

  /** Every stage up to the present one, but for waiting_payment, has exactly one row entering it:
      one processing, one release, one delivery. */
  lemma StageHasOneRow(d: Dossier, stage: Status) returns (k: nat)
    requires Sound(d) && Rank(stage) <= Rank(d.order.status) && stage != WaitingPayment
    ensures k < |d.history| && d.history[k].after == stage
    ensures forall m :: 0 <= m < |d.history| && d.history[m].after == stage ==> m == k
  {
    k := |d.history| - 1;
    while d.history[k].after != stage
      invariant k < |d.history| && Rank(stage) <= Rank(d.history[k].after)
      decreases k
    {
      assert k > 0 && Edge(d.history[k - 1].after, d.history[k].after);
      k := k - 1;
    }
    forall m | 0 <= m < |d.history| && d.history[m].after == stage ensures m == k {
      if m < k { RowsAreDistinct(d, m, k); } else if k < m { RowsAreDistinct(d, k, m); }
    }
  }

  /** Packing completion and payment confirmation: whichever commits first, both orders of the two
      transactions end released, paid, and with one fresh delivery task. */
  lemma EitherOrderReleases(d: Dossier, worker: EmployeeId, at: Time)
    requires Sound(d) && d.order.status == Packing && d.payment.Some?
    ensures var packedFirst := Apply(Apply(d, CompleteStation(Packing, worker)), Gateway(Paid, at));
      var paidFirst := Apply(Apply(d, Gateway(Paid, at)), CompleteStation(Packing, worker));
      && paidFirst.order == packedFirst.order && paidFirst.order.status == ReadyForDelivery
      && paidFirst.delivery == packedFirst.delivery == Some(NEW_TASK)
      && paidFirst.payment == packedFirst.payment && IsPaid(paidFirst)
      && paidFirst.history == d.history + [HistoryRow(Some(Packing), ReadyForDelivery, ByEmployee(worker))]
      && packedFirst.history == if IsPaid(d) then paidFirst.history else
           d.history + [HistoryRow(Some(Packing), WaitingPayment, ByEmployee(worker)), HistoryRow(Some(WaitingPayment), ReadyForDelivery, BySystem)]
  {}

  /** No two history rows leave the same status, and none two enter the same one. */
  lemma RowsAreDistinct(d: Dossier, i: nat, j: nat)
    requires Sound(d) && i < j < |d.history|
    ensures d.history[i].before != d.history[j].before
    ensures d.history[i].after != d.history[j].after
  {
    RanksIncrease(d.history, d.order.status, i, j);
    assert d.history[j].before == Some(d.history[j - 1].after);
    if i > 0 {
      assert d.history[i].before == Some(d.history[i - 1].after);
      RanksIncrease(d.history, d.order.status, i - 1, j - 1);
    }
  }

  /** An approved bypass is the only one at its station, and matches exactly one history row: the
      one that left the station, written in its reviewer's name. */
  lemma ApprovalHasItsRow(d: Dossier, i: nat) returns (k: nat)
    requires Sound(d) && i < |d.bypasses| && d.bypasses[i].status == Approved
    ensures d.bypasses[i].reviewedBy.Some?
    ensures k < |d.history| && LeftBy(d.history[k], d.bypasses[i].station, d.bypasses[i].reviewedBy.value)
    ensures forall m :: 0 <= m < |d.history| && d.history[m].before == Some(d.bypasses[i].station) ==> m == k
    ensures forall j :: 0 <= j < |d.bypasses| && d.bypasses[j].status == Approved && d.bypasses[j].station == d.bypasses[i].station ==> j == i
  {
    var b := d.bypasses[i];
    assert BypassOutcome(b, d.history, d.order.status);
    k :| 0 <= k < |d.history| && LeftBy(d.history[k], b.station, b.reviewedBy.value);
    forall m | 0 <= m < |d.history| && d.history[m].before == Some(b.station) ensures m == k {
      if m < k { RowsAreDistinct(d, m, k); } else if k < m { RowsAreDistinct(d, k, m); }
    }
  }

  // ------------------------------------------------------------------------------------------
  // What later transactions keep.

  predicate SameTask(t: Option<DriverTask>, t': Option<DriverTask>) {
    t.Some? ==>
      && t'.Some?
      && (t.value.driver.Some? ==> t'.value.driver == t.value.driver && t'.value.takenAt == t.value.takenAt)
      && (t.value.completedAt.Some? ==> t' == t)
  }

  predicate SameBypass(b: Bypass, b': Bypass) {
    && b'.station == b.station && b'.requestedBy == b.requestedBy && b'.attempt == b.attempt
    && (b.status != Pending ==> b' == b)
  }

  predicate SameBypasses(bs: seq<Bypass>, bs': seq<Bypass>) {
    |bs| <= |bs'| && forall i :: 0 <= i < |bs| ==> SameBypass(bs[i], bs'[i])
  }

  /** d' records everything d does: history is only appended to; price, items and payment amount
      are frozen once the order is processed; a task keeps its driver; decisions stand. */
  predicate Later(d: Dossier, d': Dossier) {
    && d.history <= d'.history
    && Rank(d.order.status) <= Rank(d'.order.status)
    && d'.order.customer == d.order.customer && d'.order.fee == d.order.fee
    && (Rank(d.order.status) >= Rank(Washing) ==> d'.items == d.items && d'.breakdown == d.breakdown && d'.order.total == d.order.total)
    && (d.order.pickupSchedule.Some? ==> d'.order.pickupSchedule == d.order.pickupSchedule)
    && (d.order.autoConfirmAt.Some? ==> d'.order.autoConfirmAt == d.order.autoConfirmAt)
    && SameTask(d.pickup, d'.pickup) && SameTask(d.delivery, d'.delivery)
    && (d.payment.Some? ==> d'.payment.Some? && d'.payment.value.amount == d.payment.value.amount)
    && SameBypasses(d.bypasses, d'.bypasses)
  }

  lemma TaskStepIsLater(d: Dossier, e: Event)
    requires LockStep(d) && (e.Claim? || e.CompleteTask?)
    ensures Later(d, Apply(d, e))
  {}

  lemma LeavingIsLater(d: Dossier, actor: Actor)
    requires LockStep(d) && (d.order.status.Washing? || d.order.status.Ironing? || d.order.status.Packing?)
    ensures Later(d, LeaveStation(d, actor)) && LeaveStation(d, actor).bypasses == d.bypasses
  {}

  lemma LaterIsReflexive(d: Dossier)
    ensures Later(d, d)
  {}

  lemma DecisionIsLater(d: Dossier, m: Dossier, index: nat, b: Bypass)
    requires Later(d, m) && m.bypasses == d.bypasses && index < |d.bypasses|
    requires d.bypasses[index].status == Pending && SameBypass(d.bypasses[index], b)
    ensures Later(d, m.(bypasses := d.bypasses[index := b]))
  {}

  lemma StationStepIsLater(d: Dossier, e: Event)
    requires LockStep(d) && (e.CompleteStation? || e.Review?)
    ensures Later(d, Apply(d, e))
  {
    hide LockStep, LeaveStation, Later;
    LaterIsReflexive(d);
    if e.Review? && e.index < |d.bypasses| && d.bypasses[e.index].status == Pending {
      DecisionIsLater(d, d, e.index, Decided(d.bypasses[e.index], Rejected, e.admin));
    }
    if d.order.status.Washing? || d.order.status.Ironing? || d.order.status.Packing? {
      var actor := ByEmployee(if e.Review? then e.admin else e.worker);
      LeavingIsLater(d, actor);
      if e.Review? && e.index < |d.bypasses| && d.bypasses[e.index].status == Pending {
        DecisionIsLater(d, LeaveStation(d, actor), e.index, Decided(d.bypasses[e.index], Approved, e.admin));
      }
    }
  }

  lemma ApplyIsLater(d: Dossier, e: Event)
    requires LockStep(d) && PaymentSound(d) && Enabled(d, e)
    ensures Later(d, Apply(d, e))
  {
    hide Apply, Later, LockStep, PaymentSound;
    if e.Claim? || e.CompleteTask? {
      TaskStepIsLater(d, e);
    } else if e.CompleteStation? || e.Review? {
      StationStepIsLater(d, e);
    } else {
      OtherStepIsLater(d, e);
    }
  }

  lemma OtherStepIsLater(d: Dossier, e: Event)
    requires LockStep(d) && PaymentSound(d) && Enabled(d, e)
    requires !e.Claim? && !e.CompleteTask? && !e.CompleteStation? && !e.Review?
    ensures Later(d, Apply(d, e))
  {}

  lemma LaterIsTransitive(a: Dossier, b: Dossier, c: Dossier)
    requires Later(a, b) && Later(b, c)
    ensures Later(a, c)
  {
    forall i | 0 <= i < |a.bypasses| ensures SameBypass(a.bypasses[i], c.bypasses[i]) {
      assert SameBypass(a.bypasses[i], b.bypasses[i]) && SameBypass(b.bypasses[i], c.bypasses[i]);
    }
  }

  predicate MovedOnce(d: Dossier, d': Dossier) {
    || (d'.order.status == d.order.status && d'.history == d.history)
    || (Rank(d'.order.status) > Rank(d.order.status)
        && |d'.history| == |d.history| + 1 && d'.history[|d.history|].before == Some(d.order.status))
  }

  lemma TaskMovesOnce(d: Dossier, e: Event)
    requires e.Claim? || e.CompleteTask?
    ensures MovedOnce(d, Apply(d, e))
  {}

  lemma StationMovesOnce(d: Dossier, e: Event)
    requires e.CompleteStation? || e.Review?
    ensures MovedOnce(d, Apply(d, e))
  {}

  lemma OtherMovesOnce(d: Dossier, e: Event)
    requires !e.Claim? && !e.CompleteTask? && !e.CompleteStation? && !e.Review?
    ensures MovedOnce(d, Apply(d, e))
  {}

  /** A transaction appends one history row when it moves the order, and none otherwise; it moves
      the order only forward. */
  lemma OneRowPerMove(d: Dossier, e: Event)
    ensures var d' := Apply(d, e);
      || (d'.order.status == d.order.status && d'.history == d.history)
      || (Rank(d'.order.status) > Rank(d.order.status)
          && |d'.history| == |d.history| + 1 && d'.history[|d.history|].before == Some(d.order.status))
  {
    hide Apply;
    if e.Claim? || e.CompleteTask? { TaskMovesOnce(d, e); }
    else if e.CompleteStation? || e.Review? { StationMovesOnce(d, e); }
    else { OtherMovesOnce(d, e); }
  }

  /** The order is released to delivery only by a transaction that leaves its payment paid. */
  lemma ReleaseIsPaid(d: Dossier, e: Event)
    requires Rank(d.order.status) < Rank(ReadyForDelivery) <= Rank(Apply(d, e).order.status)
    ensures IsPaid(Apply(d, e)) && Apply(d, e).order.status == ReadyForDelivery
  {}
}
