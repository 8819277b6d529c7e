/** Whole runs of the shop, from the empty database: any number of orders, any interleaving of
    committed transactions, any stale reads. */
module Runs {
  import opened Schema
  import opened Pricing
  import opened Pipeline
  import opened Records
  import opened Bypasses

  datatype Action =
    | Create(order: OrderId, customer: CustomerId, fee: Cents)
    | On(order: OrderId, event: Event)

  function Next(w: World, a: Action): World {
    match a
    case Create(o, customer, fee) => if o in w then w else w[o := Opened(customer, fee)]
    case On(o, e) => if o in w then w[o := Apply(w[o], e)] else w
  }

  /** CreateTransaction read a positive total for this order at some earlier point of the run. */
  ghost predicate TotalWasRead(past: seq<World>, o: OrderId, amount: Cents) {
    exists k :: 0 <= k < |past| && o in past[k] && past[k][o].order.total == amount
  }

  predicate AtStation(w: World, o: OrderId, s: Station) {
    o in w && w[o].order.status == s
  }

  predicate NothingPending(w: World, o: OrderId, s: Station) {
    o in w && !HasPending(w[o].bypasses, s)
  }

  predicate Counted(w: World, o: OrderId, s: Station, count: nat) {
    o in w && count == CountNonPending(w[o].bypasses, s)
  }

  /** CreateBypassRequest saw the order at the station, then nothing pending there, then a count
      below the limit, each at some earlier point of the run. */
  ghost predicate BypassWasChecked(past: seq<World>, o: OrderId, s: Station, count: nat) {
    count < MAX_BYPASS_ATTEMPTS_PER_STATION
    && exists i, j, k :: 0 <= i <= j <= k < |past|
         && AtStation(past[i], o, s) && NothingPending(past[j], o, s) && Counted(past[k], o, s, count)
  }

  ghost predicate Legal(past: seq<World>, a: Action) {
    a.On? ==>
      && (a.event.Checkout? ==> a.event.amount > 0 && TotalWasRead(past, a.order, a.event.amount))
      && (a.event.InsertBypass? ==> BypassWasChecked(past, a.order, a.event.station, a.event.count))
  }

  /** Runs contain whatever the handlers commit: a checkout of a positive total read in any earlier
      state, a bypass insert whose order, pending check and count were read in any three earlier
      states, one after the other, and every other transaction at any time. */
  lemma HandlersAreLegal(past: seq<World>, a: Action, i: nat, j: nat, k: nat)
    requires i <= j <= k < |past|
    requires a.On? && a.event.Checkout? ==> a.order in past[k] && a.event.amount == past[k][a.order].order.total > 0
    requires a.On? && a.event.InsertBypass? ==>
      var o, s := a.order, a.event.station;
      && o in past[i] && past[i][o].order.status == s
      && o in past[j] && (forall b :: b in past[j][o].bypasses && b.station == s ==> b.status != Pending)
      && o in past[k] && a.event.count == CountNonPending(past[k][o].bypasses, s) && a.event.count < 2
    ensures Legal(past, a)
  {
    if a.On? && a.event.InsertBypass? {
      var o, s := a.order, a.event.station;
      assert AtStation(past[i], o, s) && NothingPending(past[j], o, s) && Counted(past[k], o, s, a.event.count);
    }
  }

  /** run[i] is the committed state after the first i actions. */
  ghost predicate IsRun(run: seq<World>, acts: seq<Action>) {
    && |run| == |acts| + 1
    && run[0] == map[]
    && forall i :: 0 <= i < |acts| ==> Legal(run[..i + 1], acts[i]) && run[i + 1] == Next(run[i], acts[i])
  }

  ghost predicate AllSound(w: World) {
    forall o :: o in w ==> Sound(w[o])
  }

  /** Nothing is unrecorded between two states of a run. */
  predicate AllLater(w: World, w': World) {
    forall o :: o in w ==> o in w' && Later(w[o], w'[o])
  }

  lemma RunPrefix(run: seq<World>, acts: seq<Action>, n: nat)
    requires IsRun(run, acts) && n <= |acts|
    ensures IsRun(run[..n + 1], acts[..n])
  {
    forall i | 0 <= i < n ensures Legal(run[..n + 1][..i + 1], acts[..n][i]) && run[..n + 1][i + 1] == Next(run[..n + 1][i], acts[..n][i]) {
      assert run[..n + 1][..i + 1] == run[..i + 1];
    }
  }

  lemma RunLength(run: seq<World>, acts: seq<Action>)
    requires IsRun(run, acts)
    ensures |run| == |acts| + 1 && run[0] == map[]
  {}

  /** One more action. */
  lemma Extend(run: seq<World>, acts: seq<Action>, a: Action) returns (run': seq<World>, acts': seq<Action>)
    requires IsRun(run, acts) && Legal(run, a)
    ensures IsRun(run', acts') && acts' == acts + [a] && run' == run + [Next(run[|acts|], a)]
  {
    run', acts' := run + [Next(run[|acts|], a)], acts + [a];
    forall i | 0 <= i < |acts'| ensures Legal(run'[..i + 1], acts'[i]) && run'[i + 1] == Next(run'[i], acts'[i]) {
      assert run'[..i + 1] == run[..i + 1];
      assert i < |acts| ==> acts'[i] == acts[i] && run'[i] == run[i] && run'[i + 1] == run[i + 1];
      assert run[..|acts| + 1] == run;
    }
  }

  /** One more action on an order that exists. */
  lemma ExtendOn(run: seq<World>, acts: seq<Action>, o: OrderId, e: Event) returns (run': seq<World>, acts': seq<Action>)
    requires |run| == |acts| + 1 && IsRun(run, acts) && o in run[|acts|]
    requires Legal(run, On(o, e))
    ensures |run'| == |acts'| + 1 && IsRun(run', acts')
    ensures acts' == acts + [On(o, e)] && run <= run'
    ensures run'[|acts'|] == run[|acts|][o := Apply(run[|acts|][o], e)]
  {
    hide IsRun, Apply, Legal;
    run', acts' := Extend(run, acts, On(o, e));
  }

  /** A total found positive by an earlier read is still the order's total. */
  lemma ReadTotalHolds(past: seq<World>, o: OrderId, amount: Cents, w: World)
    requires TotalWasRead(past, o, amount) && amount > 0
    requires forall k :: 0 <= k < |past| ==> AllSound(past[k]) && AllLater(past[k], w)
    ensures o in w && w[o].order.total == amount
  {
    var k :| 0 <= k < |past| && o in past[k] && past[k][o].order.total == amount;
    assert AllSound(past[k]) && AllLater(past[k], w);
    assert Later(past[k][o], w[o]);
  }

  /** An order once seen at a station has reached it for good. */
  lemma StationStaysReached(past: seq<World>, o: OrderId, s: Station, count: nat, w: World)
    requires BypassWasChecked(past, o, s, count)
    requires forall k :: 0 <= k < |past| ==> AllLater(past[k], w)
    ensures o in w && Rank(s) <= Rank(w[o].order.status)
  {
    var i :| 0 <= i < |past| && AtStation(past[i], o, s);
    assert AllLater(past[i], w);
    assert Later(past[i][o], w[o]);
  }

  /** Whatever an action read, and however stale it is, what the write needs still holds. */
  lemma LegalIsEnabled(past: seq<World>, a: Action, w: World)
    requires Legal(past, a) && a.On? && a.order in w
    requires forall k :: 0 <= k < |past| ==> AllSound(past[k]) && AllLater(past[k], w)
    ensures Enabled(w[a.order], a.event)
  {
    if a.event.Checkout? { ReadTotalHolds(past, a.order, a.event.amount, w); }
    if a.event.InsertBypass? { StationStaysReached(past, a.order, a.event.station, a.event.count, w); }
  }

  lemma NothingLost(w: World)
    ensures AllLater(w, w)
  {
    forall o | o in w ensures Later(w[o], w[o]) { LaterIsReflexive(w[o]); }
  }

  lemma UpdateKeepsSound(w: World, o: OrderId, d: Dossier)
    requires AllSound(w) && Sound(d)
    requires o in w ==> Later(w[o], d)
    ensures AllSound(w[o := d]) && AllLater(w, w[o := d])
  {
    NothingLost(w);
    hide Sound, Later;
  }

  lemma StepKeepsSound(w: World, a: Action)
    requires AllSound(w)
    requires a.On? && a.order in w ==> Enabled(w[a.order], a.event)
    ensures AllSound(Next(w, a)) && AllLater(w, Next(w, a))
  {
    hide Opened, Apply, Sound, Later, Enabled;
    NothingLost(w);
    match a
    case Create(o, customer, fee) =>
      OpenedIsSound(customer, fee);
      if o !in w { UpdateKeepsSound(w, o, Opened(customer, fee)); }
    case On(o, e) =>
      if o in w {
        ApplyIsSound(w[o], e);
        SoundStepIsLater(w[o], e);
        UpdateKeepsSound(w, o, Apply(w[o], e));
      }
  }

  lemma SoundStepIsLater(d: Dossier, e: Event)
    requires Sound(d) && Enabled(d, e)
    ensures Later(d, Apply(d, e))
  {
    ApplyIsLater(d, e);
  }

  /** The joint invariant holds in every reachable state, and every later state keeps the record
      of every earlier one. */
  lemma {:induction false} EveryStateIsSound(run: seq<World>, acts: seq<Action>)
    requires IsRun(run, acts)
    ensures forall i :: 0 <= i < |run| ==> AllSound(run[i])
    ensures forall i, j :: 0 <= i <= j < |run| ==> AllLater(run[i], run[j])
    decreases |acts|
  {
    hide Sound, Later, Apply, Opened, Next, Legal, Enabled;
    if acts != [] {
      var n := |acts| - 1;
      RunPrefix(run, acts, n);
      var past := run[..n + 1];
      EveryStateIsSound(past, acts[..n]);
      assert past[n] == run[n] && Legal(past, acts[n]);
      var a := acts[n];
      if a.On? && a.order in run[n] {
        forall k | 0 <= k < |past| ensures AllSound(past[k]) && AllLater(past[k], run[n]) {}
        LegalIsEnabled(past, a, run[n]);
      }
      StepKeepsSound(run[n], a);
      forall i | 0 <= i <= n ensures AllLater(run[i], run[n + 1]) {
        assert run[i] == past[i] && AllLater(past[i], past[n]);
        forall o | o in run[i] ensures o in run[n + 1] && Later(run[i][o], run[n + 1][o]) {
          LaterIsTransitive(run[i][o], run[n][o], run[n + 1][o]);
        }
      }
      forall i | 0 <= i < |run| ensures AllSound(run[i]) {
        if i <= n { assert run[i] == past[i]; }
      }
      forall i, j | 0 <= i <= j < |run| ensures AllLater(run[i], run[j]) {
        if j <= n { assert run[i] == past[i] && run[j] == past[j]; }
        else if i == n + 1 { NothingLost(run[i]); }
      }
    } else {
      assert run[0] == map[];
    }
  }

  /** In every reachable state a checkout's amount is the order's total, and an inserted bypass is
      for a station the order has reached, however stale the reads. */
  lemma EveryStepIsEnabled(run: seq<World>, acts: seq<Action>, i: nat)
    requires IsRun(run, acts) && i < |acts| && acts[i].On? && acts[i].order in run[i]
    ensures Enabled(run[i][acts[i].order], acts[i].event)
  {
    EveryStateIsSound(run, acts);
    hide Legal, Enabled;
    var past := run[..i + 1];
    forall k | 0 <= k < |past| ensures AllSound(past[k]) && AllLater(past[k], run[i]) {}
    LegalIsEnabled(past, acts[i], run[i]);
  }

  // ------------------------------------------------------------------------------------------

  /** In every reachable state the two tasks exist and stand exactly as the order's status says,
      and no order waits for a payment that is recorded as paid. */
  lemma TablesAgree(run: seq<World>, acts: seq<Action>, i: nat, o: OrderId)
    requires IsRun(run, acts) && i < |run| && o in run[i]
    ensures var d := run[i][o]; var status := d.order.status;
      && d.pickup.Some?
      && (d.pickup.value.status == Available <==> status == WaitingPickupDriver)
      && (d.pickup.value.status == InProgress <==> status == LaundryToOutlet)
      && (d.delivery.Some? <==> Rank(status) >= Rank(ReadyForDelivery))
      && (d.delivery.Some? ==>
            && (d.delivery.value.status == Available <==> status == ReadyForDelivery)
            && (d.delivery.value.status == InProgress <==> status == DeliveryToCustomer))
      && (IsPaid(d) ==> status != WaitingPayment)
      && (d.payment.Some? ==> d.payment.value.amount == d.order.total > 0)
  {
    EveryStateIsSound(run, acts);
    assert AllSound(run[i]);
    StatusTellsTasks(run[i][o]);
  }

  /** In every reachable state each bypass request is attempt 1 or 2 at a station the order has
      reached, has a reviewer exactly if it is decided, is rejected only as attempt 1, and is
      approved only for a station the order has left. */
  lemma BypassesAgree(run: seq<World>, acts: seq<Action>, i: nat, o: OrderId, k: nat)
    requires IsRun(run, acts) && i < |run| && o in run[i] && k < |run[i][o].bypasses|
    ensures var d := run[i][o]; var b := d.bypasses[k];
      && 1 <= b.attempt <= 2 && Rank(b.station) <= Rank(d.order.status)
      && (b.reviewedBy.Some? <==> b.status != Pending)
      && (b.status == Rejected ==> b.attempt == 1)
      && (b.status == Approved ==> Rank(b.station) < Rank(d.order.status))
  {
    EveryStateIsSound(run, acts);
    assert AllSound(run[i]);
    var d := run[i][o];
    assert BypassRowSound(d.bypasses[k]) && BypassOutcome(d.bypasses[k], d.history, d.order.status);
  }

  lemma StatusTellsTasks(d: Dossier)
    requires LockStep(d)
    ensures d.pickup.Some?
    ensures d.pickup.value.status == Available <==> d.order.status == WaitingPickupDriver
    ensures d.pickup.value.status == InProgress <==> d.order.status == LaundryToOutlet
    ensures d.delivery.Some? <==> Rank(d.order.status) >= Rank(ReadyForDelivery)
    ensures d.delivery.Some? ==> (d.delivery.value.status == Available <==> d.order.status == ReadyForDelivery)
    ensures d.delivery.Some? ==> (d.delivery.value.status == InProgress <==> d.order.status == DeliveryToCustomer)
  {}

  /** Action i of the run moves order o from one status to another. */
  predicate Moves(run: seq<World>, i: nat, o: OrderId)
    requires i + 1 < |run|
  {
    o in run[i] && o in run[i + 1] && run[i + 1][o].order.status != run[i][o].order.status
  }

  function CountMoves(run: seq<World>, o: OrderId): nat {
    if |run| <= 1 then 0
    else CountMoves(run[..|run| - 1], o) + if Moves(run, |run| - 2, o) then 1 else 0
  }

  lemma StepOf(run: seq<World>, acts: seq<Action>, i: nat, o: OrderId)
    requires IsRun(run, acts) && i < |acts| && o in run[i]
    ensures o in run[i + 1]
    ensures run[i + 1][o] == if acts[i].On? && acts[i].order == o then Apply(run[i][o], acts[i].event) else run[i][o]
  {
    assert run[i + 1] == Next(run[i], acts[i]);
  }

  lemma {:induction false} MovesAreRows(run: seq<World>, acts: seq<Action>, o: OrderId)
    requires IsRun(run, acts) && o in run[|acts|]
    ensures CountMoves(run, o) + 1 == |run[|acts|][o].history|
    decreases |acts|
  {
    if acts != [] {
      var n := |acts| - 1;
      RunPrefix(run, acts, n);
      assert run[..|run| - 1] == run[..n + 1];
      if o in run[n] {
        MovesAreRows(run[..n + 1], acts[..n], o);
        StepOf(run, acts, n, o);
        if acts[n].On? { OneRowPerMove(run[n][o], acts[n].event); }
      } else {
        assert run[n + 1] == Next(run[n], acts[n]);
        NeverThereNeverMoves(run[..n + 1], acts[..n], o);
      }
    }
  }

  lemma {:induction false} NeverThereNeverMoves(run: seq<World>, acts: seq<Action>, o: OrderId)
    requires IsRun(run, acts) && o !in run[|acts|]
    ensures CountMoves(run, o) == 0
    decreases |acts|
  {
    if acts != [] {
      var n := |acts| - 1;
      RunPrefix(run, acts, n);
      assert run[..|run| - 1] == run[..n + 1];
      assert run[n + 1] == Next(run[n], acts[n]);
      NeverThereNeverMoves(run[..n + 1], acts[..n], o);
    }
  }

  /** Over any run an order's status changes at most ten times, and each change is one history row. */
  lemma AtMostTenMoves(run: seq<World>, acts: seq<Action>, o: OrderId)
    requires IsRun(run, acts) && o in run[|acts|]
    ensures CountMoves(run, o) == |run[|acts|][o].history| - 1 <= 10
  {
    EveryStateIsSound(run, acts);
    MovesAreRows(run, acts, o);
    HistoryIsShort(run[|acts|][o]);
  }

  /** Among any number of transactions racing to take an order out of one status, at most one
      moves it: two moves of one run never leave the same status. So one claim of a task, one
      processing, one completion of a station, one payment confirmation and one final
      confirmation win, however many are attempted. */
  lemma EachStatusIsLeftOnce(run: seq<World>, acts: seq<Action>, o: OrderId, i: nat, j: nat)
    requires IsRun(run, acts) && i < j < |acts| && Moves(run, i, o) && Moves(run, j, o)
    ensures run[i][o].order.status != run[j][o].order.status
    ensures run[i + 1][o].order.status != run[j + 1][o].order.status
  {
    EveryStateIsSound(run, acts);
    StepOf(run, acts, i, o);
    StepOf(run, acts, j, o);
    OneRowPerMove(run[i][o], acts[i].event);
    OneRowPerMove(run[j][o], acts[j].event);
    assert AllLater(run[i + 1], run[j]);
  }

  /** An order released to delivery was released by exactly the step that took it to
      ready_for_delivery, and its payment was committed as paid by then. */
  lemma {:induction false} DeliveryWasPaid(run: seq<World>, acts: seq<Action>, o: OrderId, j: nat) returns (k: nat)
    requires IsRun(run, acts) && j < |run| && o in run[j]
    requires Rank(run[j][o].order.status) >= Rank(ReadyForDelivery)
    ensures 0 < k <= j && o in run[k - 1] && o in run[k]
    ensures Rank(run[k - 1][o].order.status) < Rank(ReadyForDelivery) && run[k][o].order.status == ReadyForDelivery
    ensures IsPaid(run[k][o]) && run[k][o].payment.value.amount == run[j][o].order.total > 0
    decreases j
  {
    hide Sound, Later, Apply, Next, IsRun, IsPaid;
    RunLength(run, acts);
    StepOfOrNew(run, acts, j - 1, o);
    if Rank(run[j - 1][o].order.status) >= Rank(ReadyForDelivery) {
      k := DeliveryWasPaid(run, acts, o, j - 1);
    } else {
      k := j;
      ReleaseIsPaid(run[j - 1][o], acts[j - 1].event);
    }
    SoundAndLater(run, acts, k, j, o);
    PaidTotal(run[k][o], run[j][o]);
  }

  lemma SoundAndLater(run: seq<World>, acts: seq<Action>, i: nat, j: nat, o: OrderId)
    requires IsRun(run, acts) && i <= j < |run| && o in run[i]
    ensures o in run[j] && Sound(run[i][o]) && Later(run[i][o], run[j][o])
  {
    hide Sound, Later;
    EveryStateIsSound(run, acts);
    assert AllSound(run[i]) && AllLater(run[i], run[j]);
  }

  lemma PaidTotal(d: Dossier, d': Dossier)
    requires Sound(d) && IsPaid(d) && Later(d, d') && Rank(d.order.status) >= Rank(Washing)
    ensures d.payment.value.amount == d'.order.total > 0
  {}

  lemma StepOfOrNew(run: seq<World>, acts: seq<Action>, i: nat, o: OrderId)
    requires IsRun(run, acts) && i < |acts| && o in run[i + 1] && run[i + 1][o].order.status != WaitingPickupDriver
    ensures o in run[i] && i > 0
    ensures run[i + 1][o] == run[i][o]
      || (acts[i].On? && acts[i].order == o && run[i + 1][o] == Apply(run[i][o], acts[i].event))
  {
    assert run[i + 1] == Next(run[i], acts[i]);
  }

  /** A driver who took a task keeps it: in every later state the task names the same driver and
      time. */
  lemma TaskKeepsItsDriver(run: seq<World>, acts: seq<Action>, o: OrderId, i: nat, j: nat, kind: TaskKind)
    requires IsRun(run, acts) && i <= j < |run| && o in run[i]
    requires Task(run[i][o], kind).Some? && Task(run[i][o], kind).value.driver.Some?
    ensures o in run[j] && Task(run[j][o], kind).Some?
    ensures Task(run[j][o], kind).value.driver == Task(run[i][o], kind).value.driver
    ensures Task(run[j][o], kind).value.takenAt == Task(run[i][o], kind).value.takenAt
  {
    EveryStateIsSound(run, acts);
    assert AllLater(run[i], run[j]);
    assert Later(run[i][o], run[j][o]);
  }

  /** The ways a transaction can change a task row. */
  lemma TaskLife(d: Dossier, e: Event, kind: TaskKind)
    requires LockStep(d)
    ensures var t, t' := Task(d, kind), Task(Apply(d, e), kind);
      || t' == t
      || (t.None? && t' == Some(NEW_TASK))
      || (t == Some(NEW_TASK) && e.Claim? && e.kind == kind
          && t' == Some(DriverTask(InProgress, Some(e.driver), Some(e.at), None)))
      || (e.CompleteTask? && e.kind == kind && Holds(d, kind, e.driver)
          && t' == Some(t.value.(status := Done, completedAt := Some(e.at))))
  {}

  lemma SoundStepOfTask(run: seq<World>, acts: seq<Action>, o: OrderId, i: nat, kind: TaskKind)
    requires IsRun(run, acts) && i < |acts| && o in run[i + 1] && Task(run[i + 1][o], kind).Some? && Task(run[i + 1][o], kind) != Some(NEW_TASK)
    ensures o in run[i]
    ensures Task(run[i + 1][o], kind) == Task(run[i][o], kind)
      || (acts[i].On? && acts[i].order == o && run[i + 1][o] == Apply(run[i][o], acts[i].event) && LockStep(run[i][o]))
  {
    hide Sound, Apply, LockStep, Legal;
    EveryStateIsSound(run, acts);
    assert AllSound(run[i]);
    assert run[i + 1] == Next(run[i], acts[i]);
    if o in run[i] { SoundInStep(run[i][o]); }
  }

  lemma SoundInStep(d: Dossier)
    requires Sound(d)
    ensures LockStep(d)
  {}

  /** A task's driver claimed it, at the time the row records. */
  lemma {:induction false} ClaimedByItsDriver(run: seq<World>, acts: seq<Action>, o: OrderId, j: nat, kind: TaskKind) returns (k: nat)
    requires IsRun(run, acts) && j < |run| && o in run[j]
    requires Task(run[j][o], kind).Some? && Task(run[j][o], kind).value.driver.Some? && Task(run[j][o], kind).value.takenAt.Some?
    ensures k < j && o in run[k] && Task(run[k][o], kind) == Some(NEW_TASK)
    ensures var t := Task(run[j][o], kind).value; acts[k] == On(o, Claim(kind, t.driver.value, t.takenAt.value))
    decreases j
  {
    hide Apply, Next, Sound;
    assert run[0] == map[];
    SoundStepOfTask(run, acts, o, j - 1, kind);
    var before := Task(run[j - 1][o], kind);
    if acts[j - 1].On? && LockStep(run[j - 1][o]) { TaskLife(run[j - 1][o], acts[j - 1].event, kind); }
    if before.Some? && before.value.driver.Some? {
      k := ClaimedByItsDriver(run, acts, o, j - 1, kind);
    } else {
      k := j - 1;
    }
  }

  /** A finished task was finished by its own driver's completion and nobody else's. */
  lemma {:induction false} CompletedByItsDriver(run: seq<World>, acts: seq<Action>, o: OrderId, j: nat, kind: TaskKind) returns (k: nat)
    requires IsRun(run, acts) && j < |run| && o in run[j]
    requires Task(run[j][o], kind).Some? && Task(run[j][o], kind).value.status == Done
    ensures k < j && o in run[k] && Task(run[k][o], kind).Some?
    ensures var t, was := Task(run[j][o], kind).value, Task(run[k][o], kind).value;
      && t.driver.Some? && t.completedAt.Some?
      && was.status == InProgress && was.driver == t.driver && was.takenAt == t.takenAt
      && acts[k] == On(o, Event.CompleteTask(kind, t.driver.value, t.completedAt.value))
    decreases j
  {
    hide Apply, Next, Sound;
    assert run[0] == map[];
    SoundStepOfTask(run, acts, o, j - 1, kind);
    var before := Task(run[j - 1][o], kind);
    if acts[j - 1].On? && LockStep(run[j - 1][o]) { TaskLife(run[j - 1][o], acts[j - 1].event, kind); }
    if before == Task(run[j][o], kind) {
      k := CompletedByItsDriver(run, acts, o, j - 1, kind);
    } else {
      k := j - 1;
    }
  }

  /** The auto-confirm deadline is delivery time plus 48 hours, from delivery on and for good. */
  lemma DeadlineIsFixed(run: seq<World>, acts: seq<Action>, o: OrderId, i: nat, j: nat)
    requires IsRun(run, acts) && i <= j < |run| && o in run[i]
    ensures o in run[j]
    ensures Rank(run[j][o].order.status) >= Rank(ReceivedByCustomer) <==> run[j][o].order.autoConfirmAt.Some?
    ensures run[i][o].order.autoConfirmAt.Some? ==>
      && run[j][o].order.autoConfirmAt == run[i][o].order.autoConfirmAt
      && run[j][o].delivery.Some? && run[j][o].delivery.value.completedAt.Some?
      && run[j][o].order.autoConfirmAt.value == run[j][o].delivery.value.completedAt.value + 48 * 3600
  {
    EveryStateIsSound(run, acts);
    assert AllLater(run[i], run[j]) && AllSound(run[j]);
    DeadlineOf(run[i][o], run[j][o]);
  }

  lemma DeadlineOf(d: Dossier, d': Dossier)
    requires LockStep(d') && Later(d, d')
    ensures Rank(d'.order.status) >= Rank(ReceivedByCustomer) <==> d'.order.autoConfirmAt.Some?
    ensures d.order.autoConfirmAt.Some? ==>
      && d'.order.autoConfirmAt == d.order.autoConfirmAt
      && d'.delivery.Some? && d'.delivery.value.completedAt.Some?
      && d'.order.autoConfirmAt.value == d'.delivery.value.completedAt.value + AUTO_CONFIRM_DELAY
  {}

  lemma OnlyProcessProcesses(d: Dossier, e: Event)
    requires Rank(d.order.status) < Rank(Washing) <= Rank(Apply(d, e).order.status)
    ensures e.Process? && Admissible(e.request)
    ensures Apply(d, e).items == Store(e.request) && Apply(d, e).order.total == Bill(e.request, d.order.fee) && Apply(d, e).breakdown == e.breakdown
    ensures Apply(d, e).order.fee == d.order.fee && Apply(d, e).order.status != d.order.status
  {}

  /** Items and total come from one ProcessOrder of the run, the one that moved the order, and in
      every later state are as it left them. */
  lemma {:induction false} ProcessedOnceForAll(run: seq<World>, acts: seq<Action>, o: OrderId, j: nat)
    returns (k: nat, admin: EmployeeId, request: seq<Line>, breakdown: seq<Count>)
    requires IsRun(run, acts) && j < |run| && o in run[j] && Rank(run[j][o].order.status) >= Rank(Washing)
    ensures k < j && acts[k] == On(o, Process(admin, request, breakdown)) && Moves(run, k, o) && Admissible(request)
    ensures forall m :: k < m < |run| ==> o in run[m] && IsBilled(run[m][o], request, breakdown)
    decreases j
  {
    hide Sound, Later, Apply, Next, Store, Bill, Admissible;
    EveryStateIsSound(run, acts);
    assert run[0] == map[];
    StepOfOrNew(run, acts, j - 1, o);
    if Rank(run[j - 1][o].order.status) >= Rank(Washing) {
      k, admin, request, breakdown := ProcessedOnceForAll(run, acts, o, j - 1);
    } else {
      var e := acts[j - 1].event;
      OnlyProcessProcesses(run[j - 1][o], e);
      k, admin, request, breakdown := j - 1, e.admin, e.request, e.breakdown;
      forall m | k < m < |run| ensures o in run[m] && IsBilled(run[m][o], request, breakdown) {
        assert AllLater(run[j], run[m]);
        BillStays(run[j][o], run[m][o], request, breakdown);
      }
    }
  }

  /** Items and breakdown are the request's as stored, the total is its bill. */
  predicate IsBilled(d: Dossier, request: seq<Line>, breakdown: seq<Count>) {
    d.items == Store(request) && d.breakdown == breakdown && d.order.total == Bill(request, d.order.fee)
  }

  lemma BillStays(d: Dossier, d': Dossier, request: seq<Line>, breakdown: seq<Count>)
    requires IsBilled(d, request, breakdown) && Later(d, d') && Rank(d.order.status) >= Rank(Washing)
    ensures IsBilled(d', request, breakdown)
  {}

  /** Items exist exactly from washing on, and before that nothing is charged. */
  lemma ItemsFollowStatus(run: seq<World>, acts: seq<Action>, o: OrderId, i: nat)
    requires IsRun(run, acts) && i < |run| && o in run[i]
    ensures run[i][o].items != [] <==> Rank(run[i][o].order.status) >= Rank(Washing)
    ensures run[i][o].items == [] ==> run[i][o].breakdown == [] && run[i][o].order.total == 0
  {
    EveryStateIsSound(run, acts);
    assert AllSound(run[i]);
    assert BillSound(run[i][o]);
  }

  /** If the request that processed the order had two-decimal quantities, its total agrees with
      its stored items, to half a cent, in every later state and whatever the catalogue becomes. */
  lemma TotalsReconcile(run: seq<World>, acts: seq<Action>, o: OrderId, j: nat)
    returns (k: nat, admin: EmployeeId, request: seq<Line>, breakdown: seq<Count>)
    requires IsRun(run, acts) && j < |run| && o in run[j] && Rank(run[j][o].order.status) >= Rank(Washing)
    ensures k < j && acts[k] == On(o, Process(admin, request, breakdown)) && Moves(run, k, o)
    ensures (forall q :: 0 <= q < |request| ==> WholeHundredths(request[q].quantity)) ==>
      forall m :: k < m < |run| ==> o in run[m] && Reconciles(run[m][o].order.total, run[m][o].items, run[m][o].order.fee)
  {
    hide IsRun, Moves, Store, Bill, WholeHundredths, Reconciles;
    k, admin, request, breakdown := ProcessedOnceForAll(run, acts, o, j);
    if forall q :: 0 <= q < |request| ==> WholeHundredths(request[q].quantity) {
      forall m | k < m < |run| ensures o in run[m] && Reconciles(run[m][o].order.total, run[m][o].items, run[m][o].order.fee) {
        assert IsBilled(run[m][o], request, breakdown);
        BillReconciles(request, run[m][o].order.fee);
      }
    }
  }
}
