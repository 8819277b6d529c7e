/** assertDriverEligibility reads driver_tasks before ClaimTask's transaction and nothing repeats
    the check inside it. One driver, seen against everybody else. */
module Drivers {
  import opened Schema
  import opened Pipeline
  import opened Runs
  import opened Completion

  predicate OneTask(w: World, driver: EmployeeId) {
    forall o, k, o', k' :: o in w && o' in w && Holds(w[o], k, driver) && Holds(w[o'], k', driver) ==> o == o' && k == k'
  }

  lemma FreeHoldsNothing(w: World, driver: EmployeeId)
    ensures FreeDriver(w, driver) <==> forall o, k :: o in w ==> !Holds(w[o], k, driver)
  {
    if FreeDriver(w, driver) {
      forall o, k | o in w ensures !Holds(w[o], k, driver) {
        match k case Pickup => case Delivery =>
      }
    }
  }

  /** Only a claim in the driver's own name gives the driver a task. */
  lemma OnlyOwnClaimsGive(d: Dossier, e: Event, k: TaskKind, driver: EmployeeId)
    requires Sound(d) && Holds(Apply(d, e), k, driver)
    ensures Holds(d, k, driver) || (e.Claim? && e.driver == driver && e.kind == k && d.order.status == ClaimOldStatus(k))
  {
    hide Sound, Apply, LockStep;
    SoundInStep(d);
    if e.Claim? || e.CompleteTask? { TaskStepGives(d, e, k, driver); } else { OtherStepGives(d, e, k, driver); }
  }

  lemma TaskStepGives(d: Dossier, e: Event, k: TaskKind, driver: EmployeeId)
    requires LockStep(d) && Holds(Apply(d, e), k, driver) && (e.Claim? || e.CompleteTask?)
    ensures Holds(d, k, driver) || (e.Claim? && e.driver == driver && e.kind == k && d.order.status == ClaimOldStatus(k))
  {}

  lemma OtherStepGives(d: Dossier, e: Event, k: TaskKind, driver: EmployeeId)
    requires LockStep(d) && Holds(Apply(d, e), k, driver) && !e.Claim? && !e.CompleteTask?
    ensures Holds(d, k, driver)
  {}

  /** A winning claim keeps "at most one task" exactly when the driver is still free as it
      commits. */
  lemma ClaimKeepsOneTaskIffFree(w: World, o: OrderId, k: TaskKind, driver: EmployeeId, at: Time)
    requires AllSound(w) && o in w && w[o].order.status == ClaimOldStatus(k)
    requires OneTask(w, driver)
    ensures OneTask(Next(w, On(o, Claim(k, driver, at))), driver) <==> FreeDriver(w, driver)
  {
    hide Sound, Apply, Holds, FreeDriver;
    var e := Claim(k, driver, at);
    var w' := Next(w, On(o, e));
    FreeHoldsNothing(w, driver);
    ClaimGives(w[o], k, driver, at);
    assert w'[o] == Apply(w[o], e);
    if FreeDriver(w, driver) {
      forall p, j | p in w' && Holds(w'[p], j, driver) ensures p == o && j == k {
        if p == o { OnlyOwnClaimsGive(w[o], e, j, driver); }
      }
    } else {
      var p, j :| p in w && Holds(w[p], j, driver);
      if p == o { ClaimableIsNotHeld(w[o], k, j, driver); }
      assert p != o && w'[p] == w[p];
    }
  }

  lemma ClaimableIsNotHeld(d: Dossier, k: TaskKind, j: TaskKind, driver: EmployeeId)
    requires Sound(d) && d.order.status == ClaimOldStatus(k)
    ensures !Holds(d, j, driver)
  {
    assert LockStep(d);
  }

  /** The shop as one driver's requests meet it: checked says that an eligibility check has passed
      and its claim has not been decided yet. */
  datatype State = State(world: World, checked: bool)

  datatype Step =
    | Check
    | ClaimOwn(order: OrderId, kind: TaskKind, at: Time)
    | GiveUp
    | Other(action: Action)

  /** The driver's own requests do not overlap: a check starts only when no claim is in flight.
      Other(a) is any transaction of anybody else, including other drivers' claims. */
  predicate Allowed(s: State, step: Step, driver: EmployeeId) {
    match step
    case Check => !s.checked && FreeDriver(s.world, driver)
    case ClaimOwn(_, _, _) => s.checked
    case GiveUp => s.checked
    case Other(a) =>
      a.On? ==> !(a.event.Claim? && a.event.driver == driver) && (a.order in s.world ==> Enabled(s.world[a.order], a.event))
  }

  function After(s: State, step: Step, driver: EmployeeId): State {
    match step
    case Check => s.(checked := true)
    case ClaimOwn(o, k, at) => State(Next(s.world, On(o, Claim(k, driver, at))), false)
    case GiveUp => s.(checked := false)
    case Other(a) => s.(world := Next(s.world, a))
  }

  ghost predicate Exclusive(s: State, driver: EmployeeId) {
    AllSound(s.world) && OneTask(s.world, driver) && (s.checked ==> FreeDriver(s.world, driver))
  }

  lemma OthersGiveNothing(w: World, a: Action, driver: EmployeeId)
    requires AllSound(w) && (a.On? ==> !(a.event.Claim? && a.event.driver == driver))
    ensures forall o, k :: o in Next(w, a) && Holds(Next(w, a)[o], k, driver) ==> o in w && Holds(w[o], k, driver)
  {
    var w' := Next(w, a);
    forall o, k | o in w' && Holds(w'[o], k, driver) ensures o in w && Holds(w[o], k, driver) {
      if a.On? && a.order == o && o in w { OnlyOwnClaimsGive(w[o], a.event, k, driver); }
    }
  }

  lemma StepKeepsExclusive(s: State, step: Step, driver: EmployeeId)
    requires Exclusive(s, driver) && Allowed(s, step, driver)
    ensures Exclusive(After(s, step, driver), driver)
  {
    FreeHoldsNothing(s.world, driver);
    FreeHoldsNothing(After(s, step, driver).world, driver);
    match step
    case Check =>
    case GiveUp =>
    case ClaimOwn(o, k, at) =>
      hide Sound, Apply, Holds, Enabled;
      StepKeepsSound(s.world, On(o, Claim(k, driver, at)));
      OwnClaim(s.world, o, k, driver, at);
    case Other(a) =>
      hide Sound, Apply, Holds, Enabled;
      StepKeepsSound(s.world, a);
      OthersGiveNothing(s.world, a, driver);
  }

  lemma OwnClaim(w: World, o: OrderId, k: TaskKind, driver: EmployeeId, at: Time)
    requires AllSound(w) && FreeDriver(w, driver)
    ensures OneTask(Next(w, On(o, Claim(k, driver, at))), driver)
  {
    FreeHoldsNothing(w, driver);
    if o in w && w[o].order.status == ClaimOldStatus(k) {
      hide Sound, Apply, Holds;
      ClaimKeepsOneTaskIffFree(w, o, k, driver, at);
    } else {
      assert o in w ==> Apply(w[o], Claim(k, driver, at)) == w[o];
      assert Next(w, On(o, Claim(k, driver, at))) == w;
    }
  }

  /** A free driver may check, and then claim, and gets a task that is still to be claimed. */
  lemma CheckThenClaim(s: State, driver: EmployeeId, o: OrderId, k: TaskKind, at: Time)
    requires !s.checked && FreeDriver(s.world, driver) && o in s.world && s.world[o].order.status == ClaimOldStatus(k)
    ensures Allowed(s, Check, driver) && After(s, Check, driver).world == s.world
    ensures Allowed(After(s, Check, driver), ClaimOwn(o, k, at), driver)
    ensures var s' := After(After(s, Check, driver), ClaimOwn(o, k, at), driver);
      !s'.checked && o in s'.world && Holds(s'.world[o], k, driver)
  {
    ClaimGives(s.world[o], k, driver, at);
  }

  ghost predicate IsDriverRun(states: seq<State>, steps: seq<Step>, driver: EmployeeId) {
    && |states| == |steps| + 1
    && states[0] == State(map[], false)
    && forall i :: 0 <= i < |steps| ==> Allowed(states[i], steps[i], driver) && states[i + 1] == After(states[i], steps[i], driver)
  }

  /** A driver whose own requests do not overlap never holds two tasks in progress, whatever all
      the others do. */
  lemma {:induction false} NeverTwoTasks(states: seq<State>, steps: seq<Step>, driver: EmployeeId, n: nat)
    requires IsDriverRun(states, steps, driver) && n < |states|
    ensures Exclusive(states[n], driver)
  {
    if n > 0 {
      NeverTwoTasks(states, steps, driver, n - 1);
      hide Exclusive, Allowed, After;
      StepKeepsExclusive(states[n - 1], steps[n - 1], driver);
    }
  }

  // ------------------------------------------------------------------------------------------
  // Overlapping requests of one driver, over whole runs.

  /** Action a is a claim of this driver's that takes effect. */
  predicate WinsClaim(w: World, a: Action, driver: EmployeeId) {
    a.On? && a.event.Claim? && a.event.driver == driver && a.order in w && w[a.order].order.status == ClaimOldStatus(a.event.kind)
  }

  /** If the driver wins a task, the eligibility check would still pass. */
  predicate CheckHolds(w: World, a: Action, driver: EmployeeId) {
    WinsClaim(w, a, driver) ==> FreeDriver(w, driver)
  }

  lemma LosingClaimGivesNothing(w: World, a: Action, driver: EmployeeId)
    requires AllSound(w) && !WinsClaim(w, a, driver)
    ensures forall o, k :: o in Next(w, a) && Holds(Next(w, a)[o], k, driver) ==> o in w && Holds(w[o], k, driver)
  {
    if a.On? && a.event.Claim? && a.event.driver == driver {
      assert Next(w, a) == w;
    } else {
      OthersGiveNothing(w, a, driver);
    }
  }

  lemma StepOneTaskIff(w: World, a: Action, driver: EmployeeId)
    requires AllSound(w) && OneTask(w, driver)
    ensures OneTask(Next(w, a), driver) <==> CheckHolds(w, a, driver)
  {
    hide Sound, Apply, Holds, FreeDriver;
    if WinsClaim(w, a, driver) {
      ClaimKeepsOneTaskIffFree(w, a.order, a.event.kind, driver, a.event.at);
    } else {
      LosingClaimGivesNothing(w, a, driver);
    }
  }

  /** Over a whole run a driver never holds two tasks exactly when every claim the driver wins is
      committed while the driver is free, which the code checks only some time before. */
  lemma {:induction false} OneTaskIffChecksHold(run: seq<World>, acts: seq<Action>, driver: EmployeeId)
    requires IsRun(run, acts)
    ensures (forall i :: 0 <= i < |run| ==> OneTask(run[i], driver)) <==> (forall i :: 0 <= i < |acts| ==> CheckHolds(run[i], acts[i], driver))
    decreases |acts|
  {
    hide OneTask, CheckHolds, Next, Legal, AllSound, AlwaysOneTask, ChecksAlwaysHold, IsRun;
    RunLength(run, acts);
    OneTaskEverywhere(run, acts, driver);
    if acts == [] {
      NobodyHoldsAny(driver);
      StartsOut(run, driver);
    } else {
      var n := |acts| - 1;
      RunPrefix(run, acts, n);
      OneTaskIffChecksHold(run[..n + 1], acts[..n], driver);
      OneTaskEverywhere(run[..n + 1], acts[..n], driver);
      LastStep(run, acts, driver);
      if OneTask(run[n], driver) { StepOneTaskIff(run[n], acts[n], driver); }
    }
  }

  predicate AlwaysOneTask(run: seq<World>, driver: EmployeeId) {
    forall i :: 0 <= i < |run| ==> OneTask(run[i], driver)
  }

  predicate ChecksAlwaysHold(run: seq<World>, acts: seq<Action>, driver: EmployeeId)
    requires |acts| <= |run|
  {
    forall i :: 0 <= i < |acts| ==> CheckHolds(run[i], acts[i], driver)
  }

  lemma OneTaskEverywhere(run: seq<World>, acts: seq<Action>, driver: EmployeeId)
    requires |acts| <= |run|
    ensures AlwaysOneTask(run, driver) <==> forall i :: 0 <= i < |run| ==> OneTask(run[i], driver)
    ensures ChecksAlwaysHold(run, acts, driver) <==> forall i :: 0 <= i < |acts| ==> CheckHolds(run[i], acts[i], driver)
  {}

  lemma StartsOut(run: seq<World>, driver: EmployeeId)
    requires |run| == 1 && OneTask(run[0], driver)
    ensures AlwaysOneTask(run, driver) && ChecksAlwaysHold(run, [], driver)
  {}

  /** What the last action adds to each side. */
  lemma LastStep(run: seq<World>, acts: seq<Action>, driver: EmployeeId)
    requires IsRun(run, acts) && acts != [] && |run| == |acts| + 1
    ensures var n := |acts| - 1;
      && (AlwaysOneTask(run, driver) <==> AlwaysOneTask(run[..n + 1], driver) && OneTask(run[n + 1], driver))
      && (AlwaysOneTask(run[..n + 1], driver) ==> OneTask(run[n], driver))
      && (ChecksAlwaysHold(run, acts, driver) <==>
            ChecksAlwaysHold(run[..n + 1], acts[..n], driver) && CheckHolds(run[n], acts[n], driver))
      && AllSound(run[n]) && run[n + 1] == Next(run[n], acts[n])
  {
    hide OneTask, CheckHolds, Next, Legal, AllSound;
    var n := |acts| - 1;
    EveryStateIsSound(run, acts);
    assert forall i :: 0 <= i <= n ==> run[..n + 1][i] == run[i];
    assert forall i :: 0 <= i < n ==> acts[..n][i] == acts[i];
    assert AlwaysOneTask(run[..n + 1], driver) ==> OneTask(run[..n + 1][n], driver);
  }

  lemma NobodyHoldsAny(driver: EmployeeId)
    ensures OneTask(map[], driver)
  {}

  /** A free driver's two requests are both checked before either claim: every run with two orders
      to be claimed can go on so, and the driver ends with both. */
  lemma OverlapTakesTwo(run: seq<World>, acts: seq<Action>, driver: EmployeeId, o1: OrderId, k1: TaskKind, o2: OrderId, k2: TaskKind, at: Time)
    returns (run': seq<World>, acts': seq<Action>)
    requires IsRun(run, acts) && o1 != o2 && o1 in run[|acts|] && o2 in run[|acts|]
    requires run[|acts|][o1].order.status == ClaimOldStatus(k1) && run[|acts|][o2].order.status == ClaimOldStatus(k2)
    requires FreeDriver(run[|acts|], driver)
    ensures IsRun(run', acts') && acts' == acts + [On(o1, Claim(k1, driver, at)), On(o2, Claim(k2, driver, at))]
    ensures var w := run'[|acts'|];
      o1 in w && o2 in w && Holds(w[o1], k1, driver) && Holds(w[o2], k2, driver) && !OneTask(w, driver)
  {
    hide IsRun, Apply, Holds, Legal, FreeDriver;
    RunLength(run, acts);
    var n := |acts|;
    ClaimIsLegal(run, o1, k1, driver, at);
    run', acts' := ExtendOn(run, acts, o1, Claim(k1, driver, at));
    ClaimIsLegal(run', o2, k2, driver, at);
    run', acts' := ExtendOn(run', acts', o2, Claim(k2, driver, at));
    ClaimGives(run[n][o1], k1, driver, at);
    ClaimGives(run[n][o2], k2, driver, at);
  }

  lemma ClaimIsLegal(past: seq<World>, o: OrderId, k: TaskKind, driver: EmployeeId, at: Time)
    ensures Legal(past, On(o, Claim(k, driver, at)))
  {}

  lemma ClaimGives(d: Dossier, k: TaskKind, driver: EmployeeId, at: Time)
    requires d.order.status == ClaimOldStatus(k)
    ensures Holds(Apply(d, Claim(k, driver, at)), k, driver)
  {}
}
