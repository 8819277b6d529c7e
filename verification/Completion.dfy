/** No order is stranded, with one exception: an order whose processing came to a total of zero or
    less can never be paid for, and so never leaves waiting_payment. */
module Completion {
  import opened Schema
  import opened Pricing
  import opened Pipeline
  import opened Runs

  predicate FreeElsewhere(w: World, o: OrderId, driver: EmployeeId) {
    forall other :: other in w && other != o ==> !Holds(w[other], Pickup, driver) && !Holds(w[other], Delivery, driver)
  }

  /** assertDriverEligibility's second check: the driver holds no in_progress task. */
  predicate FreeDriver(w: World, driver: EmployeeId) {
    forall o :: o in w ==> !Holds(w[o], Pickup, driver) && !Holds(w[o], Delivery, driver)
  }

  /** A request that is accepted and takes effect. */
  predicate Succeeds(w: World, a: Action) {
    match a
    case Create(o, _, _) => o !in w
    case On(o, e) =>
      o in w && Enabled(w[o], e) && (e.Claim? ==> FreeDriver(w, e.driver)) && Apply(w[o], e) != w[o]
  }

  predicate Plays(w: World, acts: seq<Action>, w': World)
    decreases |acts|
  {
    if acts == [] then w' == w
    else Succeeds(w, acts[0]) && Plays(Next(w, acts[0]), acts[1..], w')
  }

  /** The people an order still needs. */
  datatype Crew = Crew(driver: EmployeeId, admin: EmployeeId, worker: EmployeeId, request: seq<Line>, breakdown: seq<Count>, gateway: GatewayId, at: Time)

  function Holder(t: Option<DriverTask>): EmployeeId {
    if t.Some? && t.value.driver.Some? then t.value.driver.value else 0
  }

  /** A gateway transaction is open; one that failed or expired has to be replaced by another. */
  predicate AwaitsGateway(d: Dossier) {
    d.payment.Some? && d.payment.value.status == PaymentPending
  }

  function NextEvent(d: Dossier, c: Crew): Event {
    match d.order.status
    case WaitingPickupDriver => Claim(Pickup, c.driver, c.at)
    case LaundryToOutlet => CompleteTask(Pickup, Holder(d.pickup), c.at)
    case LaundryArrivedOutlet => Process(c.admin, c.request, c.breakdown)
    case Washing => CompleteStation(Washing, c.worker)
    case Ironing => CompleteStation(Ironing, c.worker)
    case Packing => CompleteStation(Packing, c.worker)
    case WaitingPayment => if AwaitsGateway(d) then Gateway(Paid, c.at) else Checkout(d.order.total, c.gateway)
    case ReadyForDelivery => Claim(Delivery, c.driver, c.at)
    case DeliveryToCustomer => CompleteTask(Delivery, Holder(d.delivery), c.at)
    case ReceivedByCustomer => Confirm(d.order.customer)
    case Completed => AutoComplete
  }

  predicate Payable(d: Dossier) {
    Rank(d.order.status) < Rank(Washing) || d.order.total > 0
  }

  predicate CanBill(d: Dossier, c: Crew) {
    Rank(d.order.status) < Rank(Washing) ==> Admissible(c.request) && Bill(c.request, d.order.fee) > 0
  }

  /** Steps still needed: one per remaining stage, and one checkout. */
  function Distance(d: Dossier): nat {
    10 - Rank(d.order.status) + if !AwaitsGateway(d) && Rank(d.order.status) < Rank(ReadyForDelivery) then 1 else 0
  }

  lemma NextEventMoves(d: Dossier, c: Crew)
    requires LockStep(d) && PaymentSound(d) && Payable(d) && CanBill(d, c) && d.order.status != Completed
    ensures Enabled(d, NextEvent(d, c))
    ensures var d' := Apply(d, NextEvent(d, c));
      && Payable(d') && CanBill(d', c) && Distance(d') < Distance(d)
      && (d'.order.status != d.order.status || d'.payment != d.payment)
  {}

  lemma NextEventAdvances(d: Dossier, c: Crew)
    requires Sound(d) && Payable(d) && CanBill(d, c) && d.order.status != Completed
    ensures Enabled(d, NextEvent(d, c))
    ensures var d' := Apply(d, NextEvent(d, c));
      d' != d && Sound(d') && Payable(d') && CanBill(d', c) && Distance(d') < Distance(d)
    ensures NextEvent(d, c).Claim? ==>
      NextEvent(d, c).driver == c.driver && !Holds(d, Pickup, c.driver) && !Holds(d, Delivery, c.driver)
  {
    hide Apply, Enabled, Payable, CanBill, PaymentSound, Distance;
    NextEventMoves(d, c);
    ApplyIsSound(d, NextEvent(d, c));
  }

  /** From any sound state an order that can be paid for, whatever became of earlier payment
      attempts, has an explicit continuation of at most
      eleven accepted requests that completes it and touches no other order, given a driver who
      holds no other order's task and, if it is not yet processed, a bill above zero. */
  lemma {:induction false} CanBeCompleted(w: World, o: OrderId, c: Crew) returns (acts: seq<Action>, w': World)
    requires AllSound(w) && o in w && Payable(w[o]) && CanBill(w[o], c) && FreeElsewhere(w, o, c.driver)
    ensures Plays(w, acts, w') && |acts| <= Distance(w[o]) <= 11
    ensures w'.Keys == w.Keys && w'[o].order.status == Completed
    ensures forall other :: other in w && other != o ==> w'[other] == w[other]
    decreases Distance(w[o])
  {
    hide Sound, Apply, NextEvent, Enabled, Holds, CanBill, Payable;
    if w[o].order.status == Completed {
      acts, w' := [], w;
    } else {
      var e := NextEvent(w[o], c);
      NextEventAdvances(w[o], c);
      var next := w[o := Apply(w[o], e)];
      var rest;
      rest, w' := CanBeCompleted(next, o, c);
      acts := [On(o, e)] + rest;
      assert acts[1..] == rest;
      assert Succeeds(w, acts[0]);
    }
  }

  /** Processed for nothing: no accepted request takes the order to delivery. */
  lemma UnpayableStays(d: Dossier, e: Event)
    requires Sound(d) && Enabled(d, e) && !Payable(d)
    ensures !Payable(Apply(d, e)) && Rank(Apply(d, e).order.status) < Rank(ReadyForDelivery)
  {}

  lemma {:induction false} UnpayableNeverCompletes(w: World, acts: seq<Action>, w': World, o: OrderId)
    requires AllSound(w) && o in w && !Payable(w[o]) && Plays(w, acts, w')
    ensures o in w' && !Payable(w'[o]) && w'[o].order.status != Completed
    decreases |acts|
  {
    hide Sound, Apply, Enabled, Holds, Payable;
    if acts == [] {
      NotCompleted(w[o]);
    } else {
      var a := acts[0];
      if a.On? && a.order == o { UnpayableStays(w[o], a.event); }
      StepKeepsSound(w, a);
      UnpayableNeverCompletes(Next(w, a), acts[1..], w', o);
    }
  }

  lemma NotCompleted(d: Dossier)
    requires Sound(d) && !Payable(d)
    ensures d.order.status != Completed
  {}

  ghost predicate Completable(w: World, o: OrderId) {
    exists acts: seq<Action>, w': World :: Plays(w, acts, w') && o in w' && w'[o].order.status == Completed
  }

  /** Exactly the orders with a positive total, or not yet processed, can still be completed. */
  lemma CompletableIffPayable(w: World, o: OrderId, c: Crew)
    requires AllSound(w) && o in w && CanBill(w[o], c) && FreeElsewhere(w, o, c.driver)
    ensures Completable(w, o) <==> Payable(w[o])
  {
    hide Sound, Payable, Plays, Holds;
    if Payable(w[o]) {
      var acts, w' := CanBeCompleted(w, o, c);
    } else if Completable(w, o) {
      var acts: seq<Action>, w': World :| Plays(w, acts, w') && o in w' && w'[o].order.status == Completed;
      UnpayableNeverCompletes(w, acts, w', o);
    }
  }
}
