/** The pipeline's transitions in full: for every transaction, when it takes effect and every column
    it changes, with all statuses and constants written out. The handlers are proved to commit these
    transitions; nothing here refers to the lookup tables or helpers they are computed with. */
module Transitions {
  import opened Schema
  import opened Pricing
  import opened Pipeline
  import opened Runs

  lemma CreateOrderTransition(w: World, o: OrderId, customer: CustomerId, fee: Cents)
    ensures Next(w, Create(o, customer, fee)) == if o in w then w else w[o := Dossier(
      Order(customer, WaitingPickupDriver, fee, 0, None, None),
      Some(DriverTask(Available, None, None, None)), None, None,
      [HistoryRow(None, WaitingPickupDriver, ByCustomer(customer))], [], [], [])]
  {}

  lemma ClaimTransition(d: Dossier, driver: EmployeeId, at: Time)
    ensures Apply(d, Claim(Pickup, driver, at)) == if d.order.status != WaitingPickupDriver then d else
      d.(order := d.order.(status := LaundryToOutlet, pickupSchedule := Some(at)),
         pickup := Some(DriverTask(InProgress, Some(driver), Some(at), None)),
         history := d.history + [HistoryRow(Some(WaitingPickupDriver), LaundryToOutlet, ByEmployee(driver))])
    ensures Apply(d, Claim(Delivery, driver, at)) == if d.order.status != ReadyForDelivery then d else
      d.(order := d.order.(status := DeliveryToCustomer),
         delivery := Some(DriverTask(InProgress, Some(driver), Some(at), None)),
         history := d.history + [HistoryRow(Some(ReadyForDelivery), DeliveryToCustomer, ByEmployee(driver))])
  {}

  lemma PickupCompletedTransition(d: Dossier, driver: EmployeeId, at: Time)
    ensures Apply(d, Event.CompleteTask(Pickup, driver, at)) ==
      if !(d.order.status == LaundryToOutlet && d.pickup.Some?
           && d.pickup.value.status == InProgress && d.pickup.value.driver == Some(driver)) then d else
      d.(order := d.order.(status := LaundryArrivedOutlet),
         pickup := Some(DriverTask(Done, Some(driver), d.pickup.value.takenAt, Some(at))),
         history := d.history + [HistoryRow(Some(LaundryToOutlet), LaundryArrivedOutlet, ByEmployee(driver))])
  {}

  /** Delivery sets the deadline for the customer's confirmation: 48 hours, in seconds. */
  lemma DeliveryCompletedTransition(d: Dossier, driver: EmployeeId, at: Time)
    ensures Apply(d, Event.CompleteTask(Delivery, driver, at)) ==
      if !(d.order.status == DeliveryToCustomer && d.delivery.Some?
           && d.delivery.value.status == InProgress && d.delivery.value.driver == Some(driver)) then d else
      d.(order := d.order.(status := ReceivedByCustomer, autoConfirmAt := Some(at + 172_800)),
         delivery := Some(DriverTask(Done, Some(driver), d.delivery.value.takenAt, Some(at))),
         history := d.history + [HistoryRow(Some(DeliveryToCustomer), ReceivedByCustomer, ByEmployee(driver))])
  {}

  lemma ProcessTransition(d: Dossier, admin: EmployeeId, request: seq<Line>, breakdown: seq<Count>)
    ensures var d' := Apply(d, Process(admin, request, breakdown));
      if d.order.status == LaundryArrivedOutlet && exists k :: 0 <= k < |request| && request[k].quantity > 0.0 then
        && d' == d.(
             order := d.order.(status := Washing, total := d'.order.total), items := d'.items, breakdown := breakdown,
             history := d.history + [HistoryRow(Some(LaundryArrivedOutlet), Washing, ByEmployee(admin))])
        && |d'.items| == |request|
        && (forall k :: 0 <= k < |request| ==>
              && d'.items[k].item == request[k].item && d'.items[k].price == request[k].price
              && -0.5 <= d'.items[k].quantity as real - request[k].quantity * 100.0 <= 0.5)
        && -0.5 <= d'.order.total as real - (Charge(request) + d.order.fee as real) <= 0.5
      else d' == d
  {
    hide Charge, Round;
    if Admissible(request) {
      RoundIsNearest(Charge(request) + d.order.fee as real);
      forall k | 0 <= k < |request| ensures -0.5 <= StoredQuantity(request[k].quantity) as real - request[k].quantity * 100.0 <= 0.5 {
        RoundIsNearest(request[k].quantity * 100.0);
      }
    }
  }

  lemma StationTransition(d: Dossier, worker: EmployeeId)
    ensures Apply(d, CompleteStation(Washing, worker)) == if d.order.status != Washing then d else
      d.(order := d.order.(status := Ironing),
         history := d.history + [HistoryRow(Some(Washing), Ironing, ByEmployee(worker))])
    ensures Apply(d, CompleteStation(Ironing, worker)) == if d.order.status != Ironing then d else
      d.(order := d.order.(status := Packing),
         history := d.history + [HistoryRow(Some(Ironing), Packing, ByEmployee(worker))])
    ensures Apply(d, CompleteStation(Packing, worker)) ==
      if d.order.status != Packing then d
      else if d.payment.Some? && d.payment.value.status == Paid then
        d.(order := d.order.(status := ReadyForDelivery), delivery := Some(DriverTask(Available, None, None, None)),
           history := d.history + [HistoryRow(Some(Packing), ReadyForDelivery, ByEmployee(worker))])
      else
        d.(order := d.order.(status := WaitingPayment),
           history := d.history + [HistoryRow(Some(Packing), WaitingPayment, ByEmployee(worker))])
  {}

  lemma InsertBypassTransition(d: Dossier, s: Station, worker: EmployeeId, count: nat)
    ensures Apply(d, InsertBypass(s, worker, count)) ==
      d.(bypasses := d.bypasses + [Bypass(s, worker, count + 1, Pending, None)])
  {}

  /** A first attempt may be rejected; otherwise the decision is an approval, which does to the order
      exactly what completing the station in the admin's name would, and fails with it. */
  lemma ReviewTransition(d: Dossier, index: nat, admin: EmployeeId, approve: bool)
    ensures var d' := Apply(d, Review(index, admin, approve));
      if index >= |d.bypasses| || d.bypasses[index].status != Pending then d' == d
      else
        var b := d.bypasses[index];
        if !approve && b.attempt < 2 then
          d' == d.(bypasses := d.bypasses[index := Bypass(b.station, b.requestedBy, b.attempt, Rejected, Some(admin))])
        else if d.order.status != b.station then d' == d
        else d' == Apply(d, CompleteStation(b.station, admin)).(
          bypasses := d.bypasses[index := Bypass(b.station, b.requestedBy, b.attempt, Approved, Some(admin))])
  {}

  /** A checkout resets the payment; only paid_at survives it. */
  lemma CheckoutTransition(d: Dossier, amount: Cents, gateway: GatewayId)
    ensures Apply(d, Checkout(amount, gateway)) == d.(payment := Some(Payment(
      amount, PaymentPending, gateway, if d.payment.Some? then d.payment.value.paidAt else None)))
  {}

  lemma GatewayTransition(d: Dossier, report: PaymentStatus, at: Time)
    ensures d.payment.None? ==> Apply(d, Gateway(report, at)) == d
    ensures d.payment.Some? && report != Paid ==>
      Apply(d, Gateway(report, at)) == d.(payment := Some(Payment(d.payment.value.amount, report, d.payment.value.gateway, None)))
    ensures d.payment.Some? && report == Paid ==>
      var paid := d.(payment := Some(Payment(d.payment.value.amount, Paid, d.payment.value.gateway, Some(at))));
      Apply(d, Gateway(report, at)) == if d.order.status != WaitingPayment then paid else
        paid.(order := d.order.(status := ReadyForDelivery), delivery := Some(DriverTask(Available, None, None, None)),
              history := d.history + [HistoryRow(Some(WaitingPayment), ReadyForDelivery, BySystem)])
  {}

  lemma ClosingTransition(d: Dossier, customer: CustomerId)
    ensures Apply(d, Confirm(customer)) == if !(d.order.status == ReceivedByCustomer && d.order.customer == customer) then d else
      d.(order := d.order.(status := Completed),
         history := d.history + [HistoryRow(Some(ReceivedByCustomer), Completed, ByCustomer(customer))])
    ensures Apply(d, Event.AutoComplete) == if d.order.status != ReceivedByCustomer then d else
      d.(order := d.order.(status := Completed),
         history := d.history + [HistoryRow(Some(ReceivedByCustomer), Completed, BySystem)])
  {}
}
