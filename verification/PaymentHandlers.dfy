/** The payment handlers: resolving gateway notifications, applying them, and creating gateway
    transactions from possibly stale reads. */
module PaymentHandlers {
  import opened Schema
  import opened Pipeline
  import opened Tables
  import opened OrderHandlers

  datatype TransactionStatus =
    | Capture | Settlement | Expire | Deny | Cancel | Failure | StillPending | Unrecognised

  datatype FraudStatus = FraudAccept | FraudOther

  function ResolvePaymentStatus(current: PaymentStatus, t: TransactionStatus, f: FraudStatus): PaymentStatus {
    match t
    case Capture => if f == FraudAccept then Paid else PaymentPending
    case Settlement => Paid
    case Expire => Expired
    case Deny => PaymentStatus.Failed
    case Cancel => PaymentStatus.Failed
    case Failure => PaymentStatus.Failed
    case StillPending => PaymentPending
    case Unrecognised => current
  }

  /** The gateway has confirmed the money: resolves to paid whatever is recorded. */
  predicate ConfirmsPayment(t: TransactionStatus, f: FraudStatus) {
    t == Settlement || (t == Capture && f == FraudAccept)
  }

  /** Exactly what leads to each status: only a confirmation makes a payment paid that was not. */
  lemma ResolvesExactly(current: PaymentStatus, t: TransactionStatus, f: FraudStatus)
    ensures var r := ResolvePaymentStatus(current, t, f);
      && (r == Paid <==> t == Settlement || (t == Capture && f == FraudAccept) || (t == Unrecognised && current == Paid))
      && (r == PaymentPending <==>
            t == StillPending || (t == Capture && f != FraudAccept) || (t == Unrecognised && current == PaymentPending))
      && (r == Expired <==> t == Expire || (t == Unrecognised && current == Expired))
      && (r == PaymentStatus.Failed <==> t in {Deny, Cancel, Failure} || (t == Unrecognised && current == PaymentStatus.Failed))
      && (r == Refunded <==> t == Unrecognised && current == Refunded)
    ensures ConfirmsPayment(t, f) <==> forall c :: ResolvePaymentStatus(c, t, f) == Paid
  {
    if !ConfirmsPayment(t, f) { assert ResolvePaymentStatus(PaymentPending, t, f) != Paid; }
  }

  datatype Notification = Notification(
    signed: bool, gateway: GatewayId, gross: Cents, transaction: TransactionStatus, fraud: FraudStatus)

  /** math.Round of an amount to whole rupiah: half away from zero. */
  function Rupiah(amount: Cents): int {
    if amount >= 0 then (amount + 50) / 100 else -((50 - amount) / 100)
  }

  /** The nearest whole rupiah, and at a half the one farther from zero. */
  lemma RupiahIsNearest(amount: Cents)
    ensures -50 <= 100 * Rupiah(amount) - amount <= 50
    ensures Rupiah(-amount) == -Rupiah(amount)
    ensures amount % 100 == 50 && amount > 0 ==> 100 * Rupiah(amount) == amount + 50
  {}

  datatype Decision =
    | Proceed(report: PaymentStatus)
    | AlreadyProcessed
    | InvalidSignature
    | PaymentNotFound
    | AmountMismatch

  /** What HandleWebhook decides from the payment row and the order status it has read. */
  function Decide(n: Notification, seen: Option<Payment>, seenStatus: Status): Decision {
    if !n.signed then InvalidSignature
    else if seen.None? || seen.value.gateway != n.gateway then PaymentNotFound
    else if Rupiah(n.gross) != Rupiah(seen.value.amount) then AmountMismatch
    else
      var report := ResolvePaymentStatus(seen.value.status, n.transaction, n.fraud);
      if report == seen.value.status && seenStatus != WaitingPayment then AlreadyProcessed
      else Proceed(report)
  }

  /** One uninterrupted delivery of a notification. */
  function Deliver(d: Dossier, n: Notification, at: Time): Dossier {
    match Decide(n, d.payment, d.order.status)
    case Proceed(report) => Apply(d, Gateway(report, at))
    case _ => d
  }

  /** Redelivering a notification, immediately and whatever its kind, changes nothing. */
  lemma RedeliveryChangesNothing(d: Dossier, n: Notification, at: Time, later: Time)
    requires Sound(d)
    ensures Deliver(Deliver(d, n, at), n, later) == Deliver(d, n, at)
  {
    var once := Deliver(d, n, at);
    if Decide(n, d.payment, d.order.status).Proceed? {
      GatewayIsSound(d, Decide(n, d.payment, d.order.status).report, at);
    }
  }

  /** A delivery that changes anything comes from a signed notification for this very gateway
      transaction, over an amount that differs by less than a rupiah; one that makes the payment
      paid, or moves the order, moreover reports a settlement or an accepted capture. */
  lemma OnlyMatchingNotificationsAct(d: Dossier, n: Notification, at: Time)
    requires Sound(d)
    ensures var d' := Deliver(d, n, at);
      && (d' != d ==>
            && n.signed && d.payment.Some? && d.payment.value.gateway == n.gateway
            && Rupiah(n.gross) == Rupiah(d.payment.value.amount) && -100 < n.gross - d.payment.value.amount < 100)
      && ((IsPaid(d') && !IsPaid(d)) || d'.order != d.order ==>
            n.transaction == Settlement || (n.transaction == Capture && n.fraud == FraudAccept))
  {
    RupiahIsNearest(n.gross);
    if d.payment.Some? {
      RupiahIsNearest(d.payment.value.amount);
      ResolvesExactly(d.payment.value.status, n.transaction, n.fraud);
    }
  }

  /** A matching confirmation leaves no order waiting for its payment. */
  lemma ConfirmationSettles(d: Dossier, n: Notification, at: Time)
    requires Sound(d) && d.payment.Some? && n.signed && n.gateway == d.payment.value.gateway
    requires Rupiah(n.gross) == Rupiah(d.payment.value.amount) && ConfirmsPayment(n.transaction, n.fraud)
    ensures var d' := Deliver(d, n, at);
      && IsPaid(d') && d'.order.status != WaitingPayment
      && (d.order.status == WaitingPayment ==> d' == Release(d.(payment := d'.payment), BySystem))
      && (d.order.status != WaitingPayment ==> d' == d.(payment := d'.payment))
  {}

  // ------------------------------------------------------------------------------------------

  lemma GatewayCommits(s: Snapshot, s': Snapshot, o: OrderId, report: PaymentStatus, at: Time)
    requires o in s.orders && o in s.payments
    requires s' == GatewayTables(s, o, report, at)
    ensures Commits(s, s', o, Gateway(report, at))
  {
    GatewayTablesApply(s, o, report, at);
    CommitsBy(s, s', o, Gateway(report, at));
  }

  lemma GatewayTablesApply(s: Snapshot, o: OrderId, report: PaymentStatus, at: Time)
    requires o in s.orders && o in s.payments
    ensures var s' := GatewayTables(s, o, report, at);
      OnlyTouches(s, s', o) && s'.DossierOf(o) == GatewayEffect(s.DossierOf(o), report, at)
  {
    hide GatewayTables, GatewayEffect;
    GatewayTouchesOne(s, o, report, at);
    GatewayDossier(s, o, report, at);
  }

  lemma GatewayTouchesOne(s: Snapshot, o: OrderId, report: PaymentStatus, at: Time)
    requires o in s.orders && o in s.payments
    ensures OnlyTouches(s, GatewayTables(s, o, report, at), o)
  {}

  lemma GatewayDossier(s: Snapshot, o: OrderId, report: PaymentStatus, at: Time)
    requires o in s.orders && o in s.payments
    ensures o in GatewayTables(s, o, report, at).orders
    ensures GatewayTables(s, o, report, at).DossierOf(o) == GatewayEffect(s.DossierOf(o), report, at)
  {
    var d, d' := s.DossierOf(o), GatewayTables(s, o, report, at).DossierOf(o);
    if report == Paid && s.orders[o].status == WaitingPayment {
      assert d'.order == d.order.(status := ReadyForDelivery) && d'.delivery == Some(NEW_TASK) && d'.pickup == d.pickup;
      assert d'.history == d.history + [HistoryRow(Some(WaitingPayment), ReadyForDelivery, BySystem)];
    } else {
      assert d' == d.(payment := d'.payment);
    }
  }

  function GatewayTables(s: Snapshot, o: OrderId, report: PaymentStatus, at: Time): Snapshot
    requires o in s.orders && o in s.payments
  {
    var noted := s.(payments := s.payments[o := s.payments[o].(
      status := report, paidAt := if report == Paid then Some(at) else None)]);
    if report == Paid && s.orders[o].status == WaitingPayment then
      noted.(orders := s.orders[o := s.orders[o].(status := ReadyForDelivery)],
             tasks := s.tasks[TaskKey(o, Delivery) := NEW_TASK],
             histories := s.histories[o := RowsOf(s.histories, o) + [HistoryRow(Some(WaitingPayment), ReadyForDelivery, BySystem)]])
    else noted
  }

  /** applyPaymentStatus and its transaction, shared by the webhook and SyncPaymentStatus. The row
      is found by id; `report` was computed from an earlier read. */
  method ApplyPaymentStatus(db: Database, o: OrderId, report: PaymentStatus, at: Time) returns (r: Reply)
    requires db.Contents().ForeignKeys() && o in db.payments
    modifies db
    ensures db.Contents().ForeignKeys()
    ensures r in {Accepted, InternalError}
    ensures r != Accepted ==> db.Contents() == old(db.Contents())
    ensures db.orders == if r == Accepted && report == Paid && old(db.orders)[o].status == WaitingPayment
      then old(db.orders)[o := old(db.orders)[o].(status := ReadyForDelivery)] else old(db.orders)
    ensures r == Accepted ==> db.payments == old(db.payments)[o := old(db.payments)[o].(
      status := report, paidAt := if report == Paid then Some(at) else None)]
    ensures old(SoundAt(db.Contents(), o)) ==>
      r == Accepted && Commits(old(db.Contents()), db.Contents(), o, Gateway(report, at))
  {
    hide Snapshot.World, Snapshot.DossierOf, Commits, SoundAt, Sound, Apply, OnlyTouches, GatewayEffect;
    var saved := db.Contents();
    ghost var sound := SoundAt(saved, o);
    var matched := db.UpdatePaymentStatus(o, report, if report == Paid then Some(at) else None);
    if report != Paid {
      if sound { GatewayCommits(saved, db.Contents(), o, report, at); }
      return Accepted;
    }
    matched := db.UpdateOrderStatusIfCurrent(o, ReadyForDelivery, WaitingPayment);
    if !matched {
      if sound { GatewayCommits(saved, db.Contents(), o, report, at); }
      return Accepted;
    }
    if sound { NoDeliveryTaskYet(saved, o); }
    var inserted := db.CreateDriverTask(o, Delivery);
    if !inserted {
      db.Rollback(saved);
      return InternalError;
    }
    db.CreateOrderStatusHistory(o, Some(WaitingPayment), ReadyForDelivery, BySystem);
    if sound { GatewayCommits(saved, db.Contents(), o, report, at); }
    r := Accepted;
  }

  /** Some payment is paid that was not before. */
  predicate NewlyPaid(payments: map<OrderId, Payment>, payments': map<OrderId, Payment>) {
    exists o :: o in payments' && payments'[o].status == Paid && !(o in payments && payments[o].status == Paid)
  }

  method GetPaymentByGatewayTransactionID(db: Database, g: GatewayId) returns (p: Option<Payment>)
    ensures p == if g.order in db.payments && db.payments[g.order].gateway == g then Some(db.payments[g.order]) else None
  {
    p := if g.order in db.payments && db.payments[g.order].gateway == g then Some(db.payments[g.order]) else None;
  }

  /** seen is the payment row found by the notification's transaction id, seenStatus the order's
      status, both read before the transaction: by now the payment may have been paid or replaced
      by another checkout, and the order may have moved. r is the transaction's reply. */
  method HandleWebhook(db: Database, n: Notification, seen: Option<Payment>, seenStatus: Status, at: Time)
    returns (r: Reply, decision: Decision)
    requires db.Contents().ForeignKeys()
    requires seen.Some? ==> n.gateway.order in db.payments
    modifies db
    ensures db.Contents().ForeignKeys()
    ensures decision == Decide(n, seen, seenStatus)
    ensures decision == InvalidSignature <==> !n.signed
    ensures decision == PaymentNotFound <==> n.signed && (seen.None? || seen.value.gateway != n.gateway)
    ensures decision == AmountMismatch <==>
      n.signed && seen.Some? && seen.value.gateway == n.gateway && Rupiah(n.gross) != Rupiah(seen.value.amount)
    ensures decision == AlreadyProcessed <==>
      && n.signed && seen.Some? && seen.value.gateway == n.gateway && Rupiah(n.gross) == Rupiah(seen.value.amount)
      && seen.value.status == ResolvePaymentStatus(seen.value.status, n.transaction, n.fraud) && seenStatus != WaitingPayment
    ensures decision.Proceed? ==> decision.report == ResolvePaymentStatus(seen.value.status, n.transaction, n.fraud)
    ensures db.Contents() != old(db.Contents()) ==>
      && n.signed && seen.Some? && seen.value.gateway == n.gateway && Rupiah(n.gross) == Rupiah(seen.value.amount)
    ensures db.orders != old(db.orders) || NewlyPaid(old(db.payments), db.payments) ==>
      || n.transaction == Settlement || (n.transaction == Capture && n.fraud == FraudAccept)
      || (n.transaction == Unrecognised && seen.Some? && seen.value.status == Paid)
    ensures r in {Accepted, InternalError}
    ensures !decision.Proceed? ==> r == Accepted
    ensures !decision.Proceed? || r != Accepted ==> db.Contents() == old(db.Contents())
    ensures decision.Proceed? && old(SoundAt(db.Contents(), n.gateway.order)) ==>
      r == Accepted && Commits(old(db.Contents()), db.Contents(), n.gateway.order, Gateway(decision.report, at))
  {
    hide Snapshot.World, Commits, SoundAt;
    r := Accepted;
    if !n.signed { return r, InvalidSignature; }
    if seen.None? || seen.value.gateway != n.gateway { return r, PaymentNotFound; }
    if Rupiah(n.gross) != Rupiah(seen.value.amount) { return r, AmountMismatch; }
    var report := ResolvePaymentStatus(seen.value.status, n.transaction, n.fraud);
    ResolvesExactly(seen.value.status, n.transaction, n.fraud);
    if report == seen.value.status {
      if seenStatus != WaitingPayment { return r, AlreadyProcessed; }
    }
    decision := Proceed(report);
    r := ApplyPaymentStatus(db, n.gateway.order, report, at);
  }

  /** Both reads and the transaction, uninterrupted: one delivery. */
  method HandleWebhookAlone(db: Database, n: Notification, at: Time) returns (r: Reply, decision: Decision)
    requires db.Contents().ForeignKeys() && SoundAt(db.Contents(), n.gateway.order)
    modifies db
    ensures db.Contents().ForeignKeys()
    ensures var o := n.gateway.order;
      && db.Contents().World() == old(db.Contents().World())[o := Deliver(old(db.Contents().DossierOf(o)), n, at)]
      && r == Accepted
      && decision == Decide(n, RowOf(old(db.payments), o), old(db.orders)[o].status)
    ensures !decision.Proceed? ==> db.Contents() == old(db.Contents())
  {
    hide Snapshot.World, Commits, SoundAt, Deliver;
    var o := n.gateway.order;
    ghost var before := db.Contents();
    InOrders(before, o);
    var seen := GetPaymentByGatewayTransactionID(db, n.gateway);
    r, decision := HandleWebhook(db, n, seen, db.orders[o].status, at);
    DeliveryCommits(before, db.Contents(), o, n, at);
  }

  lemma DeliveryCommits(s: Snapshot, s': Snapshot, o: OrderId, n: Notification, at: Time)
    requires SoundAt(s, o) && o == n.gateway.order
    requires match Decide(n, RowOf(s.payments, o), s.orders[o].status)
      case Proceed(report) => Commits(s, s', o, Gateway(report, at))
      case _ => s' == s
    ensures o in s.orders && s'.World() == s.World()[o := Deliver(s.DossierOf(o), n, at)]
  {
    hide Sound, Apply;
  }

  /** SyncPaymentStatus asks the gateway only about a payment it has not read as paid. */
  predicate MaySync(seen: Payment) {
    seen.status != Paid
  }

  /** SyncPaymentStatus after the gateway answered for the payment row it had read. */
  method SyncPaymentStatus(db: Database, o: OrderId, seen: Payment, t: TransactionStatus, f: FraudStatus, at: Time) returns (r: Reply)
    requires db.Contents().ForeignKeys() && o in db.payments
    modifies db
    ensures db.Contents().ForeignKeys()
    ensures !MaySync(seen) ==> r == Accepted && db.Contents() == old(db.Contents())
    ensures MaySync(seen) && old(SoundAt(db.Contents(), o)) ==>
      r == Accepted && Commits(old(db.Contents()), db.Contents(), o, Gateway(ResolvePaymentStatus(seen.status, t, f), at))
    ensures seen.status == Paid ==> db.Contents() == old(db.Contents())
    ensures db.orders != old(db.orders) || NewlyPaid(old(db.payments), db.payments) ==>
      t == Settlement || (t == Capture && f == FraudAccept)
  {
    hide Commits, SoundAt;
    ResolvesExactly(seen.status, t, f);
    if seen.status == Paid { return Accepted; }
    r := ApplyPaymentStatus(db, o, ResolvePaymentStatus(seen.status, t, f), at);
  }

  /** What CreateTransaction asks of the rows it has read. */
  predicate MayCheckOut(seen: Option<Order>, customer: CustomerId, seenPayment: Option<Payment>) {
    && seen.Some? && seen.value.customer == customer && seen.value.total > 0
    && !(seenPayment.Some? && seenPayment.value.status == Paid)
  }

  /** seen and seenPayment were read before the gateway was called: by now the order may have
      moved and the payment may have been paid, and the upsert overwrites it all the same. */
  method CreateTransaction(db: Database, o: OrderId, customer: CustomerId, seen: Option<Order>, seenPayment: Option<Payment>,
                           stamp: nat, gatewayAnswers: bool) returns (r: Reply)
    requires db.Contents().ForeignKeys()
    requires seen.Some? ==> o in db.orders
    modifies db
    ensures db.Contents().ForeignKeys()
    ensures r in {Accepted, OrderNotFound, InvalidRequest, OrderAlreadyProcessed, InternalError}
    ensures r != Accepted ==> db.Contents() == old(db.Contents())
    ensures r == OrderNotFound <==> seen.None? || seen.value.customer != customer
    ensures r == InvalidRequest <==> seen.Some? && seen.value.customer == customer && seen.value.total <= 0
    ensures r == OrderAlreadyProcessed <==>
      && seen.Some? && seen.value.customer == customer && seen.value.total > 0
      && seenPayment.Some? && seenPayment.value.status == Paid
    ensures r == InternalError <==> MayCheckOut(seen, customer, seenPayment) && !gatewayAnswers
    ensures r == Accepted <==> MayCheckOut(seen, customer, seenPayment) && gatewayAnswers
    ensures r == Accepted ==> Commits(old(db.Contents()), db.Contents(), o, Checkout(seen.value.total, GatewayId(o, stamp)))
  {
    if seen.None? || seen.value.customer != customer { return OrderNotFound; }
    if seen.value.total <= 0 { return InvalidRequest; }
    if seenPayment.Some? && seenPayment.value.status == Paid { return OrderAlreadyProcessed; }
    if !gatewayAnswers { return InternalError; }
    ghost var before := db.Contents();
    db.UpsertPaymentForOrder(o, seen.value.total, GatewayId(o, stamp));
    CheckoutCommits(before, db.Contents(), o, seen.value.total, GatewayId(o, stamp));
    hide Snapshot.World, Commits;
    r := Accepted;
  }

  lemma CheckoutCommits(s: Snapshot, s': Snapshot, o: OrderId, amount: Cents, g: GatewayId)
    requires o in s.orders
    requires s' == s.(payments := s.payments[o := Payment(amount, PaymentPending, g,
      if o in s.payments then s.payments[o].paidAt else None)])
    ensures Commits(s, s', o, Checkout(amount, g))
  {
    CommitsBy(s, s', o, Checkout(amount, g));
  }
}
