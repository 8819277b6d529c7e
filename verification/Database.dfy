/** The pipeline's tables and the SQL statements the handlers run on them. A driver task is keyed
    by (order, type), its unique index, and a payment by its order; history, items and bypass
    requests are kept per order in insertion order. */
module Tables {
  import opened Schema
  import opened Pipeline
  import opened Bypasses

  datatype TaskKey = TaskKey(order: OrderId, kind: TaskKind)

  function RowsOf<T>(table: map<OrderId, seq<T>>, o: OrderId): seq<T> {
    if o in table then table[o] else []
  }

  function RowOf<K, T>(table: map<K, T>, k: K): Option<T> {
    if k in table then Some(table[k]) else None
  }

  /** What becomes of a statement: a refused one has failed, and its transaction with it. */
  datatype Outcome = Changed | NoRows | Refused

  /** quantity NUMERIC(6,2) and price_at_order NUMERIC(10,2). */
  predicate ItemFits(item: OrderItem) {
    -1_000_000 < item.quantity < 1_000_000 && -10_000_000_000 < item.price < 10_000_000_000
  }

  /** total_price NUMERIC(12,2). */
  predicate TotalFits(total: Cents) {
    -1_000_000_000_000 < total < 1_000_000_000_000
  }

  predicate HasType(rows: seq<Count>, id: ItemId) {
    exists k :: 0 <= k < |rows| && rows[k].id == id
  }

  /** The contents of all tables: what BEGIN sees and ROLLBACK restores. */
  datatype Snapshot = Snapshot(
    orders: map<OrderId, Order>,
    tasks: map<TaskKey, DriverTask>,
    payments: map<OrderId, Payment>,
    histories: map<OrderId, seq<HistoryRow>>,
    items: map<OrderId, seq<OrderItem>>,
    breakdowns: map<OrderId, seq<Count>>,
    bypasses: map<OrderId, seq<Bypass>>)
  {
    function DossierOf(o: OrderId): Dossier
      requires o in orders
    {
      Dossier(orders[o], RowOf(tasks, TaskKey(o, Pickup)), RowOf(tasks, TaskKey(o, Delivery)), RowOf(payments, o),
              RowsOf(histories, o), RowsOf(items, o), RowsOf(breakdowns, o), RowsOf(bypasses, o))
    }

    function World(): (w: World)
      ensures w.Keys == orders.Keys
      ensures forall o :: o in orders ==> w[o] == DossierOf(o)
    {
      map o | o in orders :: DossierOf(o)
    }

    /** The FOREIGN KEY (order_id) constraints. */
    predicate ForeignKeys() {
      && (forall k :: k in tasks ==> k.order in orders)
      && payments.Keys <= orders.Keys
      && histories.Keys <= orders.Keys
      && items.Keys <= orders.Keys
      && breakdowns.Keys <= orders.Keys
      && bypasses.Keys <= orders.Keys
    }
  }

  /** Tables that differ only in rows of order o differ only in o's dossier. */
  lemma OnlyOrderChanged(s: Snapshot, s': Snapshot, o: OrderId)
    requires o in s.orders && s'.orders.Keys == s.orders.Keys
    requires forall p :: p in s.orders && p != o ==> s'.DossierOf(p) == s.DossierOf(p)
    ensures s'.World() == s.World()[o := s'.DossierOf(o)]
  {}

  class Database {
    var orders: map<OrderId, Order>
    var tasks: map<TaskKey, DriverTask>
    var payments: map<OrderId, Payment>
    var histories: map<OrderId, seq<HistoryRow>>
    var items: map<OrderId, seq<OrderItem>>
    var breakdowns: map<OrderId, seq<Count>>
    var bypasses: map<OrderId, seq<Bypass>>

    function Contents(): Snapshot
      reads this
    {
      Snapshot(orders, tasks, payments, histories, items, breakdowns, bypasses)
    }

    constructor ()
      ensures Contents() == Snapshot(map[], map[], map[], map[], map[], map[], map[])
      ensures Contents().ForeignKeys() && Contents().World() == map[]
    {
      orders, tasks, payments := map[], map[], map[];
      histories, items, breakdowns, bypasses := map[], map[], map[], map[];
    }

    method Rollback(s: Snapshot)
      modifies this
      ensures Contents() == s
    {
      orders, tasks, payments := s.orders, s.tasks, s.payments;
      histories, items, breakdowns, bypasses := s.histories, s.items, s.breakdowns, s.bypasses;
    }

    // orders.sql

    method CreateOrder(o: OrderId, row: Order)
      requires o !in orders
      modifies this`orders
      ensures orders == old(orders)[o := row]
    {
      orders := orders[o := row];
    }

    method CreateOrderStatusHistory(o: OrderId, before: Option<Status>, after: Status, actor: Actor)
      modifies this`histories
      ensures histories == old(histories)[o := RowsOf(old(histories), o) + [HistoryRow(before, after, actor)]]
    {
      histories := histories[o := RowsOf(histories, o) + [HistoryRow(before, after, actor)]];
    }

    method UpdateOrderStatusIfCurrent(o: OrderId, next: Status, expected: Status) returns (matched: bool)
      modifies this`orders
      ensures matched <==> o in old(orders) && old(orders)[o].status == expected
      ensures orders == if matched then old(orders)[o := old(orders)[o].(status := next)] else old(orders)
    {
      matched := o in orders && orders[o].status == expected;
      if matched { orders := orders[o := orders[o].(status := next)]; }
    }

    /** A matching row is refused when the total overflows its NUMERIC(12,2). */
    method ProcessOrderIfCurrent(o: OrderId, total: Cents) returns (r: Outcome)
      modifies this`orders
      ensures r == NoRows <==> !(o in old(orders) && old(orders)[o].status == LaundryArrivedOutlet)
      ensures r == Refused <==> o in old(orders) && old(orders)[o].status == LaundryArrivedOutlet && !TotalFits(total)
      ensures orders == if r == Changed then old(orders)[o := old(orders)[o].(status := Washing, total := total)] else old(orders)
    {
      if o !in orders || orders[o].status != LaundryArrivedOutlet { return NoRows; }
      if !TotalFits(total) { return Refused; }
      orders := orders[o := orders[o].(status := Washing, total := total)];
      r := Changed;
    }

    /** No status guard: whatever the status is, it is overwritten. */
    method ClaimOrderForTask(o: OrderId, next: Status, schedule: Option<Time>) returns (matched: bool)
      modifies this`orders
      ensures matched <==> o in old(orders)
      ensures orders == if !matched then old(orders) else
        old(orders)[o := old(orders)[o].(status := next, pickupSchedule := Coalesce(schedule, old(orders)[o].pickupSchedule))]
    {
      matched := o in orders;
      if matched {
        orders := orders[o := orders[o].(status := next, pickupSchedule := Coalesce(schedule, orders[o].pickupSchedule))];
      }
    }

    method CompleteOrderForTaskIfCurrent(o: OrderId, next: Status, deadline: Option<Time>, expected: Status) returns (matched: bool)
      modifies this`orders
      ensures matched <==> o in old(orders) && old(orders)[o].status == expected
      ensures orders == if !matched then old(orders) else
        old(orders)[o := old(orders)[o].(status := next, autoConfirmAt := Coalesce(deadline, old(orders)[o].autoConfirmAt))]
    {
      matched := o in orders && orders[o].status == expected;
      if matched {
        orders := orders[o := orders[o].(status := next, autoConfirmAt := Coalesce(deadline, orders[o].autoConfirmAt))];
      }
    }

    method ListOrdersReadyForAutoComplete(now: Time) returns (candidates: seq<OrderId>)
      ensures forall i, j :: 0 <= i < j < |candidates| ==> candidates[i] != candidates[j]
      ensures forall o :: o in candidates <==>
        o in orders && orders[o].status == ReceivedByCustomer && orders[o].autoConfirmAt.Some? && orders[o].autoConfirmAt.value <= now
    {
      var todo := set o | o in orders && orders[o].status == ReceivedByCustomer
                          && orders[o].autoConfirmAt.Some? && orders[o].autoConfirmAt.value <= now;
      ghost var all := todo;
      candidates := [];
      while todo != {}
        invariant todo <= all
        invariant forall o :: o in candidates <==> o in all && o !in todo
        invariant forall i, j :: 0 <= i < j < |candidates| ==> candidates[i] != candidates[j]
        decreases |todo|
      {
        var o :| o in todo;
        candidates, todo := candidates + [o], todo - {o};
      }
    }

    // driver_tasks.sql

    /** The unique index on (order_id, task_type) refuses a second row. */
    method CreateDriverTask(o: OrderId, kind: TaskKind) returns (inserted: bool)
      modifies this`tasks
      ensures inserted <==> TaskKey(o, kind) !in old(tasks)
      ensures tasks == if inserted then old(tasks)[TaskKey(o, kind) := NEW_TASK] else old(tasks)
    {
      inserted := TaskKey(o, kind) !in tasks;
      if inserted { tasks := tasks[TaskKey(o, kind) := NEW_TASK]; }
    }

    method ClaimDriverTaskIfAvailable(k: TaskKey, driver: EmployeeId, at: Time) returns (matched: bool)
      modifies this`tasks
      ensures matched <==> k in old(tasks) && old(tasks)[k].status == Available && old(tasks)[k].driver == None
      ensures tasks == if !matched then old(tasks) else
        old(tasks)[k := old(tasks)[k].(driver := Some(driver), status := InProgress, takenAt := Some(at))]
    {
      matched := k in tasks && tasks[k].status == Available && tasks[k].driver == None;
      if matched { tasks := tasks[k := tasks[k].(driver := Some(driver), status := InProgress, takenAt := Some(at))]; }
    }

    method CompleteDriverTaskIfInProgress(k: TaskKey, driver: EmployeeId, at: Time) returns (matched: bool)
      modifies this`tasks
      ensures matched <==> k in old(tasks) && old(tasks)[k].status == InProgress && old(tasks)[k].driver == Some(driver)
      ensures tasks == if !matched then old(tasks) else
        old(tasks)[k := old(tasks)[k].(status := Done, completedAt := Some(at))]
    {
      matched := k in tasks && tasks[k].status == InProgress && tasks[k].driver == Some(driver);
      if matched { tasks := tasks[k := tasks[k].(status := Done, completedAt := Some(at))]; }
    }

    // payments.sql

    /** ON CONFLICT (order_id) DO UPDATE: everything but paid_at is overwritten. */
    method UpsertPaymentForOrder(o: OrderId, amount: Cents, gateway: GatewayId)
      requires o in orders
      modifies this`payments
      ensures payments == old(payments)[o := Payment(amount, PaymentPending, gateway,
        if o in old(payments) then old(payments)[o].paidAt else None)]
    {
      payments := payments[o := Payment(amount, PaymentPending, gateway, if o in payments then payments[o].paidAt else None)];
    }

    method UpdatePaymentStatus(o: OrderId, status: PaymentStatus, paidAt: Option<Time>) returns (matched: bool)
      modifies this`payments
      ensures matched <==> o in old(payments)
      ensures payments == if matched then old(payments)[o := old(payments)[o].(status := status, paidAt := paidAt)] else old(payments)
    {
      matched := o in payments;
      if matched { payments := payments[o := payments[o].(status := status, paidAt := paidAt)]; }
    }

    // order_items.sql

    method CreateOrderItem(o: OrderId, item: OrderItem) returns (inserted: bool)
      modifies this`items
      ensures inserted <==> ItemFits(item)
      ensures items == if inserted then old(items)[o := RowsOf(old(items), o) + [item]] else old(items)
    {
      inserted := ItemFits(item);
      if inserted { items := items[o := RowsOf(items, o) + [item]]; }
    }

    // order_item_breakdowns.sql

    /** The unique index on (order_id, clothing_type_id) refuses a second row. */
    method CreateOrderItemBreakdown(o: OrderId, row: Count) returns (inserted: bool)
      modifies this`breakdowns
      ensures inserted <==> !HasType(RowsOf(old(breakdowns), o), row.id)
      ensures breakdowns == if inserted then old(breakdowns)[o := RowsOf(old(breakdowns), o) + [row]] else old(breakdowns)
    {
      inserted := !HasType(RowsOf(breakdowns, o), row.id);
      if inserted { breakdowns := breakdowns[o := RowsOf(breakdowns, o) + [row]]; }
    }

    // bypass_requests.sql

    method CreateBypassRequest(o: OrderId, row: Bypass)
      modifies this`bypasses
      ensures bypasses == old(bypasses)[o := RowsOf(old(bypasses), o) + [row]]
    {
      bypasses := bypasses[o := RowsOf(bypasses, o) + [row]];
    }

    /** The row's id is its order and its position among that order's requests. */
    method ReviewBypassRequest(o: OrderId, index: nat, status: BypassStatus, admin: EmployeeId) returns (matched: bool)
      modifies this`bypasses
      ensures matched <==> index < |RowsOf(old(bypasses), o)| && RowsOf(old(bypasses), o)[index].status == Pending
      ensures bypasses == if !matched then old(bypasses) else
        old(bypasses)[o := old(bypasses)[o][index := Decided(old(bypasses)[o][index], status, admin)]]
    {
      matched := index < |RowsOf(bypasses, o)| && RowsOf(bypasses, o)[index].status == Pending;
      if matched { bypasses := bypasses[o := bypasses[o][index := Decided(bypasses[o][index], status, admin)]]; }
    }

    method CountNonPendingBypassRequests(o: OrderId, s: Station) returns (n: nat)
      ensures n == CountNonPending(RowsOf(bypasses, o), s)
      ensures var rows := RowsOf(bypasses, o); n == |set i | 0 <= i < |rows| && rows[i].station == s && rows[i].status != Pending|
    {
      var rows := RowsOf(bypasses, o);
      n := 0;
      for i := 0 to |rows|
        invariant n == CountNonPending(rows[..i], s)
      {
        assert rows[..i + 1][..i] == rows[..i];
        if rows[i].station == s && rows[i].status != Pending { n := n + 1; }
      }
      assert rows[..|rows|] == rows;
      CountIsCardinality(rows, s);
    }
  }

  function Coalesce<T>(first: Option<T>, second: Option<T>): Option<T> {
    if first.Some? then first else second
  }
}
