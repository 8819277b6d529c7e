/** The order handlers' transactions, statement by statement, each proved to commit exactly the
    abstract transition of Pipeline in every reachable state, and nothing when it fails.

    A handler's reads before its transaction are parameters named `seen`: they may be stale.
    Every failing path restores the tables; a refused unique-index insert aborts the PostgreSQL
    transaction, so the statement after it fails and everything is rolled back. */
module OrderHandlers {
  import opened Schema
  import opened Pipeline
  import opened Records
  import opened Bypasses
  import opened Runs
  import opened Tables

  datatype Reply =
    | Accepted
    | TaskNotFound | TaskAlreadyClaimed | TaskNotCompletable | OrderStatusMismatch
    | OrderNotFound | InvalidOrderStatus | OrderAlreadyProcessed | InvalidRequest
    | StationAlreadyProcessed | RequiresBypass
    | BypassAlreadyPending | BypassLimitReached | BypassNotFound | BypassAlreadyReviewed
    | OrderNotReceived
    | InternalError

  /** Order o exists and its tables are in a reachable configuration. */
  ghost predicate SoundAt(s: Snapshot, o: OrderId) {
    o in s.orders && Sound(s.DossierOf(o))
  }

  lemma InOrders(s: Snapshot, o: OrderId)
    requires SoundAt(s, o)
    ensures o in s.orders
  {}

  /** Between the two snapshots exactly transition e of order o was committed. */
  predicate Commits(s: Snapshot, s': Snapshot, o: OrderId, e: Event) {
    s'.World() == Next(s.World(), On(o, e))
  }

  predicate OnlyTouches(s: Snapshot, s': Snapshot, o: OrderId) {
    && s'.orders.Keys == s.orders.Keys
    && forall p :: p in s.orders && p != o ==> s'.DossierOf(p) == s.DossierOf(p)
  }

  lemma CommitsBy(s: Snapshot, s': Snapshot, o: OrderId, e: Event)
    requires o in s.orders && OnlyTouches(s, s', o) && s'.DossierOf(o) == Apply(s.DossierOf(o), e)
    ensures Commits(s, s', o, e)
  {
    hide Apply;
    OnlyOrderChanged(s, s', o);
  }

  lemma UnchangedCommits(s: Snapshot, o: OrderId, e: Event)
    requires o in s.orders ==> Apply(s.DossierOf(o), e) == s.DossierOf(o)
    ensures Commits(s, s, o, e)
  {
    hide Apply;
  }

  /** The precondition the handlers' guarantees rest on is itself kept by every handler. */
  lemma CommitsKeepSound(s: Snapshot, s': Snapshot, o: OrderId, e: Event)
    requires AllSound(s.World()) && Commits(s, s', o, e)
    requires o in s.orders ==> Enabled(s.DossierOf(o), e)
    ensures AllSound(s'.World()) && forall p :: p in s'.orders ==> SoundAt(s', p)
  {
    hide Sound, Apply;
    StepKeepsSound(s.World(), On(o, e));
    forall p | p in s'.orders ensures SoundAt(s', p) { assert p in s'.World(); }
  }

  // ------------------------------------------------------------------------------------------
  // handler_order.go

  /** The tables after CreateOrder's transaction. */
  function OpenedTables(s: Snapshot, o: OrderId, customer: CustomerId, fee: Cents): Snapshot {
    s.(orders := s.orders[o := Order(customer, WaitingPickupDriver, fee, 0, None, None)],
       histories := s.histories[o := RowsOf(s.histories, o) + [HistoryRow(None, WaitingPickupDriver, ByCustomer(customer))]],
       tasks := s.tasks[TaskKey(o, Pickup) := NEW_TASK])
  }

  /** Rows refer to orders that exist. */
  lemma NothingRecordedYet(s: Snapshot, o: OrderId)
    requires s.ForeignKeys() && o !in s.orders
    ensures TaskKey(o, Pickup) !in s.tasks && TaskKey(o, Delivery) !in s.tasks
    ensures o !in s.payments && o !in s.histories && o !in s.items && o !in s.breakdowns && o !in s.bypasses
  {}

  lemma OpeningKeepsKeys(s: Snapshot, o: OrderId, customer: CustomerId, fee: Cents)
    requires s.ForeignKeys()
    ensures OpenedTables(s, o, customer, fee).ForeignKeys()
  {}

  lemma OpeningTouchesOne(s: Snapshot, o: OrderId, customer: CustomerId, fee: Cents)
    requires s.ForeignKeys() && o !in s.orders
    ensures var s' := OpenedTables(s, o, customer, fee);
      && s'.orders.Keys == s.orders.Keys + {o} && s'.DossierOf(o) == Opened(customer, fee)
      && forall p :: p in s.orders ==> s'.DossierOf(p) == s.DossierOf(p)
  {
    NothingRecordedYet(s, o);
    hide Snapshot.ForeignKeys;
  }

  lemma OpeningCommits(s: Snapshot, o: OrderId, customer: CustomerId, fee: Cents)
    requires s.ForeignKeys() && o !in s.orders
    ensures OpenedTables(s, o, customer, fee).World() == Next(s.World(), Create(o, customer, fee))
  {
    hide Snapshot.DossierOf, Snapshot.ForeignKeys, Opened, OpenedTables;
    OpeningTouchesOne(s, o, customer, fee);
  }

  method CreateOrder(db: Database, o: OrderId, customer: CustomerId, fee: Cents) returns (r: Reply)
    requires db.Contents().ForeignKeys() && o !in db.orders
    modifies db
    ensures db.Contents().ForeignKeys()
    ensures r == Accepted && db.Contents().World() == Next(old(db.Contents().World()), Create(o, customer, fee))
  {
    hide Snapshot.World, Snapshot.DossierOf, Snapshot.ForeignKeys, Next, Opened;
    ghost var before := db.Contents();
    NothingRecordedYet(before, o);
    db.CreateOrder(o, Order(customer, WaitingPickupDriver, fee, 0, None, None));
    db.CreateOrderStatusHistory(o, None, WaitingPickupDriver, ByCustomer(customer));
    var inserted := db.CreateDriverTask(o, Pickup);
    assert db.Contents() == OpenedTables(before, o, customer, fee);
    OpeningKeepsKeys(before, o, customer, fee);
    OpeningCommits(before, o, customer, fee);
    r := Accepted;
  }

  method CompleteOrder(db: Database, o: OrderId, customer: CustomerId, seen: Option<Order>) returns (r: Reply)
    requires db.Contents().ForeignKeys()
    requires seen.Some? && o in db.orders ==> seen.value.customer == db.orders[o].customer
    modifies db
    ensures db.Contents().ForeignKeys()
    ensures r in {Accepted, OrderNotFound, OrderNotReceived, OrderAlreadyProcessed}
    ensures r == OrderNotFound <==> seen.None? || seen.value.customer != customer
    ensures r == OrderNotReceived <==> seen.Some? && seen.value.customer == customer && seen.value.status != ReceivedByCustomer
    ensures r != Accepted ==> db.Contents() == old(db.Contents())
    ensures r == Accepted ==> seen.Some? && seen.value.customer == customer && seen.value.status == ReceivedByCustomer
    ensures seen.Some? && seen.value.customer == customer && seen.value.status == ReceivedByCustomer ==>
      && Commits(old(db.Contents()), db.Contents(), o, Confirm(customer))
      && (r == Accepted <==> o in old(db.orders) && old(db.orders)[o].status == ReceivedByCustomer)
  {
    if seen.None? || seen.value.customer != customer { return OrderNotFound; }
    if seen.value.status != ReceivedByCustomer { return OrderNotReceived; }
    ghost var before := db.Contents();
    var matched := db.UpdateOrderStatusIfCurrent(o, Completed, ReceivedByCustomer);
    if !matched {
      UnchangedCommits(before, o, Confirm(customer));
      return OrderAlreadyProcessed;
    }
    db.CreateOrderStatusHistory(o, Some(ReceivedByCustomer), Completed, ByCustomer(customer));
    CommitsBy(before, db.Contents(), o, Confirm(customer));
    r := Accepted;
  }

  // ------------------------------------------------------------------------------------------
  // handler_driver.go

  /** The task row and the order row move together, so the row alone tells the order's status. */
  lemma TaskTellsStatus(s: Snapshot, key: TaskKey)
    requires SoundAt(s, key.order)
    ensures key in s.tasks && s.tasks[key].status == Available && s.tasks[key].driver == None
      <==> s.orders[key.order].status == ClaimOldStatus(key.kind)
    ensures key in s.tasks && s.tasks[key].status == Available ==> s.tasks[key] == NEW_TASK
    ensures key in s.tasks && s.tasks[key].status == InProgress
      <==> s.orders[key.order].status == CompleteOldStatus(key.kind)
  {
    var d := s.DossierOf(key.order);
    assert Task(d, key.kind) == RowOf(s.tasks, key);
    assert LockStep(d);
  }

  lemma ClaimCommits(s: Snapshot, s': Snapshot, key: TaskKey, driver: EmployeeId, at: Time)
    requires key.order in s.orders && s.orders[key.order].status == ClaimOldStatus(key.kind)
    requires key in s.tasks && s.tasks[key] == NEW_TASK
    requires s' == s.(
      tasks := s.tasks[key := s.tasks[key].(driver := Some(driver), status := InProgress, takenAt := Some(at))],
      orders := s.orders[key.order := s.orders[key.order].(
        status := ClaimNextStatus(key.kind),
        pickupSchedule := Coalesce(if key.kind == Pickup then Some(at) else None, s.orders[key.order].pickupSchedule))],
      histories := s.histories[key.order := RowsOf(s.histories, key.order)
        + [HistoryRow(Some(ClaimOldStatus(key.kind)), ClaimNextStatus(key.kind), ByEmployee(driver))]])
    ensures Commits(s, s', key.order, Claim(key.kind, driver, at))
  {
    assert s'.DossierOf(key.order) == ClaimEffect(s.DossierOf(key.order), key.kind, driver, at);
    CommitsBy(s, s', key.order, Claim(key.kind, driver, at));
  }

  lemma CompletionCommits(s: Snapshot, s': Snapshot, key: TaskKey, driver: EmployeeId, at: Time)
    requires key.order in s.orders && s.orders[key.order].status == CompleteOldStatus(key.kind)
    requires key in s.tasks && s.tasks[key].status == InProgress && s.tasks[key].driver == Some(driver)
    requires s' == s.(
      tasks := s.tasks[key := s.tasks[key].(status := Done, completedAt := Some(at))],
      orders := s.orders[key.order := s.orders[key.order].(
        status := CompleteNextStatus(key.kind),
        autoConfirmAt := Coalesce(if key.kind == Delivery then Some(at + AUTO_CONFIRM_DELAY) else None, s.orders[key.order].autoConfirmAt))],
      histories := s.histories[key.order := RowsOf(s.histories, key.order)
        + [HistoryRow(Some(CompleteOldStatus(key.kind)), CompleteNextStatus(key.kind), ByEmployee(driver))]])
    ensures Commits(s, s', key.order, Event.CompleteTask(key.kind, driver, at))
  {
    assert s'.DossierOf(key.order) == CompleteTaskEffect(s.DossierOf(key.order), key.kind, driver, at);
    CommitsBy(s, s', key.order, Event.CompleteTask(key.kind, driver, at));
  }

  lemma NoClaimCommits(s: Snapshot, key: TaskKey, driver: EmployeeId, at: Time)
    requires key.order in s.orders && s.orders[key.order].status != ClaimOldStatus(key.kind)
    ensures Commits(s, s, key.order, Claim(key.kind, driver, at))
  {
    UnchangedCommits(s, key.order, Claim(key.kind, driver, at));
  }

  predicate HeldBy(s: Snapshot, key: TaskKey, driver: EmployeeId) {
    key in s.tasks && s.tasks[key].status == InProgress && s.tasks[key].driver == Some(driver)
  }

  lemma NoCompletionCommits(s: Snapshot, key: TaskKey, driver: EmployeeId, at: Time)
    requires key.order in s.orders && !HeldBy(s, key, driver)
    ensures Commits(s, s, key.order, Event.CompleteTask(key.kind, driver, at))
  {
    UnchangedCommits(s, key.order, Event.CompleteTask(key.kind, driver, at));
  }

  /** seen is GetDriverTaskByID's pre-check row. The order's status is then overwritten without a
      guard; it is nevertheless always the status recorded as old. */
  method ClaimTask(db: Database, key: TaskKey, driver: EmployeeId, seen: Option<DriverTask>, at: Time) returns (r: Reply)
    requires db.Contents().ForeignKeys()
    modifies db
    ensures db.Contents().ForeignKeys()
    ensures r in {Accepted, TaskNotFound, TaskAlreadyClaimed}
    ensures r == TaskNotFound <==> seen.None?
    ensures r != Accepted ==> db.Contents() == old(db.Contents())
    ensures r == Accepted ==> seen.Some? && seen.value.status == Available && seen.value.driver == None
    ensures seen.Some? && seen.value.status == Available && seen.value.driver == None && old(SoundAt(db.Contents(), key.order)) ==>
      && Commits(old(db.Contents()), db.Contents(), key.order, Claim(key.kind, driver, at))
      && (r == Accepted <==> old(db.orders)[key.order].status == ClaimOldStatus(key.kind))
  {
    hide Commits, SoundAt, Snapshot.World, Snapshot.DossierOf, Apply, Sound;
    if seen.None? { return TaskNotFound; }
    if seen.value.status != Available || seen.value.driver.Some? { return TaskAlreadyClaimed; }
    ghost var before := db.Contents();
    var o := key.order;
    ghost var sound := SoundAt(before, o);
    if sound { TaskTellsStatus(before, key); InOrders(before, o); }
    var claimed := db.ClaimDriverTaskIfAvailable(key, driver, at);
    if !claimed {
      if sound { NoClaimCommits(before, key, driver, at); }
      return TaskAlreadyClaimed;
    }
    var schedule := if key.kind == Pickup then Some(at) else None;
    var matched := db.ClaimOrderForTask(o, ClaimNextStatus(key.kind), schedule);
    db.CreateOrderStatusHistory(o, Some(ClaimOldStatus(key.kind)), ClaimNextStatus(key.kind), ByEmployee(driver));
    if sound { ClaimCommits(before, db.Contents(), key, driver, at); }
    r := Accepted;
  }

  /** The order guard inside the transaction never fails once the task guard has passed. */
  method CompleteTask(db: Database, key: TaskKey, driver: EmployeeId, seen: Option<DriverTask>, at: Time) returns (r: Reply)
    requires db.Contents().ForeignKeys()
    modifies db
    ensures db.Contents().ForeignKeys()
    ensures r != Accepted ==> db.Contents() == old(db.Contents())
    ensures old(SoundAt(db.Contents(), key.order)) ==> r in {Accepted, TaskNotFound, TaskNotCompletable}
    ensures r == TaskNotFound <==> seen.None?
    ensures r == Accepted ==> seen.Some? && seen.value.status == InProgress && seen.value.driver == Some(driver)
    ensures seen.Some? && seen.value.status == InProgress && seen.value.driver == Some(driver) && old(SoundAt(db.Contents(), key.order)) ==>
      && Commits(old(db.Contents()), db.Contents(), key.order, Event.CompleteTask(key.kind, driver, at))
      && (r == Accepted <==> key in old(db.tasks) && old(db.tasks)[key].status == InProgress && old(db.tasks)[key].driver == Some(driver))
  {
    hide Commits, SoundAt, Snapshot.World, Snapshot.DossierOf, Apply, Sound;
    if seen.None? { return TaskNotFound; }
    if seen.value.status != InProgress || seen.value.driver != Some(driver) { return TaskNotCompletable; }
    var saved := db.Contents();
    var o := key.order;
    ghost var sound := SoundAt(saved, o);
    if sound { TaskTellsStatus(saved, key); InOrders(saved, o); }
    var done := db.CompleteDriverTaskIfInProgress(key, driver, at);
    if !done {
      if sound { NoCompletionCommits(saved, key, driver, at); }
      return TaskNotCompletable;
    }
    var next := CompleteNextStatus(key.kind);
    var deadline := if next == ReceivedByCustomer then Some(at + AUTO_CONFIRM_DELAY) else None;
    var matched := db.CompleteOrderForTaskIfCurrent(o, next, deadline, CompleteOldStatus(key.kind));
    if !matched {
      db.Rollback(saved);
      return OrderStatusMismatch;
    }
    db.CreateOrderStatusHistory(o, Some(CompleteOldStatus(key.kind)), next, ByEmployee(driver));
    if sound { CompletionCommits(saved, db.Contents(), key, driver, at); }
    r := Accepted;
  }

  // ------------------------------------------------------------------------------------------
  // handler_worker.go

  /** The tables after completeStationTx's statements. */
  function StationTables(s: Snapshot, o: OrderId, station: Station, employee: EmployeeId): Snapshot
    requires o in s.orders
  {
    var paid := station == Packing && o in s.payments && s.payments[o].status == Paid;
    var next := if paid then ReadyForDelivery else StationNextStatus(station);
    s.(orders := s.orders[o := s.orders[o].(status := next)],
       tasks := if paid then s.tasks[TaskKey(o, Delivery) := NEW_TASK] else s.tasks,
       histories := s.histories[o := RowsOf(s.histories, o) + [HistoryRow(Some(station), next, ByEmployee(employee))]])
  }

  lemma StationTablesLeave(s: Snapshot, o: OrderId, station: Station, employee: EmployeeId)
    requires o in s.orders && s.orders[o].status == station
    ensures var s' := StationTables(s, o, station, employee);
      OnlyTouches(s, s', o) && s'.DossierOf(o) == LeaveStation(s.DossierOf(o), ByEmployee(employee))
  {
    var s' := StationTables(s, o, station, employee);
    assert s'.DossierOf(o) == LeaveStation(s.DossierOf(o), ByEmployee(employee));
    forall p | p in s.orders && p != o ensures s'.DossierOf(p) == s.DossierOf(p) {}
  }

  predicate DeliveryTaskIsFree(s: Snapshot, o: OrderId) {
    TaskKey(o, Delivery) !in s.tasks
  }

  /** Runs inside its caller's transaction; on NoRows or Refused the caller rolls back. */
  method CompleteStationTx(db: Database, o: OrderId, station: Station, employee: EmployeeId) returns (res: Outcome)
    requires db.Contents().ForeignKeys()
    modifies db`orders, db`tasks, db`histories
    ensures db.Contents().ForeignKeys()
    ensures res == NoRows <==> !(o in old(db.orders) && old(db.orders)[o].status == station)
    ensures res == NoRows ==> db.Contents() == old(db.Contents())
    ensures res == Changed ==> db.Contents() == StationTables(old(db.Contents()), o, station, employee)
    ensures res == Refused ==> !DeliveryTaskIsFree(old(db.Contents()), o)
  {
    var next: Status := StationNextStatus(station);
    var paid := false;
    if station == Packing && o in db.payments && db.payments[o].status == Paid {
      next, paid := ReadyForDelivery, true;
    }
    var matched := db.UpdateOrderStatusIfCurrent(o, next, station);
    if !matched { return NoRows; }
    if paid {
      var inserted := db.CreateDriverTask(o, Delivery);
      if !inserted { return Refused; }
    }
    db.CreateOrderStatusHistory(o, Some(station), next, ByEmployee(employee));
    res := Changed;
  }

  lemma StationCommits(s: Snapshot, o: OrderId, station: Station, worker: EmployeeId)
    requires o in s.orders && s.orders[o].status == station
    ensures Commits(s, StationTables(s, o, station, worker), o, Event.CompleteStation(station, worker))
  {
    StationTablesLeave(s, o, station, worker);
    CommitsBy(s, StationTables(s, o, station, worker), o, Event.CompleteStation(station, worker));
  }

  /** Before release no delivery task exists, so creating one never meets the unique index. */
  lemma NoDeliveryTaskYet(s: Snapshot, o: OrderId)
    requires SoundAt(s, o) && Rank(s.orders[o].status) < Rank(ReadyForDelivery)
    ensures DeliveryTaskIsFree(s, o)
  {
    assert LockStep(s.DossierOf(o));
  }

  method CompleteStation(db: Database, o: OrderId, station: Station, worker: EmployeeId) returns (r: Reply)
    requires db.Contents().ForeignKeys()
    modifies db
    ensures db.Contents().ForeignKeys()
    ensures r in {Accepted, StationAlreadyProcessed, InternalError}
    ensures r != Accepted ==> db.Contents() == old(db.Contents())
    ensures old(SoundAt(db.Contents(), o)) ==>
      && r != InternalError
      && (r == Accepted <==> old(db.orders)[o].status == station)
      && Commits(old(db.Contents()), db.Contents(), o, Event.CompleteStation(station, worker))
  {
    hide Commits, SoundAt, Snapshot.World, StationTables;
    var saved := db.Contents();
    ghost var sound := SoundAt(saved, o);
    if sound { InOrders(saved, o); }
    var res := CompleteStationTx(db, o, station, worker);
    if res == NoRows {
      IdleStationCommits(saved, o, station, worker);
      return StationAlreadyProcessed;
    }
    if sound { NoDeliveryTaskYet(saved, o); }
    if res == Refused {
      db.Rollback(saved);
      return InternalError;
    }
    StationCommits(saved, o, station, worker);
    r := Accepted;
  }

  lemma IdleStationCommits(s: Snapshot, o: OrderId, station: Station, worker: EmployeeId)
    requires o !in s.orders || s.orders[o].status != station
    ensures Commits(s, s, o, Event.CompleteStation(station, worker))
  {
    UnchangedCommits(s, o, Event.CompleteStation(station, worker));
  }

  // ------------------------------------------------------------------------------------------
  // handler_bypass.go

  lemma RequestCommits(s: Snapshot, s': Snapshot, o: OrderId, station: Station, worker: EmployeeId, count: nat)
    requires o in s.orders
    requires s' == s.(bypasses := s.bypasses[o := RowsOf(s.bypasses, o) + [Bypass(station, worker, count + 1, Pending, None)]])
    ensures Commits(s, s', o, InsertBypass(station, worker, count))
  {
    assert s'.DossierOf(o) == s.DossierOf(o).(bypasses := s'.bypasses[o]);
    CommitsBy(s, s', o, InsertBypass(station, worker, count));
  }

  /** There is no transaction: seen, seenPending and seenCount are the order row, whether a pending
      request was found, and the count, each as read at some earlier moment. Nothing is checked
      again at the insert. */
  method CreateBypassRequest(db: Database, o: OrderId, station: Station, worker: EmployeeId,
                             seen: Option<Order>, seenPending: bool, seenCount: nat) returns (r: Reply)
    requires db.Contents().ForeignKeys()
    requires seen.Some? ==> o in db.orders
    modifies db
    ensures db.Contents().ForeignKeys()
    ensures r in {Accepted, OrderNotFound, InvalidOrderStatus, BypassAlreadyPending, BypassLimitReached}
    ensures r == OrderNotFound <==> seen.None?
    ensures r == InvalidOrderStatus <==> seen.Some? && seen.value.status != station
    ensures r == BypassAlreadyPending <==> seen.Some? && seen.value.status == station && seenPending
    ensures r == BypassLimitReached <==>
      seen.Some? && seen.value.status == station && !seenPending && seenCount >= 2
    ensures r == Accepted ==> Commits(old(db.Contents()), db.Contents(), o, InsertBypass(station, worker, seenCount))
    ensures r != Accepted ==> db.Contents() == old(db.Contents())
  {
    hide Commits, Snapshot.World;
    ghost var before := db.Contents();
    if seen.None? { return OrderNotFound; }
    if seen.value.status != station { return InvalidOrderStatus; }
    if seenPending { return BypassAlreadyPending; }
    if seenCount >= MAX_BYPASS_ATTEMPTS_PER_STATION { return BypassLimitReached; }
    db.CreateBypassRequest(o, Bypass(station, worker, seenCount + 1, Pending, None));
    RequestCommits(before, db.Contents(), o, station, worker, seenCount);
    r := Accepted;
  }

  /** The same request with its three reads and no interruption: it keeps the numbering and never
      meets the limit. Numbering.NumberedIffReadsHold says what interruptions are harmless. */
  method CreateBypassRequestAlone(db: Database, o: OrderId, station: Station, worker: EmployeeId) returns (r: Reply)
    requires db.Contents().ForeignKeys() && SoundAt(db.Contents(), o) && BypassLadder(RowsOf(db.bypasses, o))
    modifies db
    ensures db.Contents().ForeignKeys()
    ensures r in {Accepted, InvalidOrderStatus, BypassAlreadyPending}
    ensures r == InvalidOrderStatus <==> old(db.orders)[o].status != station
    ensures r == BypassAlreadyPending <==> old(db.orders)[o].status == station && HasPending(RowsOf(old(db.bypasses), o), station)
    ensures r == Accepted ==> Commits(old(db.Contents()), db.Contents(), o,
      InsertBypass(station, worker, if HasRequest(RowsOf(old(db.bypasses), o), station) then 1 else 0))
    ensures r != Accepted ==> db.Contents() == old(db.Contents())
    ensures BypassLadder(RowsOf(db.bypasses, o))
  {
    hide Commits, SoundAt, Snapshot.World, BypassLadder;
    ghost var before := db.Contents();
    InOrders(before, o);
    var seen := db.orders[o];
    var pending := HasPending(RowsOf(db.bypasses, o), station);
    var count := db.CountNonPendingBypassRequests(o, station);
    r := CreateBypassRequest(db, o, station, worker, Some(seen), pending, count);
    if seen.status == station && !pending { ReadsAreTrue(before, o, station, worker, count); }
    if r == Accepted { CommittedBypasses(before, db.Contents(), o, InsertBypass(station, worker, count)); }
  }

  lemma ReadsAreTrue(s: Snapshot, o: OrderId, station: Station, worker: EmployeeId, count: nat)
    requires SoundAt(s, o) && BypassLadder(RowsOf(s.bypasses, o)) && s.orders[o].status == station
    requires !HasPending(RowsOf(s.bypasses, o), station) && count == CountNonPending(RowsOf(s.bypasses, o), station)
    ensures count < MAX_BYPASS_ATTEMPTS_PER_STATION
    ensures count == if HasRequest(RowsOf(s.bypasses, o), station) then 1 else 0
    ensures BypassLadder(Apply(s.DossierOf(o), InsertBypass(station, worker, count)).bypasses)
  {
    var d := s.DossierOf(o);
    LimitIsNeverReached(d, station);
    PendingCheckSuffices(d, station);
    InsertKeepsLadderIffReadsHold(d, station, worker, count);
  }

  lemma CommittedBypasses(s: Snapshot, s': Snapshot, o: OrderId, e: Event)
    requires o in s.orders && Commits(s, s', o, e)
    ensures o in s'.orders && RowsOf(s'.bypasses, o) == Apply(s.DossierOf(o), e).bypasses
  {
    hide Apply;
    assert s'.World()[o] == s'.DossierOf(o);
  }

  /** seen is the bypass row read before the decision; its attempt number never changes. The last
      allowed attempt is approved whatever the admin decides. An approval commits together with
      the station transition it triggers, or not at all. */
  method ReviewBypassRequest(db: Database, o: OrderId, index: nat, admin: EmployeeId, approve: bool, seen: Option<Bypass>) returns (r: Reply)
    requires db.Contents().ForeignKeys()
    requires seen.Some? <==> index < |RowsOf(db.bypasses, o)|
    requires seen.Some? ==> SameBypass(seen.value, RowsOf(db.bypasses, o)[index])
    modifies db
    ensures db.Contents().ForeignKeys()
    ensures r != Accepted ==> db.Contents() == old(db.Contents())
    ensures r == BypassNotFound <==> seen.None?
    ensures r == BypassAlreadyReviewed <==> seen.Some? && RowsOf(old(db.bypasses), o)[index].status != Pending
    ensures old(SoundAt(db.Contents(), o)) ==>
      && r in {Accepted, BypassNotFound, BypassAlreadyReviewed, StationAlreadyProcessed}
      && Commits(old(db.Contents()), db.Contents(), o, Review(index, admin, approve))
      && (r == StationAlreadyProcessed <==>
            && index < |RowsOf(old(db.bypasses), o)|
            && var b := RowsOf(old(db.bypasses), o)[index];
            && b.status == Pending && (approve || b.attempt >= MAX_BYPASS_ATTEMPTS_PER_STATION)
            && b.station != old(db.orders)[o].status)
  {
    hide Commits, SoundAt, Snapshot.World, StationTables;
    var saved := db.Contents();
    ghost var sound := SoundAt(saved, o);
    if sound { InOrders(saved, o); }
    if seen.None? {
      NoReviewCommits(saved, o, index, admin, approve);
      return BypassNotFound;
    }
    var forceApprove := seen.value.attempt >= MAX_BYPASS_ATTEMPTS_PER_STATION;
    if !(approve || forceApprove) {
      var matched := db.ReviewBypassRequest(o, index, Rejected, admin);
      if !matched {
        NoReviewCommits(saved, o, index, admin, approve);
        return BypassAlreadyReviewed;
      }
      if sound { RejectionCommits(saved, o, index, admin); }
      return Accepted;
    }
    var matched := db.ReviewBypassRequest(o, index, Approved, admin);
    if !matched {
      NoReviewCommits(saved, o, index, admin, approve);
      return BypassAlreadyReviewed;
    }
    var res := CompleteStationTx(db, o, seen.value.station, admin);
    if res == NoRows {
      db.Rollback(saved);
      NoReviewCommits(saved, o, index, admin, approve);
      return StationAlreadyProcessed;
    }
    if sound { NoDeliveryTaskYet(saved, o); }
    if res == Refused {
      db.Rollback(saved);
      return InternalError;
    }
    if sound { ApprovalCommits(saved, o, index, admin, approve); }
    r := Accepted;
  }

  function DecideIn(s: Snapshot, o: OrderId, index: nat, status: BypassStatus, admin: EmployeeId): Snapshot
    requires o in s.bypasses && index < |s.bypasses[o]|
  {
    s.(bypasses := s.bypasses[o := s.bypasses[o][index := Decided(s.bypasses[o][index], status, admin)]])
  }

  /** No such pending request, or an approval whose order is no longer at the station. */
  lemma NoReviewCommits(s: Snapshot, o: OrderId, index: nat, admin: EmployeeId, approve: bool)
    requires index < |RowsOf(s.bypasses, o)| && RowsOf(s.bypasses, o)[index].status == Pending ==>
      var b := RowsOf(s.bypasses, o)[index];
      && (approve || b.attempt >= MAX_BYPASS_ATTEMPTS_PER_STATION)
      && (o in s.orders ==> s.orders[o].status != b.station)
    ensures Commits(s, s, o, Review(index, admin, approve))
  {
    UnchangedCommits(s, o, Review(index, admin, approve));
  }

  lemma RejectionCommits(s: Snapshot, o: OrderId, index: nat, admin: EmployeeId)
    requires o in s.orders && o in s.bypasses && index < |s.bypasses[o]| && s.bypasses[o][index].status == Pending
    requires s.bypasses[o][index].attempt < MAX_BYPASS_ATTEMPTS_PER_STATION
    ensures Commits(s, DecideIn(s, o, index, Rejected, admin), o, Review(index, admin, false))
  {
    var s' := DecideIn(s, o, index, Rejected, admin);
    assert s'.DossierOf(o) == s.DossierOf(o).(bypasses := s'.bypasses[o]);
    CommitsBy(s, s', o, Review(index, admin, false));
  }

  lemma ApprovalCommits(s: Snapshot, o: OrderId, index: nat, admin: EmployeeId, approve: bool)
    requires o in s.orders && o in s.bypasses && index < |s.bypasses[o]| && s.bypasses[o][index].status == Pending
    requires approve || s.bypasses[o][index].attempt >= MAX_BYPASS_ATTEMPTS_PER_STATION
    requires s.orders[o].status == s.bypasses[o][index].station
    ensures Commits(s, StationTables(DecideIn(s, o, index, Approved, admin), o, s.bypasses[o][index].station, admin),
                    o, Review(index, admin, approve))
  {
    var approved := DecideIn(s, o, index, Approved, admin);
    var station := s.bypasses[o][index].station;
    StationTablesLeave(approved, o, station, admin);
    var s' := StationTables(approved, o, station, admin);
    assert approved.DossierOf(o) == s.DossierOf(o).(bypasses := approved.bypasses[o]);
    assert s'.DossierOf(o) == Apply(s.DossierOf(o), Review(index, admin, approve));
    forall p | p in s.orders && p != o ensures s'.DossierOf(p) == s.DossierOf(p) {
      assert approved.DossierOf(p) == s.DossierOf(p);
    }
    CommitsBy(s, s', o, Review(index, admin, approve));
  }
}
