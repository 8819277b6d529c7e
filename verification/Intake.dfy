/** handler_pipeline.go: validating a ProcessOrder request, pricing it, and recording it. */
module Intake {
  import opened Schema
  import opened Pricing
  import opened Pipeline
  import opened Completion
  import opened Tables
  import opened OrderHandlers

  datatype RequestedItem = RequestedItem(item: ItemId, quantity: real)

  datatype Verdict =
    | Valid | NoItemsWithQuantity | InvalidTotalWeight | TotalWeightMustBeInteger
    | BreakdownWithoutWeight | WeightWithoutBreakdown

  predicate SomePositive(qs: seq<real>) {
    exists k :: 0 <= k < |qs| && qs[k] > 0.0
  }

  predicate SomeCounted(counts: seq<Count>) {
    exists k :: 0 <= k < |counts| && counts[k].quantity > 0
  }

  predicate IsWellFormed(quantities: seq<real>, weight: real, breakdown: seq<Count>) {
    && SomePositive(quantities)
    && 0.0 <= weight <= 999.99
    && weight == weight.Floor as real
    && (weight > 0.0 <==> SomeCounted(breakdown))
  }

  /** Accepted exactly when some quantity is positive, the weight is a whole number of kilograms
      in range, and weight and breakdown are given together or not at all. */
  method ValidateProcessOrderRequest(quantities: seq<real>, weight: real, breakdown: seq<Count>) returns (v: Verdict)
    ensures v == Valid <==> IsWellFormed(quantities, weight, breakdown)
    ensures v == Valid <==>
      && (exists k :: 0 <= k < |quantities| && quantities[k] > 0.0)
      && 0.0 <= weight <= 999.99 && weight == weight.Floor as real
      && (weight > 0.0 <==> exists k :: 0 <= k < |breakdown| && breakdown[k].quantity > 0)
    ensures v == NoItemsWithQuantity <==> forall k :: 0 <= k < |quantities| ==> quantities[k] <= 0.0
    ensures v == InvalidTotalWeight ==> weight < 0.0 || weight > 999.99
    ensures v == TotalWeightMustBeInteger ==> weight != weight.Floor as real
    ensures v == WeightWithoutBreakdown ==> weight > 0.0 && forall k :: 0 <= k < |breakdown| ==> breakdown[k].quantity <= 0
    ensures v == BreakdownWithoutWeight ==> weight == 0.0 && exists k :: 0 <= k < |breakdown| && breakdown[k].quantity > 0
  {
    var hasAnyItem := false;
    for i := 0 to |quantities|
      invariant !hasAnyItem
      invariant forall k :: 0 <= k < i ==> quantities[k] <= 0.0
    {
      if quantities[i] > 0.0 { hasAnyItem := true; break; }
    }
    if !hasAnyItem { return NoItemsWithQuantity; }
    if weight < 0.0 || weight > 999.99 { return InvalidTotalWeight; }
    if weight > 0.0 && weight != weight.Floor as real { return TotalWeightMustBeInteger; }
    var hasBreakdown := false;
    for i := 0 to |breakdown|
      invariant !hasBreakdown
      invariant forall k :: 0 <= k < i ==> breakdown[k].quantity <= 0
    {
      if breakdown[i].quantity > 0 { hasBreakdown := true; break; }
    }
    if hasBreakdown && weight == 0.0 { return BreakdownWithoutWeight; }
    if weight > 0.0 && !hasBreakdown { return WeightWithoutBreakdown; }
    v := Valid;
  }

  /** Active catalogue items and their base prices, as read before the transaction. */
  type Catalogue = map<ItemId, Cents>

  predicate Known(request: seq<RequestedItem>, c: Catalogue) {
    forall k :: 0 <= k < |request| ==> request[k].item in c
  }

  function Resolved(request: seq<RequestedItem>, c: Catalogue): (lines: seq<Line>)
    requires Known(request, c)
    ensures |lines| == |request|
    ensures forall k :: 0 <= k < |request| ==> lines[k] == Line(request[k].item, request[k].quantity, c[request[k].item])
  {
    seq(|request|, k requires 0 <= k < |request| => Line(request[k].item, request[k].quantity, c[request[k].item]))
  }

  function Quantities(request: seq<RequestedItem>): (qs: seq<real>)
    ensures |qs| == |request| && forall k :: 0 <= k < |request| ==> qs[k] == request[k].quantity
  {
    seq(|request|, k requires 0 <= k < |request| => request[k].quantity)
  }

  /** The accumulating loop: the running total is the charge of the lines resolved so far. */
  method ResolveItems(request: seq<RequestedItem>, c: Catalogue) returns (ok: bool, lines: seq<Line>, total: real)
    ensures ok <==> Known(request, c)
    ensures ok ==> lines == Resolved(request, c) && total == Charge(lines)
  {
    lines, total := [], 0.0;
    for i := 0 to |request|
      invariant |lines| == i && total == Charge(lines)
      invariant forall k :: 0 <= k < i ==>
        request[k].item in c && lines[k] == Line(request[k].item, request[k].quantity, c[request[k].item])
    {
      if request[i].item !in c { return false, [], 0.0; }
      var line := Line(request[i].item, request[i].quantity, c[request[i].item]);
      total := total + line.price as real * line.quantity;
      assert (lines + [line])[..i] == lines;
      lines := lines + [line];
    }
    ok := true;
  }

  /** The breakdown's loop: every clothing type exists and is active. */
  method ResolveBreakdown(breakdown: seq<Count>, clothing: set<ItemId>) returns (ok: bool)
    ensures ok <==> KnownTypes(breakdown, clothing)
    ensures ok <==> forall k :: 0 <= k < |breakdown| ==> breakdown[k].id in clothing
  {
    for i := 0 to |breakdown|
      invariant forall k :: 0 <= k < i ==> breakdown[k].id in clothing
    {
      if breakdown[i].id !in clothing { return false; }
    }
    ok := true;
  }

  predicate KnownTypes(breakdown: seq<Count>, clothing: set<ItemId>) {
    forall k :: 0 <= k < |breakdown| ==> breakdown[k].id in clothing
  }

  predicate Distinct(breakdown: seq<Count>) {
    forall i, j :: 0 <= i < j < |breakdown| ==> breakdown[i].id != breakdown[j].id
  }

  /** No clothing type twice, none recorded before. */
  predicate CanAppend(rows: seq<Count>, breakdown: seq<Count>) {
    Distinct(breakdown) && forall k :: 0 <= k < |breakdown| ==> !HasType(rows, breakdown[k].id)
  }

  predicate LinesFit(lines: seq<Line>) {
    forall k :: 0 <= k < |lines| ==> ItemFits(StoredLine(lines[k]))
  }

  function StoredLine(line: Line): OrderItem {
    OrderItem(line.item, StoredQuantity(line.quantity), line.price)
  }

  /** quantity takes four digits before the decimal point and two after it, price_at_order eight
      and two, total_price ten and two. */
  lemma ColumnRanges(line: Line, total: Cents)
    ensures ItemFits(StoredLine(line)) <==>
      -999_999 <= StoredQuantity(line.quantity) <= 999_999 && -9_999_999_999 <= line.price <= 9_999_999_999
    ensures TotalFits(total) <==> -999_999_999_999 <= total <= 999_999_999_999
  {}

  lemma ProcessingCommits(s: Snapshot, s': Snapshot, o: OrderId, admin: EmployeeId, lines: seq<Line>, breakdown: seq<Count>)
    requires SoundAt(s, o) && s.orders[o].status == LaundryArrivedOutlet && Admissible(lines)
    requires ProcessedTables(s, s', o, admin, lines, breakdown, Bill(lines, s.orders[o].fee))
    ensures Commits(s, s', o, Process(admin, lines, breakdown))
  {
    hide Sound, Bill, Store, Admissible, Commits, OnlyTouches, ProcessedTables, SoundAt, Apply;
    InOrders(s, o);
    ProcessingTouchesOne(s, s', o, admin, lines, breakdown, Bill(lines, s.orders[o].fee));
    NothingStoredYet(s, o);
    ProcessedIsApply(s.DossierOf(o), admin, lines, breakdown);
    CommitsBy(s, s', o, Process(admin, lines, breakdown));
  }

  lemma ProcessingTouchesOne(s: Snapshot, s': Snapshot, o: OrderId, admin: EmployeeId, lines: seq<Line>, breakdown: seq<Count>, total: Cents)
    requires o in s.orders && ProcessedTables(s, s', o, admin, lines, breakdown, total)
    ensures OnlyTouches(s, s', o)
    ensures var d := s.DossierOf(o);
      s'.DossierOf(o) == Advance(d, Washing, ByEmployee(admin)).(
        order := d.order.(status := Washing, total := total), items := d.items + Store(lines), breakdown := d.breakdown + breakdown)
      || d.order.status != LaundryArrivedOutlet
  {
    hide Store;
  }

  lemma ProcessedIsApply(d: Dossier, admin: EmployeeId, lines: seq<Line>, breakdown: seq<Count>)
    requires d.order.status == LaundryArrivedOutlet && Admissible(lines) && d.items == [] && d.breakdown == []
    ensures Apply(d, Process(admin, lines, breakdown)) == Advance(d, Washing, ByEmployee(admin)).(
      order := d.order.(status := Washing, total := Bill(lines, d.order.fee)),
      items := d.items + Store(lines), breakdown := d.breakdown + breakdown)
  {
    hide Bill, Store, Admissible;
  }

  lemma NothingStoredYet(s: Snapshot, o: OrderId)
    requires SoundAt(s, o) && s.orders[o].status == LaundryArrivedOutlet
    ensures RowsOf(s.items, o) == [] && RowsOf(s.breakdowns, o) == []
  {
    assert BillSound(s.DossierOf(o));
  }

  /** What ProcessOrder asks of the rows it has read and of the request. c and clothing are the
      active laundry items and clothing types as read. */
  predicate MayProcess(seen: Option<Order>, seenItems: nat, request: seq<RequestedItem>, weight: real, breakdown: seq<Count>,
                       c: Catalogue, clothing: set<ItemId>) {
    && seen.Some? && seen.value.status == LaundryArrivedOutlet && seenItems == 0
    && IsWellFormed(Quantities(request), weight, breakdown) && Known(request, c) && KnownTypes(breakdown, clothing)
  }

  /** What the columns and the unique index on (order_id, clothing_type_id) take. */
  predicate CanStore(request: seq<RequestedItem>, c: Catalogue, fee: Cents, rows: seq<Count>, breakdown: seq<Count>)
    requires Known(request, c)
  {
    var lines := Resolved(request, c);
    LinesFit(lines) && TotalFits(Bill(lines, fee)) && CanAppend(rows, breakdown)
  }

  /** The checks of ProcessOrder that look at the request and the catalogues only. */
  method ResolveRequest(request: seq<RequestedItem>, weight: real, breakdown: seq<Count>, c: Catalogue, clothing: set<ItemId>)
    returns (ok: bool, lines: seq<Line>, charge: real)
    ensures ok <==> IsWellFormed(Quantities(request), weight, breakdown) && Known(request, c) && KnownTypes(breakdown, clothing)
    ensures ok ==> lines == Resolved(request, c) && charge == Charge(lines)
  {
    hide Charge;
    var v := ValidateProcessOrderRequest(Quantities(request), weight, breakdown);
    if v != Valid { return false, [], 0.0; }
    ok, lines, charge := ResolveItems(request, c);
    if !ok { return; }
    ok := ResolveBreakdown(breakdown, clothing);
  }

  /** seen and seenItems are the order row and the item count read before the transaction. */
  method ProcessOrder(db: Database, o: OrderId, admin: EmployeeId, seen: Option<Order>, seenItems: nat,
                      request: seq<RequestedItem>, weight: real, breakdown: seq<Count>, c: Catalogue, clothing: set<ItemId>)
    returns (r: Reply)
    requires db.Contents().ForeignKeys()
    requires seen.Some? ==> o in db.orders && seen.value.fee == db.orders[o].fee
    modifies db
    ensures db.Contents().ForeignKeys()
    ensures r in {Accepted, OrderNotFound, InvalidOrderStatus, OrderAlreadyProcessed, InvalidRequest, InternalError}
    ensures r != Accepted ==> db.Contents() == old(db.Contents())
    ensures r == OrderNotFound <==> seen.None?
    ensures r == InvalidOrderStatus <==> seen.Some? && seen.value.status != LaundryArrivedOutlet
    ensures seen.Some? && seen.value.status == LaundryArrivedOutlet && seenItems > 0 ==> r == OrderAlreadyProcessed
    ensures r == InvalidRequest <==>
      && seen.Some? && seen.value.status == LaundryArrivedOutlet && seenItems == 0
      && !(IsWellFormed(Quantities(request), weight, breakdown) && Known(request, c) && KnownTypes(breakdown, clothing))
    ensures r == Accepted <==>
      && MayProcess(seen, seenItems, request, weight, breakdown, c, clothing)
      && CanStore(request, c, seen.value.fee, RowsOf(old(db.breakdowns), o), breakdown)
      && old(db.orders)[o].status == LaundryArrivedOutlet
    ensures r == Accepted && old(SoundAt(db.Contents(), o)) ==>
      Commits(old(db.Contents()), db.Contents(), o, Process(admin, Resolved(request, c), breakdown))
  {
    hide Snapshot.World, Snapshot.DossierOf, Snapshot.ForeignKeys, Commits, SoundAt, Sound, Apply, ProcessedTables;
    hide Bill, Charge, Round, IsWellFormed, Known, KnownTypes, LinesFit, TotalFits, CanAppend;
    if seen.None? { return OrderNotFound; }
    if seen.value.status != LaundryArrivedOutlet { return InvalidOrderStatus; }
    if seenItems > 0 { return OrderAlreadyProcessed; }
    var ok, lines, charge := ResolveRequest(request, weight, breakdown, c, clothing);
    if !ok { return InvalidRequest; }
    ghost var before := db.Contents();
    BillIs(charge, lines, seen.value.fee);
    r := RecordProcessing(db, o, admin, lines, breakdown, Round(charge + seen.value.fee as real));
    if r == Accepted && SoundAt(before, o) {
      AdmissibleLines(request, weight, breakdown, c);
      ProcessingCommits(before, db.Contents(), o, admin, lines, breakdown);
    }
  }

  /** In a reachable state only the request's own clothing types can collide. */
  lemma OnlyDuplicatesCollide(s: Snapshot, o: OrderId, breakdown: seq<Count>)
    requires SoundAt(s, o) && s.orders[o].status == LaundryArrivedOutlet
    ensures CanAppend(RowsOf(s.breakdowns, o), breakdown) <==> Distinct(breakdown)
  {
    NothingStoredYet(s, o);
  }

  /** The tables after ProcessOrder's transaction. */
  ghost predicate ProcessedTables(s: Snapshot, s': Snapshot, o: OrderId, admin: EmployeeId, lines: seq<Line>, breakdown: seq<Count>, total: Cents)
    requires o in s.orders
  {
    && s' == s.(
      items := s'.items,
      breakdowns := s'.breakdowns,
      orders := s.orders[o := s.orders[o].(status := Washing, total := total)],
      histories := s.histories[o := RowsOf(s.histories, o) + [HistoryRow(Some(LaundryArrivedOutlet), Washing, ByEmployee(admin))]])
    && Appended(s.items, s'.items, o, Store(lines)) && Appended(s.breakdowns, s'.breakdowns, o, breakdown)
  }

  ghost predicate Appended<T(!new)>(table: map<OrderId, seq<T>>, table': map<OrderId, seq<T>>, o: OrderId, rows: seq<T>) {
    && RowsOf(table', o) == RowsOf(table, o) + rows
    && (forall p :: p != o ==> RowsOf(table', p) == RowsOf(table, p))
    && table'.Keys <= table.Keys + {o}
  }

  /** ProcessOrder's transaction. Items and breakdown are inserted before the guarded update, so a
      request that loses the race, or does not fit, has its inserts undone. */
  method RecordProcessing(db: Database, o: OrderId, admin: EmployeeId, lines: seq<Line>, breakdown: seq<Count>, total: Cents) returns (r: Reply)
    requires db.Contents().ForeignKeys() && o in db.orders
    modifies db
    ensures db.Contents().ForeignKeys()
    ensures r in {Accepted, OrderAlreadyProcessed, InternalError}
    ensures r == Accepted <==>
      && old(db.orders)[o].status == LaundryArrivedOutlet
      && LinesFit(lines) && TotalFits(total) && CanAppend(RowsOf(old(db.breakdowns), o), breakdown)
    ensures r == OrderAlreadyProcessed ==> old(db.orders)[o].status != LaundryArrivedOutlet
    ensures if r == Accepted then ProcessedTables(old(db.Contents()), db.Contents(), o, admin, lines, breakdown, total)
            else db.Contents() == old(db.Contents())
  {
    hide Store, LinesFit, TotalFits, CanAppend;
    var saved := db.Contents();
    var inserted := InsertItems(db, o, lines);
    if !inserted {
      db.Rollback(saved);
      return InternalError;
    }
    inserted := InsertBreakdown(db, o, breakdown);
    if !inserted {
      db.Rollback(saved);
      return InternalError;
    }
    var updated := db.ProcessOrderIfCurrent(o, total);
    if updated != Changed {
      db.Rollback(saved);
      return if updated == NoRows then OrderAlreadyProcessed else InternalError;
    }
    db.CreateOrderStatusHistory(o, Some(LaundryArrivedOutlet), Washing, ByEmployee(admin));
    r := Accepted;
  }

  lemma BillIs(charge: real, lines: seq<Line>, fee: Cents)
    requires charge == Charge(lines)
    ensures Bill(lines, fee) == Round(charge + fee as real)
  {}

  lemma AdmissibleLines(request: seq<RequestedItem>, weight: real, breakdown: seq<Count>, c: Catalogue)
    requires Known(request, c) && IsWellFormed(Quantities(request), weight, breakdown)
    ensures Admissible(Resolved(request, c))
  {
    var k :| 0 <= k < |request| && Quantities(request)[k] > 0.0;
    assert Resolved(request, c)[k].quantity > 0.0;
  }

  /** On false the transaction has failed and its caller rolls it back. */
  method InsertItems(db: Database, o: OrderId, lines: seq<Line>) returns (inserted: bool)
    modifies db`items
    ensures inserted <==> LinesFit(lines)
    ensures inserted ==> Appended(old(db.items), db.items, o, Store(lines))
  {
    for i := 0 to |lines|
      invariant LinesFit(lines[..i])
      invariant Appended(old(db.items), db.items, o, Store(lines[..i]))
    {
      ghost var before := db.items;
      inserted := db.CreateOrderItem(o, StoredLine(lines[i]));
      if !inserted { return; }
      assert Store(lines[..i + 1]) == Store(lines[..i]) + [StoredLine(lines[i])];
      AppendedOne(old(db.items), before, db.items, o, Store(lines[..i]), StoredLine(lines[i]));
    }
    assert lines[..|lines|] == lines;
    inserted := true;
  }

  lemma AppendedOne<T(!new)>(table: map<OrderId, seq<T>>, before: map<OrderId, seq<T>>, after: map<OrderId, seq<T>>, o: OrderId, rows: seq<T>, row: T)
    requires Appended(table, before, o, rows) && after == before[o := RowsOf(before, o) + [row]]
    ensures Appended(table, after, o, rows + [row])
  {
    assert RowsOf(table, o) + rows + [row] == RowsOf(table, o) + (rows + [row]);
  }

  method InsertBreakdown(db: Database, o: OrderId, breakdown: seq<Count>) returns (inserted: bool)
    modifies db`breakdowns
    ensures inserted <==> CanAppend(RowsOf(old(db.breakdowns), o), breakdown)
    ensures inserted ==> Appended(old(db.breakdowns), db.breakdowns, o, breakdown)
  {
    ghost var rows := RowsOf(db.breakdowns, o);
    for i := 0 to |breakdown|
      invariant CanAppend(rows, breakdown[..i])
      invariant Appended(old(db.breakdowns), db.breakdowns, o, breakdown[..i])
    {
      ghost var before := db.breakdowns;
      inserted := db.CreateOrderItemBreakdown(o, breakdown[i]);
      OneMoreType(rows, breakdown, i);
      if !inserted { return; }
      AppendedOne(old(db.breakdowns), before, db.breakdowns, o, breakdown[..i], breakdown[i]);
      assert breakdown[..i] + [breakdown[i]] == breakdown[..i + 1];
    }
    assert breakdown[..|breakdown|] == breakdown;
    inserted := true;
  }

  lemma OneMoreType(rows: seq<Count>, breakdown: seq<Count>, i: nat)
    requires i < |breakdown| && CanAppend(rows, breakdown[..i])
    ensures !HasType(rows + breakdown[..i], breakdown[i].id) <==> CanAppend(rows, breakdown[..i + 1])
    ensures HasType(rows + breakdown[..i], breakdown[i].id) ==> !CanAppend(rows, breakdown)
  {
    var all := rows + breakdown[..i];
    var next := breakdown[..i + 1];
    assert next[i] == breakdown[i] && forall k :: 0 <= k < i ==> next[k] == breakdown[..i][k];
    if HasType(all, breakdown[i].id) {
      var k :| 0 <= k < |all| && all[k].id == breakdown[i].id;
      if k < |rows| {
        assert rows[k].id == breakdown[i].id && HasType(rows, breakdown[i].id);
      } else {
        assert breakdown[k - |rows|].id == breakdown[i].id && next[k - |rows|].id == next[i].id;
      }
    } else {
      forall k | 0 <= k < |rows| ensures rows[k].id != breakdown[i].id { assert all[k] == rows[k]; }
      forall k | 0 <= k < i ensures next[k].id != next[i].id { assert all[|rows| + k] == breakdown[k]; }
    }
  }

  /** Validation asks for one positive quantity only, so one line out and one line back is accepted,
      costs nothing, and strands the order for good. */
  lemma StrandingRequest(d: Dossier, admin: EmployeeId, item: ItemId, c: Catalogue, clothing: set<ItemId>)
    requires Sound(d) && d.order.status == LaundryArrivedOutlet && d.order.fee == 0 && item in c
    requires -10_000_000_000 < c[item] < 10_000_000_000
    ensures var request := [RequestedItem(item, 1.0), RequestedItem(item, -1.0)];
      && MayProcess(Some(d.order), |d.items|, request, 0.0, [], c, clothing)
      && CanStore(request, c, d.order.fee, d.breakdown, [])
      && !Payable(Apply(d, Process(admin, Resolved(request, c), [])))
  {
    var request := [RequestedItem(item, 1.0), RequestedItem(item, -1.0)];
    assert Quantities(request)[0] > 0.0;
    assert d.items == [] by { assert BillSound(d); }
    BackAndForth(item, c[item]);
    var lines := Resolved(request, c);
    assert lines == [Line(item, 1.0, c[item]), Line(item, -1.0, c[item])];
    assert lines[0].quantity > 0.0;
    assert StoredQuantity(1.0) == 100 && StoredQuantity(-1.0) == -100;
    assert Bill(lines, 0) == 0;
  }

  lemma BackAndForth(item: ItemId, price: Cents)
    ensures Charge([Line(item, 1.0, price), Line(item, -1.0, price)]) == 0.0
  {
    var lines := [Line(item, 1.0, price), Line(item, -1.0, price)];
    assert lines[..1] == [Line(item, 1.0, price)];
    assert Charge(lines[..1]) == price as real by { assert lines[..1][..0] == []; }
  }
}
