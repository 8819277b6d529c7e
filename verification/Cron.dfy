/** The auto-completion job among any other transactions, and what it leaves behind. */
module Cron {
  import opened Schema
  import opened Pipeline
  import opened Records
  import opened Runs
  import opened Tables
  import opened OrderHandlers

  // ------------------------------------------------------------------------------------------
  // What happens while the job runs is a piece of a run.

  datatype Piece = Piece(worlds: seq<World>, acts: seq<Action>)

  predicate CanHappen(w: World, a: Action) {
    a.On? && a.order in w ==> Enabled(w[a.order], a.event)
  }

  /** worlds[i] is the committed state after the first i actions. */
  predicate IsPiece(p: Piece) {
    && |p.worlds| == |p.acts| + 1
    && forall i :: 0 <= i < |p.acts| ==> CanHappen(p.worlds[i], p.acts[i]) && p.worlds[i + 1] == Next(p.worlds[i], p.acts[i])
  }

  function Last(p: Piece): World
    requires IsPiece(p)
  {
    p.worlds[|p.acts|]
  }

  function Then(p: Piece, a: Action): Piece
    requires IsPiece(p)
  {
    Piece(p.worlds + [Next(Last(p), a)], p.acts + [a])
  }

  lemma PieceGrows(p: Piece, a: Action)
    requires IsPiece(p) && CanHappen(Last(p), a)
    ensures IsPiece(Then(p, a)) && Last(Then(p, a)) == Next(Last(p), a)
  {
    hide CanHappen, Next;
  }

  predicate Extends(p: Piece, p': Piece) {
    p.worlds <= p'.worlds && p.acts <= p'.acts
  }

  /** Nothing ever moves an order back. */
  predicate OnlyForward(w: World, w': World) {
    forall o :: o in w ==> o in w' && Rank(w[o].order.status) <= Rank(w'[o].order.status)
  }

  lemma NextIsForward(w: World, a: Action)
    ensures OnlyForward(w, Next(w, a))
  {
    hide Apply;
    if a.On? && a.order in w { OneRowPerMove(w[a.order], a.event); }
  }

  // ------------------------------------------------------------------------------------------
  // Everybody else, each transaction as its effect on the tables.

  function PutTask(tasks: map<TaskKey, DriverTask>, k: TaskKey, t: Option<DriverTask>): map<TaskKey, DriverTask> {
    if t.Some? then tasks[k := t.value] else tasks - {k}
  }

  /** The tables with order o's rows replaced. */
  function WithDossier(s: Snapshot, o: OrderId, d: Dossier): Snapshot {
    s.(orders := s.orders[o := d.order],
       tasks := PutTask(PutTask(s.tasks, TaskKey(o, Pickup), d.pickup), TaskKey(o, Delivery), d.delivery),
       payments := if d.payment.Some? then s.payments[o := d.payment.value] else s.payments - {o},
       histories := s.histories[o := d.history],
       items := s.items[o := d.items],
       breakdowns := s.breakdowns[o := d.breakdown],
       bypasses := s.bypasses[o := d.bypasses])
  }

  lemma WithDossierHasIt(s: Snapshot, o: OrderId, d: Dossier)
    ensures WithDossier(s, o, d).DossierOf(o) == d
    ensures forall p :: p in s.orders && p != o ==> WithDossier(s, o, d).DossierOf(p) == s.DossierOf(p)
  {}

  lemma WithDossierKeepsKeys(s: Snapshot, o: OrderId, d: Dossier)
    requires s.ForeignKeys()
    ensures WithDossier(s, o, d).ForeignKeys()
  {}

  lemma WithDossierWorld(s: Snapshot, o: OrderId, d: Dossier)
    ensures WithDossier(s, o, d).World() == s.World()[o := d]
  {
    WithDossierHasIt(s, o, d);
    assert WithDossier(s, o, d).orders.Keys == s.orders.Keys + {o};
    hide Snapshot.DossierOf, WithDossier;
  }

  /** Any one transaction of anybody, if it can happen now. */
  method Transact(db: Database, a: Action, ghost p: Piece) returns (ghost p': Piece, ghost happened: bool)
    requires db.Contents().ForeignKeys() && IsPiece(p) && Last(p) == db.Contents().World()
    modifies db
    ensures db.Contents().ForeignKeys() && IsPiece(p') && Last(p') == db.Contents().World()
    ensures p' == if happened then Then(p, a) else p
    ensures OnlyForward(old(db.Contents().World()), db.Contents().World())
  {
    hide Snapshot.World, Snapshot.DossierOf, WithDossier, Apply, Opened, Enabled, Snapshot.ForeignKeys;
    var s := db.Contents();
    WorldHasDossiers(s);
    NextIsForward(Last(p), a);
    p', happened := p, false;
    match a
    case Create(o, customer, fee) =>
      if o !in db.orders {
        db.Rollback(WithDossier(s, o, Opened(customer, fee)));
        WithDossierWorld(s, o, Opened(customer, fee));
        WithDossierKeepsKeys(s, o, Opened(customer, fee));
        PieceGrows(p, a);
        p', happened := Then(p, a), true;
      }
    case On(o, e) =>
      if o in db.orders && Enabled(s.DossierOf(o), e) {
        var d := Apply(s.DossierOf(o), e);
        db.Rollback(WithDossier(s, o, d));
        WithDossierWorld(s, o, d);
        WithDossierKeepsKeys(s, o, d);
        PieceGrows(p, a);
        p', happened := Then(p, a), true;
      }
    if !happened { NothingMoved(s.World()); }
  }

  lemma NothingMoved(w: World)
    ensures OnlyForward(w, w)
  {}

  lemma WorldHasDossiers(s: Snapshot)
    ensures s.World().Keys == s.orders.Keys
    ensures forall o :: o in s.orders ==> s.World()[o] == s.DossierOf(o)
  {}

  /** Transactions of others between two steps of the job. */
  method Others(db: Database, acts: seq<Action>, ghost p: Piece) returns (ghost p': Piece)
    requires db.Contents().ForeignKeys() && IsPiece(p) && Last(p) == db.Contents().World()
    modifies db
    ensures db.Contents().ForeignKeys() && IsPiece(p') && Last(p') == db.Contents().World()
    ensures Extends(p, p') && forall i :: |p.acts| <= i < |p'.acts| ==> p'.acts[i] in acts
    ensures OnlyForward(old(db.Contents().World()), db.Contents().World())
  {
    hide Snapshot.World, Snapshot.DossierOf, Snapshot.ForeignKeys, IsPiece, OnlyForward, Last;
    p' := p;
    ghost var start := db.Contents().World();
    NothingMoved(start);
    for j := 0 to |acts|
      invariant db.Contents().ForeignKeys() && IsPiece(p') && Last(p') == db.Contents().World()
      invariant Extends(p, p') && forall i :: |p.acts| <= i < |p'.acts| ==> p'.acts[i] in acts
      invariant OnlyForward(start, db.Contents().World())
    {
      ghost var before, w := p', db.Contents().World();
      ghost var happened;
      p', happened := Transact(db, acts[j], before);
      ForwardTwice(start, w, db.Contents().World());
    }
  }

  lemma ForwardTwice(a: World, b: World, c: World)
    requires OnlyForward(a, b) && OnlyForward(b, c)
    ensures OnlyForward(a, c)
  {}

  // ------------------------------------------------------------------------------------------
  // The job.

  /** One iteration's transaction; true if it completed the order. */
  method AutoComplete(db: Database, o: OrderId) returns (moved: bool)
    requires db.Contents().ForeignKeys()
    modifies db
    ensures db.Contents().ForeignKeys()
    ensures moved <==> o in old(db.orders) && old(db.orders)[o].status == ReceivedByCustomer
    ensures Commits(old(db.Contents()), db.Contents(), o, Event.AutoComplete)
  {
    hide Commits, Snapshot.World, Apply, Snapshot.DossierOf, OnlyTouches;
    ghost var before := db.Contents();
    moved := db.UpdateOrderStatusIfCurrent(o, Completed, ReceivedByCustomer);
    if moved {
      db.CreateOrderStatusHistory(o, Some(ReceivedByCustomer), Completed, BySystem);
      CompletionCommits(before, db.Contents(), o);
    } else {
      NoCompletionCommits(before, o);
    }
  }

  lemma CompletionCommits(s: Snapshot, s': Snapshot, o: OrderId)
    requires o in s.orders && s.orders[o].status == ReceivedByCustomer
    requires s' == s.(
      orders := s.orders[o := s.orders[o].(status := Completed)],
      histories := s.histories[o := RowsOf(s.histories, o) + [HistoryRow(Some(ReceivedByCustomer), Completed, BySystem)]])
    ensures Commits(s, s', o, Event.AutoComplete)
  {
    hide Commits;
    CommitsBy(s, s', o, Event.AutoComplete);
  }

  lemma NoCompletionCommits(s: Snapshot, o: OrderId)
    requires !(o in s.orders && s.orders[o].status == ReceivedByCustomer)
    ensures Commits(s, s, o, Event.AutoComplete)
  {
    UnchangedCommits(s, o, Event.AutoComplete);
  }

  predicate Due(orders: map<OrderId, Order>, o: OrderId, now: Time) {
    && o in orders && orders[o].status == ReceivedByCustomer
    && orders[o].autoConfirmAt.Some? && orders[o].autoConfirmAt.value <= now
  }

  /** The first n candidates are completed, the others at least received. */
  predicate Swept(w: World, candidates: seq<OrderId>, n: nat) {
    forall k :: 0 <= k < |candidates| ==>
      candidates[k] in w && Rank(w[candidates[k]].order.status) >= Rank(if k < n then Completed else ReceivedByCustomer)
  }

  lemma SweptStays(w: World, w': World, candidates: seq<OrderId>, n: nat)
    requires Swept(w, candidates, n) && OnlyForward(w, w')
    ensures Swept(w', candidates, n)
  {}

  lemma SweptStart(s: Snapshot, candidates: seq<OrderId>, now: Time)
    requires forall k :: 0 <= k < |candidates| ==> Due(s.orders, candidates[k], now)
    ensures Swept(s.World(), candidates, 0)
  {
    WorldHasDossiers(s);
  }

  lemma SweptNext(w: World, candidates: seq<OrderId>, n: nat)
    requires Swept(w, candidates, n) && n < |candidates|
    ensures Swept(Next(w, On(candidates[n], Event.AutoComplete)), candidates, n + 1)
  {}

  lemma SweptAll(s: Snapshot, candidates: seq<OrderId>)
    requires Swept(s.World(), candidates, |candidates|)
    ensures forall k :: 0 <= k < |candidates| ==> candidates[k] in s.orders && s.orders[candidates[k]].status == Completed
  {
    WorldHasDossiers(s);
  }

  /** own[k] is where in the piece the job's k-th transaction is, the completion of candidate k. */
  predicate OwnSteps(p: Piece, own: seq<nat>, candidates: seq<OrderId>) {
    && |own| <= |candidates|
    && (forall k :: 0 <= k < |own| ==> own[k] < |p.acts| && p.acts[own[k]] == On(candidates[k], Event.AutoComplete))
    && forall j, k :: 0 <= j < k < |own| ==> own[j] < own[k]
  }

  function CountMoved(p: Piece, own: seq<nat>, candidates: seq<OrderId>): nat
    requires IsPiece(p) && OwnSteps(p, own, candidates)
  {
    if own == [] then 0
    else
      var n := |own| - 1;
      CountMoved(p, own[..n], candidates) + if Moves(p.worlds, own[n], candidates[n]) then 1 else 0
  }

  lemma OwnStepsStay(p: Piece, p': Piece, own: seq<nat>, candidates: seq<OrderId>)
    requires IsPiece(p) && IsPiece(p') && Extends(p, p') && OwnSteps(p, own, candidates)
    ensures OwnSteps(p', own, candidates) && CountMoved(p', own, candidates) == CountMoved(p, own, candidates)
  {
    if own != [] {
      var n := |own| - 1;
      OwnStepsStay(p, p', own[..n], candidates);
      assert p'.worlds[own[n]] == p.worlds[own[n]] && p'.worlds[own[n] + 1] == p.worlds[own[n] + 1];
    }
  }

  function MovedAt(p: Piece, own: seq<nat>, candidates: seq<OrderId>): set<nat>
    requires IsPiece(p) && OwnSteps(p, own, candidates)
  {
    set k | 0 <= k < |own| && Moves(p.worlds, own[k], candidates[k])
  }

  lemma {:induction false} CountIsCardinality(p: Piece, own: seq<nat>, candidates: seq<OrderId>)
    requires IsPiece(p) && OwnSteps(p, own, candidates)
    ensures CountMoved(p, own, candidates) == |MovedAt(p, own, candidates)|
  {
    hide Moves, Next, CanHappen;
    if own != [] {
      var n := |own| - 1;
      CountIsCardinality(p, own[..n], candidates);
      forall k ensures k in MovedAt(p, own, candidates) <==> k in MovedAt(p, own[..n], candidates) || (k == n && Moves(p.worlds, own[n], candidates[n])) {
        if 0 <= k < n { assert own[..n][k] == own[k]; }
      }
      assert MovedAt(p, own, candidates) == MovedAt(p, own[..n], candidates) + if Moves(p.worlds, own[n], candidates[n]) then {n} else {};
    }
  }

  /** The job's next transaction takes its place at the end. */
  lemma OwnStepAdded(p: Piece, own: seq<nat>, candidates: seq<OrderId>, moved: bool)
    requires IsPiece(p) && OwnSteps(p, own, candidates) && |own| < |candidates|
    requires var o := candidates[|own|]; moved <==> o in Last(p) && Last(p)[o].order.status == ReceivedByCustomer
    ensures var p', own' := Then(p, On(candidates[|own|], Event.AutoComplete)), own + [|p.acts|];
      && IsPiece(p') && Extends(p, p') && OwnSteps(p', own', candidates)
      && CountMoved(p', own', candidates) == CountMoved(p, own, candidates) + if moved then 1 else 0
  {
    hide Next, CanHappen, OwnSteps, CountMoved, IsPiece, Moves, Then, Last, Extends;
    var o := candidates[|own|];
    var a := On(o, Event.AutoComplete);
    CompletionCanHappen(Last(p), o);
    PieceGrows(p, a);
    ThenEnds(p, a);
    OwnStepsStay(p, Then(p, a), own, candidates);
    OwnStepFits(p, Then(p, a), own, candidates);
    CountOneMore(Then(p, a), own, |p.acts|, candidates);
    OwnMove(p, o);
  }

  lemma OwnMove(p: Piece, o: OrderId)
    requires IsPiece(p)
    ensures var p' := Then(p, On(o, Event.AutoComplete));
      |p'.worlds| == |p.acts| + 2
      && (Moves(p'.worlds, |p.acts|, o) <==> o in Last(p) && Last(p)[o].order.status == ReceivedByCustomer)
  {
    hide Next;
    ThenEnds(p, On(o, Event.AutoComplete));
    CompletionMovesIff(Last(p), o);
  }

  lemma ThenEnds(p: Piece, a: Action)
    requires IsPiece(p)
    ensures var p' := Then(p, a); Extends(p, p') && |p'.acts| == |p.acts| + 1 && p'.acts[|p.acts|] == a
    ensures var p' := Then(p, a); |p'.worlds| == |p'.acts| + 1 && p'.worlds[|p.acts|] == Last(p) && p'.worlds[|p.acts| + 1] == Next(Last(p), a)
  {}

  lemma OwnStepFits(p: Piece, p': Piece, own: seq<nat>, candidates: seq<OrderId>)
    requires OwnSteps(p, own, candidates) && OwnSteps(p', own, candidates) && |own| < |candidates|
    requires |p'.acts| == |p.acts| + 1 && p'.acts[|p.acts|] == On(candidates[|own|], Event.AutoComplete)
    ensures OwnSteps(p', own + [|p.acts|], candidates)
  {}

  lemma CountOneMore(p: Piece, own: seq<nat>, i: nat, candidates: seq<OrderId>)
    requires IsPiece(p) && OwnSteps(p, own, candidates) && OwnSteps(p, own + [i], candidates)
    ensures i < |p.acts|
    ensures CountMoved(p, own + [i], candidates) == CountMoved(p, own, candidates) + if Moves(p.worlds, i, candidates[|own|]) then 1 else 0
  {
    assert (own + [i])[..|own|] == own;
    assert (own + [i])[|own|] == i;
  }

  lemma CompletionCanHappen(w: World, o: OrderId)
    ensures CanHappen(w, On(o, Event.AutoComplete))
  {}

  lemma CompletionMovesIff(w: World, o: OrderId)
    ensures var w' := Next(w, On(o, Event.AutoComplete));
      o in w && o in w' && w'[o].order.status != w[o].order.status <==> o in w && w[o].order.status == ReceivedByCustomer
  {}

  predicate IsOthers(a: Action, rivals: seq<seq<Action>>) {
    exists r :: 0 <= r < |rivals| && a in rivals[r]
  }

  /** Every step of the piece is the job's or one of the rivals'. */
  predicate Accounted(p: Piece, own: seq<nat>, rivals: seq<seq<Action>>) {
    forall i :: 0 <= i < |p.acts| ==> i in own || IsOthers(p.acts[i], rivals)
  }

  lemma OthersAccounted(p: Piece, p': Piece, own: seq<nat>, rivals: seq<seq<Action>>, r: nat)
    requires Accounted(p, own, rivals) && Extends(p, p') && r < |rivals|
    requires forall i :: |p.acts| <= i < |p'.acts| ==> p'.acts[i] in rivals[r]
    ensures Accounted(p', own, rivals)
  {
    assert forall i :: 0 <= i < |p.acts| ==> p'.acts[i] == p.acts[i];
  }

  lemma OwnAccounted(p: Piece, p': Piece, own: seq<nat>, rivals: seq<seq<Action>>)
    requires Accounted(p, own, rivals) && Extends(p, p') && |p'.acts| == |p.acts| + 1
    ensures Accounted(p', own + [|p.acts|], rivals)
  {
    assert forall i :: 0 <= i < |p.acts| ==> p'.acts[i] == p.acts[i];
    assert forall i :: i in own ==> i in own + [|p.acts|];
    assert (own + [|p.acts|])[|own|] == |p.acts|;
  }

  lemma WorldTellsStatus(s: Snapshot, o: OrderId)
    ensures o in s.World() && s.World()[o].order.status == ReceivedByCustomer <==> o in s.orders && s.orders[o].status == ReceivedByCustomer
  {
    WorldHasDossiers(s);
  }

  /** rivals[i] are the transactions of any kind that commit between the candidate query and the
      job's i-th transaction. What happens is a piece of a run, in which the job takes exactly one
      step per candidate and the others only theirs. The candidates are the received orders whose
      deadline has passed; all end up completed; and the count is the number of them that the
      job's own step moved. */
  method RunAutoCompleteOrders(db: Database, now: Time, rivals: seq<seq<Action>>)
    returns (completed: nat, candidates: seq<OrderId>, ghost p: Piece, ghost own: seq<nat>)
    requires db.Contents().ForeignKeys()
    modifies db
    ensures db.Contents().ForeignKeys()
    ensures forall o :: o in candidates <==> Due(old(db.orders), o, now)
    ensures forall o :: o in candidates <==>
      && o in old(db.orders) && old(db.orders)[o].status == ReceivedByCustomer
      && old(db.orders)[o].autoConfirmAt.Some? && old(db.orders)[o].autoConfirmAt.value <= now
    ensures forall i, j :: 0 <= i < j < |candidates| ==> candidates[i] != candidates[j]
    ensures forall k :: 0 <= k < |candidates| ==> candidates[k] in db.orders && db.orders[candidates[k]].status == Completed
    ensures IsPiece(p) && p.worlds[0] == old(db.Contents().World()) && Last(p) == db.Contents().World()
    ensures OwnSteps(p, own, candidates) && |own| == |candidates| && Accounted(p, own, rivals)
    ensures forall j, k :: 0 <= j < k < |own| ==> own[j] < own[k] < |p.acts|
    ensures forall k :: 0 <= k < |own| ==> own[k] < |p.acts| && p.acts[own[k]] == On(candidates[k], Event.AutoComplete)
    ensures completed == CountMoved(p, own, candidates) == |set k | 0 <= k < |own| && Moves(p.worlds, own[k], candidates[k])|
  {
    hide Snapshot.World, Snapshot.DossierOf, Snapshot.ForeignKeys, Swept, OwnSteps, CountMoved, Accounted, OnlyForward, Next, Commits;
    completed, p, own := 0, Piece([db.Contents().World()], []), [];
    candidates := db.ListOrdersReadyForAutoComplete(now);
    JobStarts(db.Contents(), candidates, now, rivals);
    hide IsPiece, Last, Due;
    for i := 0 to |candidates|
      invariant db.Contents().ForeignKeys() && IsPiece(p) && Last(p) == db.Contents().World()
      invariant Extends(Piece([old(db.Contents().World())], []), p)
      invariant Swept(db.Contents().World(), candidates, i)
      invariant OwnSteps(p, own, candidates) && |own| == i && Accounted(p, own, rivals)
      invariant completed == CountMoved(p, own, candidates)
    {
      var n;
      n, p, own := Iterate(db, candidates, i, rivals, p, own);
      completed := completed + n;
    }
    SweptAll(db.Contents(), candidates);
    CountIsCardinality(p, own, candidates);
    OwnStepsMean(p, own, candidates);
  }

  lemma OwnStepsMean(p: Piece, own: seq<nat>, candidates: seq<OrderId>)
    requires OwnSteps(p, own, candidates) && |own| == |candidates|
    ensures forall j, k :: 0 <= j < k < |own| ==> own[j] < own[k] < |p.acts|
    ensures forall k :: 0 <= k < |own| ==> own[k] < |p.acts| && p.acts[own[k]] == On(candidates[k], Event.AutoComplete)
  {}

  lemma JobStarts(s: Snapshot, candidates: seq<OrderId>, now: Time, rivals: seq<seq<Action>>)
    requires forall o :: o in candidates <==> Due(s.orders, o, now)
    ensures var p := Piece([s.World()], []);
      && IsPiece(p) && Last(p) == s.World() && OwnSteps(p, [], candidates) && CountMoved(p, [], candidates) == 0
      && Accounted(p, [], rivals) && Swept(s.World(), candidates, 0)
  {
    SweptStart(s, candidates, now);
  }

  /** One iteration, after what the others got in before it. */
  method Iterate(db: Database, candidates: seq<OrderId>, i: nat, rivals: seq<seq<Action>>, ghost p: Piece, ghost own: seq<nat>)
    returns (n: nat, ghost p': Piece, ghost own': seq<nat>)
    requires db.Contents().ForeignKeys() && IsPiece(p) && Last(p) == db.Contents().World()
    requires i < |candidates| && Swept(db.Contents().World(), candidates, i)
    requires OwnSteps(p, own, candidates) && |own| == i && Accounted(p, own, rivals)
    modifies db
    ensures db.Contents().ForeignKeys() && IsPiece(p') && Last(p') == db.Contents().World()
    ensures Extends(p, p') && Swept(db.Contents().World(), candidates, i + 1)
    ensures OwnSteps(p', own', candidates) && |own'| == i + 1 && Accounted(p', own', rivals)
    ensures CountMoved(p', own', candidates) == CountMoved(p, own, candidates) + n
  {
    hide Snapshot.World, Snapshot.DossierOf, Snapshot.ForeignKeys, IsPiece, Last, Swept, OwnSteps, CountMoved, Accounted, OnlyForward, Next;
    var o := candidates[i];
    ghost var w, q := db.Contents().World(), p;
    if i < |rivals| {
      q := Others(db, rivals[i], p);
      OthersAccounted(p, q, own, rivals, i);
      SweptStays(w, db.Contents().World(), candidates, i);
      OwnStepsStay(p, q, own, candidates);
    }
    w := db.Contents().World();
    WorldTellsStatus(db.Contents(), o);
    var moved := AutoComplete(db, o);
    OwnStepAdded(q, own, candidates, moved);
    SweptNext(w, candidates, i);
    p', own' := Then(q, On(o, Event.AutoComplete)), own + [|q.acts|];
    ThenLast(q, On(o, Event.AutoComplete));
    OwnAccounted(q, p', own, rivals);
    n := if moved then 1 else 0;
  }

  lemma ThenLast(p: Piece, a: Action)
    requires IsPiece(p) && IsPiece(Then(p, a))
    ensures Last(Then(p, a)) == Next(Last(p), a) && |Then(p, a).acts| == |p.acts| + 1
  {}

  // ------------------------------------------------------------------------------------------

  lemma PiecePrefix(p: Piece, n: nat)
    requires IsPiece(p) && n <= |p.acts|
    ensures IsPiece(Piece(p.worlds[..n + 1], p.acts[..n]))
  {}

  /** A received order that ends completed was moved by exactly one step of the piece: what the job
      counts nobody else counts, whatever came between. */
  lemma {:induction false} ClosedByExactlyOne(p: Piece, o: OrderId) returns (k: nat)
    requires IsPiece(p) && o in p.worlds[0] && p.worlds[0][o].order.status == ReceivedByCustomer
    requires o in Last(p) && Last(p)[o].order.status == Completed
    ensures k < |p.acts| && Moves(p.worlds, k, o)
    ensures forall j :: 0 <= j < |p.acts| && Moves(p.worlds, j, o) ==> j == k
    decreases |p.acts|
  {
    hide Next, CanHappen;
    var n := |p.acts| - 1;
    ReceivedUntil(p, o, n);
    var before := p.worlds[n][o].order.status;
    PiecePrefix(p, n);
    var q := Piece(p.worlds[..n + 1], p.acts[..n]);
    if before == Completed {
      k := ClosedByExactlyOne(q, o);
      assert forall j :: 0 <= j < n ==> Moves(q.worlds, j, o) == Moves(p.worlds, j, o);
    } else {
      k := n;
      forall j | 0 <= j < n ensures !Moves(p.worlds, j, o) {
        ReceivedUntil(q, o, j);
        ReceivedUntil(q, o, j + 1);
        StaysBetween(q, o, j);
        StaysBetween(q, o, j + 1);
      }
    }
  }

  /** From received on an order is received or completed. */
  lemma {:induction false} ReceivedUntil(p: Piece, o: OrderId, i: nat)
    requires IsPiece(p) && i <= |p.acts| && o in p.worlds[0] && p.worlds[0][o].order.status == ReceivedByCustomer
    ensures o in p.worlds[i] && Rank(p.worlds[i][o].order.status) >= Rank(ReceivedByCustomer)
  {
    hide Next, CanHappen;
    if i > 0 {
      ReceivedUntil(p, o, i - 1);
      NextIsForward(p.worlds[i - 1], p.acts[i - 1]);
    }
  }

  lemma {:induction false} StaysBetween(p: Piece, o: OrderId, i: nat)
    requires IsPiece(p) && i <= |p.acts| && o in p.worlds[i]
    ensures o in Last(p) && Rank(p.worlds[i][o].order.status) <= Rank(Last(p)[o].order.status)
    decreases |p.acts|
  {
    hide Next, CanHappen;
    var n := |p.acts|;
    if i < n {
      PiecePrefix(p, n - 1);
      StaysBetween(Piece(p.worlds[..n], p.acts[..n - 1]), o, i);
      NextIsForward(p.worlds[n - 1], p.acts[n - 1]);
    }
  }

  predicate IsClosing(a: Action) {
    a.On? && (a.event.Confirm? || a.event.AutoComplete?)
  }

  /** With only confirmations and completions about, an order is left as it was or was received and
      got completed once, in the name of whoever's step did it. */
  lemma {:induction false} ClosingsOnlyClose(p: Piece, o: OrderId) returns (k: nat)
    requires IsPiece(p) && o in p.worlds[0] && forall i :: 0 <= i < |p.acts| ==> IsClosing(p.acts[i])
    ensures o in Last(p)
    ensures var d, d' := p.worlds[0][o], Last(p)[o];
      || d' == d
      || (d.order.status == ReceivedByCustomer && k < |p.acts| && Moves(p.worlds, k, o)
          && d' == Advance(d, Completed, if p.acts[k].event.AutoComplete? then BySystem else ByCustomer(d.order.customer)))
    decreases |p.acts|
  {
    k := 0;
    if p.acts != [] {
      var n := |p.acts| - 1;
      PiecePrefix(p, n);
      k := ClosingsOnlyClose(Piece(p.worlds[..n + 1], p.acts[..n]), o);
      ClosingStep(p.worlds[n], p.acts[n], o);
      if p.worlds[n + 1][o] != p.worlds[n][o] { k := n; }
    }
  }

  lemma ClosingStep(w: World, a: Action, o: OrderId)
    requires IsClosing(a) && o in w
    ensures o in Next(w, a)
    ensures Next(w, a)[o] == w[o]
      || (w[o].order.status == ReceivedByCustomer
          && Next(w, a)[o] == Advance(w[o], Completed, if a.event.AutoComplete? then BySystem else ByCustomer(w[o].order.customer)))
  {}
}
