/** The numbering of bypass requests over whole runs. CreateBypassRequest may insert long after its
    checks, so numbering is not part of the invariant of every run; this is when it holds. */
module Numbering {
  import opened Schema
  import opened Pipeline
  import opened Bypasses
  import opened Runs

  /** If a is an insert, what it read is still true as it happens. */
  predicate ReadsHold(w: World, a: Action) {
    a.On? && a.event.InsertBypass? && a.order in w ==>
      && AllRejected(w[a.order].bypasses, a.event.station)
      && a.event.count == CountNonPending(w[a.order].bypasses, a.event.station)
  }

  predicate AllNumbered(w: World) {
    forall o :: o in w ==> BypassLadder(w[o].bypasses)
  }

  /** A step keeps every order's numbering exactly when it is not an insert on stale reads. */
  lemma StepNumberedIff(w: World, a: Action)
    requires AllNumbered(w)
    ensures AllNumbered(Next(w, a)) <==> ReadsHold(w, a)
  {
    hide BypassLadder, Apply;
    if a.On? && a.order in w {
      var d := w[a.order];
      var w' := Next(w, a);
      assert w'[a.order] == Apply(d, a.event);
      if a.event.InsertBypass? {
        InsertKeepsLadderIffReadsHold(d, a.event.station, a.event.worker, a.event.count);
      } else {
        OthersKeepLadder(d, a.event);
      }
    } else if a.Create? {
      NoRequestsNumbered(a.customer, a.fee);
    }
  }

  lemma NoRequestsNumbered(customer: CustomerId, fee: Cents)
    ensures BypassLadder(Opened(customer, fee).bypasses)
  {}

  /** Over a whole run, every state numbers every station's requests 1..n, n at most 2, exactly
      when every insert of the run happens while its reads are still true. */
  lemma {:induction false} NumberedIffReadsHold(run: seq<World>, acts: seq<Action>)
    requires IsRun(run, acts)
    ensures (forall i :: 0 <= i < |run| ==> AllNumbered(run[i])) <==> (forall i :: 0 <= i < |acts| ==> ReadsHold(run[i], acts[i]))
    decreases |acts|
  {
    hide AllNumbered, ReadsHold, Next, Legal;
    if acts == [] {
      EmptyNumbered();
      assert run == [map[]];
    } else {
      var n := |acts| - 1;
      RunPrefix(run, acts, n);
      var past := run[..n + 1];
      NumberedIffReadsHold(past, acts[..n]);
      assert (forall i :: 0 <= i < |past| ==> AllNumbered(past[i])) <==> (forall i :: 0 <= i < n ==> ReadsHold(run[i], acts[i])) by {
        assert forall i :: 0 <= i < n ==> ReadsHold(past[i], acts[..n][i]) == ReadsHold(run[i], acts[i]);
      }
      assert forall i :: 0 <= i < |past| ==> past[i] == run[i];
      if forall i :: 0 <= i < |past| ==> AllNumbered(past[i]) {
        assert AllNumbered(past[n]);
        StepNumberedIff(run[n], acts[n]);
        assert run[n + 1] == Next(run[n], acts[n]);
      } else {
        var i :| 0 <= i < |past| && !AllNumbered(past[i]);
        assert !AllNumbered(run[i]);
      }
    }
  }

  lemma EmptyNumbered()
    ensures AllNumbered(map[])
  {}

  /** Two workers' checks both run before either insert, and both requests are attempt 1; an admin
      rejects both. Every run that has brought an order to a station without requests goes on like
      that: the numbering is broken, and the next request is answered bypass_limit_reached
      although no second attempt was ever made. */
  lemma OverlapReachesLimit(run: seq<World>, acts: seq<Action>, o: OrderId, s: Station, w1: EmployeeId, w2: EmployeeId, admin: EmployeeId)
    returns (run': seq<World>, acts': seq<Action>)
    requires IsRun(run, acts) && o in run[|acts|] && run[|acts|][o].order.status == s && run[|acts|][o].bypasses == []
    ensures IsRun(run', acts')
    ensures acts' == acts + [On(o, InsertBypass(s, w1, 0)), On(o, InsertBypass(s, w2, 0)), On(o, Review(0, admin, false)), On(o, Review(1, admin, false))]
    ensures o in run'[|acts'|] && run'[|acts'|][o].order.status == s
    ensures !AllNumbered(run'[|acts'|])
    ensures var bs := run'[|acts'|][o].bypasses;
      && !HasPending(bs, s) && CountNonPending(bs, s) >= MAX_BYPASS_ATTEMPTS_PER_STATION
      && forall b :: b in bs ==> b.attempt == 1
  {
    hide IsRun, BypassLadder, Apply, Next, Legal, HasPending, CountNonPending;
    var n := |acts|;
    RunLength(run, acts);
    var d := run[n][o];
    FreshReads(run, n, o, s, w1);
    run', acts' := ExtendOn(run, acts, o, InsertBypass(s, w1, 0));
    FreshReads(run', n, o, s, w2);
    run', acts' := ExtendOn(run', acts', o, InsertBypass(s, w2, 0));
    ReviewIsLegal(run', o, 0, admin);
    run', acts' := ExtendOn(run', acts', o, Review(0, admin, false));
    ReviewIsLegal(run', o, 1, admin);
    run', acts' := ExtendOn(run', acts', o, Review(1, admin, false));
    TwoFirstAttempts(d, s, w1, w2, admin);
  }

  lemma FreshReads(past: seq<World>, n: nat, o: OrderId, s: Station, worker: EmployeeId)
    requires n < |past| && o in past[n] && past[n][o].order.status == s && past[n][o].bypasses == []
    ensures Legal(past, On(o, InsertBypass(s, worker, 0)))
  {
    assert AtStation(past[n], o, s) && NothingPending(past[n], o, s) && Counted(past[n], o, s, 0);
  }

  lemma ReviewIsLegal(past: seq<World>, o: OrderId, index: nat, admin: EmployeeId)
    ensures Legal(past, On(o, Review(index, admin, false)))
  {}

  /** The four transactions on the order's own rows. */
  lemma TwoFirstAttempts(d: Dossier, s: Station, w1: EmployeeId, w2: EmployeeId, admin: EmployeeId)
    requires d.order.status == s && d.bypasses == []
    ensures var d' := Apply(Apply(Apply(Apply(d, InsertBypass(s, w1, 0)), InsertBypass(s, w2, 0)), Review(0, admin, false)), Review(1, admin, false));
      && d'.order.status == s && !BypassLadder(d'.bypasses)
      && !HasPending(d'.bypasses, s) && CountNonPending(d'.bypasses, s) == 2
      && forall b :: b in d'.bypasses ==> b.attempt == 1
  {
    hide BypassLadder, HasPending;
    var first, second := Bypass(s, w1, 1, Rejected, Some(admin)), Bypass(s, w2, 1, Rejected, Some(admin));
    TwoRejected(first, second, s);
    var asked := Apply(Apply(d, InsertBypass(s, w1, 0)), InsertBypass(s, w2, 0));
    assert asked == d.(bypasses := [Bypass(s, w1, 1, Pending, None), Bypass(s, w2, 1, Pending, None)]);
    assert Apply(asked, Review(0, admin, false)) == d.(bypasses := [first, Bypass(s, w2, 1, Pending, None)]);
    assert Apply(Apply(asked, Review(0, admin, false)), Review(1, admin, false)) == d.(bypasses := [first, second]);
  }

  lemma TwoRejected(first: Bypass, second: Bypass, s: Station)
    requires first.station == second.station == s && first.status == second.status == Rejected && first.attempt == second.attempt == 1
    ensures CountNonPending([first, second], s) == 2 && !HasPending([first, second], s) && !BypassLadder([first, second])
  {
    var bs := [first, second];
    assert CountNonPending([first], s) == 1 by { assert [first][..0] == []; }
    assert bs[..1] == [first];
    assert bs[0].station == bs[1].station;
  }
}
