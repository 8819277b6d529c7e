/** How bypass requests are numbered at a station, and when CreateBypassRequest, which checks and
    then inserts without a transaction, keeps the numbering. */
module Bypasses {
  import opened Schema
  import opened Pipeline

  predicate HasPending(bs: seq<Bypass>, s: Station) {
    exists i :: 0 <= i < |bs| && bs[i].station == s && bs[i].status == Pending
  }

  predicate HasRequest(bs: seq<Bypass>, s: Station) {
    exists i :: 0 <= i < |bs| && bs[i].station == s
  }

  /** Numbered rows, as pairs: the earlier is a rejected first attempt, the later a second. */
  predicate PairsNumbered(bs: seq<Bypass>) {
    forall i, j :: 0 <= i < j < |bs| && bs[i].station == bs[j].station ==>
      bs[i].attempt == 1 && bs[i].status == Rejected && bs[j].attempt == 2
  }

  /** Row j has the number its predecessors call for. */
  predicate RowNumbered(bs: seq<Bypass>, j: nat)
    requires j < |bs|
  {
    if HasRequest(bs[..j], bs[j].station) then bs[j].attempt == 2 && bs[j].status != Rejected else bs[j].attempt == 1
  }

  /** Numbered per station: attempt 1, then attempt 2 only after attempt 1 was rejected. */
  predicate BypassLadder(bs: seq<Bypass>) {
    PairsNumbered(bs) && forall j :: 0 <= j < |bs| ==> RowNumbered(bs, j)
  }

  /** Requests at one station, oldest first. */
  function StationRequests(bs: seq<Bypass>, s: Station): (r: seq<Bypass>)
    ensures forall k :: 0 <= k < |r| ==> r[k].station == s && r[k] in bs
    ensures forall b :: b in bs && b.station == s ==> b in r
    ensures r == [] <==> !HasRequest(bs, s)
  {
    if bs == [] then []
    else
      var last := bs[|bs| - 1];
      var front := bs[..|bs| - 1];
      assert forall b :: b in bs <==> b in front || b == last;
      var r := StationRequests(front, s) + if last.station == s then [last] else [];
      assert HasRequest(bs, s) <==> HasRequest(front, s) || last.station == s;
      r
  }

  lemma LadderPrefix(bs: seq<Bypass>, n: nat)
    requires BypassLadder(bs) && n <= |bs|
    ensures BypassLadder(bs[..n])
  {
    forall j | 0 <= j < n ensures RowNumbered(bs[..n], j) {
      assert RowNumbered(bs, j) && bs[..n][..j] == bs[..j];
    }
  }

  lemma EarlierWereRejected(bs: seq<Bypass>)
    requires BypassLadder(bs) && bs != []
    ensures var last := bs[|bs| - 1]; var front := StationRequests(bs[..|bs| - 1], last.station);
      && (forall k :: 0 <= k < |front| ==> front[k].status == Rejected && front[k].attempt == 1)
      && (if front == [] then last.attempt == 1 else last.attempt == 2 && last.status != Rejected)
  {
    var n := |bs| - 1;
    var front := StationRequests(bs[..n], bs[n].station);
    assert RowNumbered(bs, n);
    forall k | 0 <= k < |front| ensures front[k].status == Rejected && front[k].attempt == 1 {
      var i :| 0 <= i < n && bs[i] == front[k];
    }
  }

  /** Numbered 1..n with n <= 2; at most one pending; attempt 2 never rejected; never two approved. */
  lemma {:induction false} RequestsAreNumbered(bs: seq<Bypass>, s: Station)
    requires BypassLadder(bs)
    ensures var r := StationRequests(bs, s);
      && |r| <= MAX_BYPASS_ATTEMPTS_PER_STATION
      && (forall k :: 0 <= k < |r| ==> r[k].attempt == k + 1)
      && (|r| == 2 ==> r[0].status == Rejected && r[1].status != Rejected)
  {
    if bs != [] {
      var n := |bs| - 1;
      LadderPrefix(bs, n);
      RequestsAreNumbered(bs[..n], s);
      if bs[n].station == s { EarlierWereRejected(bs); }
      NextRequest(bs, s);
      hide BypassLadder, HasRequest, StationRequests;
    }
  }

  lemma NextRequest(bs: seq<Bypass>, s: Station)
    requires bs != []
    ensures var n := |bs| - 1;
      StationRequests(bs, s) == StationRequests(bs[..n], s) + if bs[n].station == s then [bs[n]] else []
  {
    hide HasRequest;
  }

  /** CountNonPendingBypassRequests. */
  function CountNonPending(bs: seq<Bypass>, s: Station): nat {
    if bs == [] then 0
    else CountNonPending(bs[..|bs| - 1], s)
         + if bs[|bs| - 1].station == s && bs[|bs| - 1].status != Pending then 1 else 0
  }

  function NonPendingAt(bs: seq<Bypass>, s: Station): set<nat> {
    set i | 0 <= i < |bs| && bs[i].station == s && bs[i].status != Pending
  }

  /** It is the number of that station's requests that are no longer pending. */
  lemma {:induction false} CountIsCardinality(bs: seq<Bypass>, s: Station)
    ensures CountNonPending(bs, s) == |set i | 0 <= i < |bs| && bs[i].station == s && bs[i].status != Pending|
  {
    assert NonPendingAt(bs, s) == set i | 0 <= i < |bs| && bs[i].station == s && bs[i].status != Pending;
    if bs != [] {
      var n := |bs| - 1;
      CountIsCardinality(bs[..n], s);
      NonPendingGrows(bs, s);
      hide NonPendingAt;
    }
  }

  lemma NonPendingGrows(bs: seq<Bypass>, s: Station)
    requires bs != []
    ensures var n := |bs| - 1;
      && n !in NonPendingAt(bs[..n], s)
      && NonPendingAt(bs, s) == NonPendingAt(bs[..n], s) + if bs[n].station == s && bs[n].status != Pending then {n} else {}
  {
    var n := |bs| - 1;
    forall i ensures i in NonPendingAt(bs, s) <==> i in NonPendingAt(bs[..n], s) || (i == n && bs[n].station == s && bs[n].status != Pending) {
      if 0 <= i < n { assert bs[..n][i] == bs[i]; }
    }
  }

  lemma {:induction false} NonPendingAreRequests(bs: seq<Bypass>, s: Station)
    ensures CountNonPending(bs, s) <= |StationRequests(bs, s)|
    ensures !HasPending(bs, s) ==> CountNonPending(bs, s) == |StationRequests(bs, s)|
  {
    if bs != [] {
      var front := bs[..|bs| - 1];
      NonPendingAreRequests(front, s);
      if !HasPending(bs, s) {
        assert !HasPending(front, s) by {
          assert forall i :: 0 <= i < |front| ==> front[i] == bs[i];
        }
      }
    }
  }

  /** While the order sits at a station nothing there has been approved, so if the requests are
      numbered at most one has been decided and bypass_limit_reached cannot be answered. */
  lemma LimitIsNeverReached(d: Dossier, s: Station)
    requires Sound(d) && BypassLadder(d.bypasses) && d.order.status == s
    ensures CountNonPending(d.bypasses, s) < 2
    ensures !HasPending(d.bypasses, s) ==>
      CountNonPending(d.bypasses, s) + 1 == if HasRequest(d.bypasses, s) then 2 else 1
  {
    var bs := d.bypasses;
    RequestsAreNumbered(bs, s);
    NonPendingAreRequests(bs, s);
    var r := StationRequests(bs, s);
    if |r| == 2 {
      var j :| 0 <= j < |bs| && bs[j] == r[1];
      assert BypassOutcome(bs[j], d.history, d.order.status);
      assert bs[j].status == Pending;
      assert HasPending(bs, s);
      PendingNotCounted(bs, s, j);
    }
  }

  lemma {:induction false} PendingNotCounted(bs: seq<Bypass>, s: Station, j: nat)
    requires j < |bs| && bs[j].station == s && bs[j].status == Pending
    ensures CountNonPending(bs, s) < |StationRequests(bs, s)|
  {
    var front := bs[..|bs| - 1];
    NonPendingAreRequests(front, s);
    if j < |bs| - 1 { PendingNotCounted(front, s, j); }
  }

  // ------------------------------------------------------------------------------------------
  // CreateBypassRequest checks, then inserts, without a transaction.

  predicate AllRejected(bs: seq<Bypass>, s: Station) {
    forall i :: 0 <= i < |bs| && bs[i].station == s ==> bs[i].status == Rejected
  }

  /** The insert keeps the numbering exactly when the reads still hold as it happens: every
      request at the station has been rejected, and the count is still the count. */
  lemma InsertKeepsLadderIffReadsHold(d: Dossier, s: Station, worker: EmployeeId, countRead: nat)
    requires BypassLadder(d.bypasses)
    ensures BypassLadder(Apply(d, InsertBypass(s, worker, countRead)).bypasses)
      <==> AllRejected(d.bypasses, s) && countRead == CountNonPending(d.bypasses, s)
  {
    hide BypassLadder, AllRejected;
    var bs := d.bypasses;
    var row := Bypass(s, worker, countRead + 1, Pending, None);
    if BypassLadder(bs + [row]) { LadderShowsReads(bs, row); }
    if AllRejected(bs, s) && countRead == CountNonPending(bs, s) { ReadsKeepLadder(bs, row); }
  }

  lemma AllRejectedRequests(bs: seq<Bypass>, s: Station)
    requires BypassLadder(bs) && AllRejected(bs, s)
    ensures |StationRequests(bs, s)| <= 1
    ensures CountNonPending(bs, s) == |StationRequests(bs, s)|
    ensures forall i :: 0 <= i < |bs| && bs[i].station == s ==> bs[i] == StationRequests(bs, s)[0] && bs[i].attempt == 1
  {
    var r := StationRequests(bs, s);
    RequestsAreNumbered(bs, s);
    NonPendingAreRequests(bs, s);
    forall k | 0 <= k < |r| ensures r[k].status == Rejected {
      var i :| 0 <= i < |bs| && bs[i] == r[k];
    }
    forall i | 0 <= i < |bs| && bs[i].station == s ensures bs[i] == r[0] && bs[i].attempt == 1 {
      assert bs[i] in r;
    }
  }

  lemma LadderShowsReads(bs: seq<Bypass>, row: Bypass)
    requires BypassLadder(bs) && BypassLadder(bs + [row])
    ensures AllRejected(bs, row.station) && row.attempt == CountNonPending(bs, row.station) + 1
  {
    var bs' := bs + [row];
    forall i | 0 <= i < |bs| && bs[i].station == row.station ensures bs[i].status == Rejected && row.attempt == 2 {
      assert bs'[i].station == bs'[|bs|].station;
    }
    AllRejectedRequests(bs, row.station);
    assert RowNumbered(bs', |bs|) && bs'[..|bs|] == bs;
    assert bs'[|bs|] == row;
  }

  lemma EarlierRowsStay(bs: seq<Bypass>, row: Bypass, j: nat)
    requires j < |bs|
    ensures RowNumbered(bs + [row], j) == RowNumbered(bs, j)
  {
    assert (bs + [row])[..j] == bs[..j];
  }

  lemma NewPairs(bs: seq<Bypass>, row: Bypass)
    requires PairsNumbered(bs) && AllRejected(bs, row.station)
    requires forall i :: 0 <= i < |bs| && bs[i].station == row.station ==> bs[i].attempt == 1 && row.attempt == 2
    ensures PairsNumbered(bs + [row])
  {}

  lemma ReadsKeepLadder(bs: seq<Bypass>, row: Bypass)
    requires BypassLadder(bs) && AllRejected(bs, row.station)
    requires row.attempt == CountNonPending(bs, row.station) + 1 && row.status == Pending && row.reviewedBy == None
    ensures BypassLadder(bs + [row])
  {
    hide PairsNumbered, AllRejected, CountNonPending;
    var bs' := bs + [row];
    AllRejectedRequests(bs, row.station);
    forall i | 0 <= i < |bs| && bs[i].station == row.station ensures bs[i].attempt == 1 && row.attempt == 2 {
      assert bs[i] in StationRequests(bs, row.station);
    }
    NewPairs(bs, row);
    forall j | 0 <= j < |bs'| ensures RowNumbered(bs', j) {
      if j < |bs| {
        assert RowNumbered(bs, j);
        EarlierRowsStay(bs, row, j);
      } else {
        assert bs'[..j] == bs && bs'[j] == row;
      }
    }
  }

  /** At the station itself the pending check is the whole of "every request was rejected". */
  lemma PendingCheckSuffices(d: Dossier, s: Station)
    requires Sound(d) && d.order.status == s
    ensures AllRejected(d.bypasses, s) <==> !HasPending(d.bypasses, s)
  {
    assert forall i :: 0 <= i < |d.bypasses| ==> BypassOutcome(d.bypasses[i], d.history, d.order.status);
  }

  lemma DecisionKeepsLadder(bs: seq<Bypass>, index: nat, status: BypassStatus, admin: EmployeeId)
    requires BypassLadder(bs) && index < |bs| && bs[index].status == Pending && status != Pending
    requires status == Rejected ==> bs[index].attempt < MAX_BYPASS_ATTEMPTS_PER_STATION
    ensures BypassLadder(bs[index := Decided(bs[index], status, admin)])
  {
    var bs' := bs[index := Decided(bs[index], status, admin)];
    forall j | 0 <= j < |bs| ensures RowNumbered(bs', j) {
      assert RowNumbered(bs, j);
      assert forall i :: 0 <= i < j ==> bs'[..j][i].station == bs[..j][i].station;
    }
  }

  /** Everything but an insert keeps the numbering. */
  lemma OthersKeepLadder(d: Dossier, e: Event)
    requires BypassLadder(d.bypasses) && !e.InsertBypass?
    ensures BypassLadder(Apply(d, e).bypasses)
  {
    if e.Review? && e.index < |d.bypasses| && d.bypasses[e.index].status == Pending {
      var status := if !e.approve && d.bypasses[e.index].attempt < MAX_BYPASS_ATTEMPTS_PER_STATION then Rejected else Approved;
      DecisionKeepsLadder(d.bypasses, e.index, status, e.admin);
      hide BypassLadder;
    }
  }
}
