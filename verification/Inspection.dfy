/** A worker's item count at a station: what is expected, how a submission is compared with it,
    and that only a matching submission completes the station. */
module Inspection {
  import opened Schema
  import opened Pipeline
  import opened Tables
  import opened OrderHandlers

  /** The last entry for an id wins, as in a map filled in order; none counts as zero. */
  function CountOf(counts: seq<Count>, id: ItemId): int {
    if counts == [] then 0
    else if counts[|counts| - 1].id == id then counts[|counts| - 1].quantity
    else CountOf(counts[..|counts| - 1], id)
  }

  predicate Mentions(counts: seq<Count>, id: ItemId) {
    exists k :: 0 <= k < |counts| && counts[k].id == id
  }

  /** m holds exactly the ids mentioned, each with its last count. */
  ghost predicate Represents(m: map<ItemId, int>, counts: seq<Count>) {
    && (forall id :: id in m <==> Mentions(counts, id))
    && forall id :: id in m ==> m[id] == CountOf(counts, id)
  }

  method FillMap(counts: seq<Count>) returns (m: map<ItemId, int>)
    ensures Represents(m, counts)
  {
    m := map[];
    for i := 0 to |counts|
      invariant Represents(m, counts[..i])
    {
      var c := counts[i];
      m := m[c.id := c.quantity];
      assert counts[..i + 1][..i] == counts[..i] && counts[..i + 1][i] == c;
      forall id ensures Mentions(counts[..i + 1], id) <==> Mentions(counts[..i], id) || id == c.id {
        if Mentions(counts[..i], id) {
          var k :| 0 <= k < i && counts[..i][k].id == id;
          assert counts[..i + 1][k].id == id;
        }
      }
    }
    assert counts[..|counts|] == counts;
  }

  /** int32 of a float64 truncates toward zero. */
  function WholePieces(hundredths: int): int {
    if hundredths >= 0 then hundredths / 100 else -(-hundredths / 100)
  }

  lemma PiecesAreWhole(h: int)
    ensures h >= 0 ==> 100 * WholePieces(h) <= h < 100 * (WholePieces(h) + 1)
    ensures WholePieces(-h) == -WholePieces(h)
  {}

  /** The count that stands is that of the last entry for the id, and zero if there is none. */
  lemma {:induction false} LastEntryCounts(counts: seq<Count>, id: ItemId, k: nat)
    requires k < |counts| && counts[k].id == id && forall j :: k < j < |counts| ==> counts[j].id != id
    ensures CountOf(counts, id) == counts[k].quantity
  {
    if k < |counts| - 1 { LastEntryCounts(counts[..|counts| - 1], id, k); }
  }

  /** Whole pieces only: kilogram items are bulk weight, and a fraction of a piece is dropped.
      perPiece are the laundry items whose unit is "pcs". */
  function PieceCounts(items: seq<OrderItem>, perPiece: set<ItemId>): seq<Count> {
    if items == [] then []
    else
      var last := items[|items| - 1];
      PieceCounts(items[..|items| - 1], perPiece)
      + if last.item in perPiece then [Count(last.item, WholePieces(last.quantity))] else []
  }

  method ExpectedItems(breakdowns: seq<Count>, items: seq<OrderItem>, perPiece: set<ItemId>)
    returns (breakdown: map<ItemId, int>, satuan: map<ItemId, int>)
    ensures Represents(breakdown, breakdowns) && Represents(satuan, PieceCounts(items, perPiece))
  {
    breakdown := FillMap(breakdowns);
    var pieces: seq<Count> := [];
    for i := 0 to |items|
      invariant pieces == PieceCounts(items[..i], perPiece)
    {
      assert items[..i + 1][..i] == items[..i];
      if items[i].item in perPiece { pieces := pieces + [Count(items[i].item, WholePieces(items[i].quantity))]; }
    }
    assert items[..|items|] == items;
    satuan := FillMap(pieces);
  }

  datatype ItemType = ClothingType | LaundryItem
  datatype Discrepancy = Discrepancy(kind: ItemType, id: ItemId, expected: int, actual: int)

  /** An expected item whose submitted count differs; items nobody expected are ignored. */
  predicate Differs(x: Discrepancy, kind: ItemType, expected: map<ItemId, int>, actual: seq<Count>) {
    x.kind == kind && x.id in expected && x.expected == expected[x.id] && x.actual == CountOf(actual, x.id) && x.expected != x.actual
  }

  predicate Matches(expected: map<ItemId, int>, actual: seq<Count>) {
    forall id :: id in expected ==> expected[id] == CountOf(actual, id)
  }

  method Compare(kind: ItemType, expected: map<ItemId, int>, actual: seq<Count>) returns (ds: seq<Discrepancy>)
    ensures forall x :: x in ds <==> Differs(x, kind, expected, actual)
    ensures forall i, j :: 0 <= i < j < |ds| ==> ds[i].id != ds[j].id
  {
    var submitted := FillMap(actual);
    var todo := expected.Keys;
    ds := [];
    while todo != {}
      invariant todo <= expected.Keys
      invariant forall x :: x in ds <==> x.id !in todo && Differs(x, kind, expected, actual)
      invariant forall i, j :: 0 <= i < j < |ds| ==> ds[i].id != ds[j].id
      decreases |todo|
    {
      var id :| id in todo;
      var count := if id in submitted then submitted[id] else 0;
      UnmentionedIsZero(actual, id);
      if count != expected[id] { ds := ds + [Discrepancy(kind, id, expected[id], count)]; }
      todo := todo - {id};
    }
  }

  lemma {:induction false} UnmentionedIsZero(counts: seq<Count>, id: ItemId)
    ensures !Mentions(counts, id) ==> CountOf(counts, id) == 0
  {
    if counts != [] && !Mentions(counts, id) {
      var front := counts[..|counts| - 1];
      assert !Mentions(front, id) by { assert forall k :: 0 <= k < |front| ==> front[k] == counts[k]; }
      UnmentionedIsZero(front, id);
    }
  }

  /** Exactly the differing items are reported, each once, and none exactly when all match. */
  method CompareItems(breakdown: map<ItemId, int>, satuan: map<ItemId, int>, items: seq<Count>, satuanItems: seq<Count>)
    returns (ds: seq<Discrepancy>)
    ensures forall x :: x in ds <==> Differs(x, ClothingType, breakdown, items) || Differs(x, LaundryItem, satuan, satuanItems)
    ensures forall i, j :: 0 <= i < j < |ds| ==> ds[i] != ds[j]
    ensures ds == [] <==> Matches(breakdown, items) && Matches(satuan, satuanItems)
  {
    var a := Compare(ClothingType, breakdown, items);
    var b := Compare(LaundryItem, satuan, satuanItems);
    ds := a + b;
    NoDifferenceIffMatch(a, ClothingType, breakdown, items);
    NoDifferenceIffMatch(b, LaundryItem, satuan, satuanItems);
    assert forall i :: 0 <= i < |a| ==> a[i] in a;
    assert forall i :: 0 <= i < |b| ==> b[i] in b;
  }

  lemma NoDifferenceIffMatch(ds: seq<Discrepancy>, kind: ItemType, expected: map<ItemId, int>, actual: seq<Count>)
    requires forall x :: x in ds <==> Differs(x, kind, expected, actual)
    ensures ds == [] <==> Matches(expected, actual)
  {
    if !Matches(expected, actual) {
      var id :| id in expected && expected[id] != CountOf(actual, id);
      assert Discrepancy(kind, id, expected[id], CountOf(actual, id)) in ds;
    }
    assert ds != [] ==> ds[0] in ds;
  }

  /** A submission completes the station if and only if it matches, and then exactly as
      CompleteStation would; a mismatch changes nothing and is left to a bypass request. The
      breakdown and items were read before; once the order is processed they never change. */
  method SubmitItems(db: Database, o: OrderId, station: Station, worker: EmployeeId, seenBreakdown: seq<Count>,
                     seenItems: seq<OrderItem>, perPiece: set<ItemId>, items: seq<Count>, satuanItems: seq<Count>)
    returns (r: Reply, ds: seq<Discrepancy>)
    requires db.Contents().ForeignKeys()
    modifies db
    ensures db.Contents().ForeignKeys()
    ensures r != Accepted ==> db.Contents() == old(db.Contents())
    ensures ds == [] <==> forall id ::
      && (Mentions(seenBreakdown, id) ==> CountOf(seenBreakdown, id) == CountOf(items, id))
      && (Mentions(PieceCounts(seenItems, perPiece), id) ==> CountOf(PieceCounts(seenItems, perPiece), id) == CountOf(satuanItems, id))
    ensures ds != [] <==> r == RequiresBypass
    ensures ds == [] && old(SoundAt(db.Contents(), o)) ==>
      && (r == Accepted <==> old(db.orders)[o].status == station)
      && Commits(old(db.Contents()), db.Contents(), o, Event.CompleteStation(station, worker))
  {
    hide SoundAt, Commits, Snapshot.ForeignKeys;
    var breakdown, satuan := ExpectedItems(seenBreakdown, seenItems, perPiece);
    ds := CompareItems(breakdown, satuan, items, satuanItems);
    if ds != [] { return RequiresBypass, ds; }
    r := OrderHandlers.CompleteStation(db, o, station, worker);
  }

  /** Exactly the per-piece items are expected, each by the whole pieces of its last row. */
  lemma {:induction false} LastRowCounts(items: seq<OrderItem>, perPiece: set<ItemId>, id: ItemId, k: nat)
    requires k < |items| && items[k].item == id && id in perPiece && forall j :: k < j < |items| ==> items[j].item != id
    ensures Mentions(PieceCounts(items, perPiece), id) && CountOf(PieceCounts(items, perPiece), id) == WholePieces(items[k].quantity)
  {
    var n := |items| - 1;
    var front := PieceCounts(items[..n], perPiece);
    if k == n {
      assert PieceCounts(items, perPiece) == front + [Count(id, WholePieces(items[n].quantity))];
      assert PieceCounts(items, perPiece)[|front|].id == id;
    } else {
      LastRowCounts(items[..n], perPiece, id, k);
      if items[n].item in perPiece {
        OtherEntry(front, Count(items[n].item, WholePieces(items[n].quantity)), id);
        assert PieceCounts(items, perPiece) == front + [Count(items[n].item, WholePieces(items[n].quantity))];
      } else {
        assert PieceCounts(items, perPiece) == front;
      }
    }
  }

  lemma OtherEntry(counts: seq<Count>, c: Count, id: ItemId)
    requires c.id != id && Mentions(counts, id)
    ensures Mentions(counts + [c], id) && CountOf(counts + [c], id) == CountOf(counts, id)
  {
    var k :| 0 <= k < |counts| && counts[k].id == id;
    assert (counts + [c])[k].id == id && (counts + [c])[..|counts|] == counts;
  }

  lemma {:induction false} OnlyPieceRowsCount(items: seq<OrderItem>, perPiece: set<ItemId>, id: ItemId)
    ensures Mentions(PieceCounts(items, perPiece), id) ==> id in perPiece && exists k :: 0 <= k < |items| && items[k].item == id
  {
    if items != [] && Mentions(PieceCounts(items, perPiece), id) {
      var n := |items| - 1;
      var all, front := PieceCounts(items, perPiece), PieceCounts(items[..n], perPiece);
      var k :| 0 <= k < |all| && all[k].id == id;
      if k < |front| {
        assert front[k].id == id;
        OnlyPieceRowsCount(items[..n], perPiece, id);
        var i :| 0 <= i < n && items[..n][i].item == id;
        assert items[i].item == id;
      } else {
        assert items[n].item == id;
      }
    }
  }

  /** A per-piece item last stored as n whole pieces matches a submission of n and no other. */
  lemma MatchesWholePieces(items: seq<OrderItem>, perPiece: set<ItemId>, k: nat, n: nat, satuanItems: seq<Count>)
    requires k < |items| && items[k].item in perPiece && items[k].quantity == 100 * n
    requires forall j :: k < j < |items| ==> items[j].item != items[k].item
    ensures CountOf(PieceCounts(items, perPiece), items[k].item) == CountOf(satuanItems, items[k].item)
      <==> CountOf(satuanItems, items[k].item) == n
  {
    LastRowCounts(items, perPiece, items[k].item, k);
    PiecesAreWhole(100 * n);
  }
}
