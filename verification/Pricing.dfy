/** What ProcessOrder charges and what it stores. The request's quantities are arbitrary reals
    (a JSON number); the stored quantity has two decimals, and so has the total. */
module Pricing {
  import opened Schema

  /** A resolved request line: base price in cents, read from the catalogue. */
  datatype Line = Line(item: ItemId, quantity: real, price: Cents)

  /** NUMERIC's rounding to its last digit: half away from zero. */
  function Round(x: real): int {
    if x >= 0.0 then (x + 0.5).Floor else -((-x + 0.5).Floor)
  }

  /** To the nearest integer, and from half-way to the one farther from zero. */
  lemma RoundIsNearest(x: real)
    ensures -0.5 <= Round(x) as real - x <= 0.5
    ensures Round(-x) == -Round(x)
    ensures x > 0.0 && x == x.Floor as real + 0.5 ==> Round(x) == x.Floor + 1
  {
    if x != 0.0 { RoundIsOdd(if x > 0.0 then x else -x); }
  }

  lemma RoundIsOdd(x: real)
    requires x > 0.0
    ensures Round(-x) == -Round(x)
  {
    assert -(-x) == x;
  }

  function Extend(price: Cents, q: real): real {
    price as real * q
  }

  /** Cents, before rounding, that the loop of ProcessOrder accumulates. */
  function Charge(request: seq<Line>): real {
    if request == [] then 0.0
    else Charge(request[..|request| - 1]) + Extend(request[|request| - 1].price, request[|request| - 1].quantity)
  }

  /** The charge is a sum over lines of price times quantity. */
  lemma {:induction false} ChargeIsSum(a: seq<Line>, b: seq<Line>)
    ensures Charge(a + b) == Charge(a) + Charge(b)
    ensures Charge([]) == 0.0 && forall l: Line :: Charge([l]) == l.price as real * l.quantity
  {
    forall l: Line ensures Charge([l]) == l.price as real * l.quantity { assert [l][..0] == []; }
    if b == [] {
      assert a + b == a;
    } else {
      var n := |b| - 1;
      assert (a + b)[..|a + b| - 1] == a + b[..n];
      ChargeIsSum(a, b[..n]);
    }
  }

  function Bill(request: seq<Line>, fee: Cents): Cents {
    Round(Charge(request) + fee as real)
  }

  function StoredQuantity(q: real): int {
    Round(q * 100.0)
  }

  function Store(request: seq<Line>): (items: seq<OrderItem>)
    ensures |items| == |request|
    ensures forall k :: 0 <= k < |request| ==>
      items[k] == OrderItem(request[k].item, StoredQuantity(request[k].quantity), request[k].price)
  {
    seq(|request|, k requires 0 <= k < |request| =>
      OrderItem(request[k].item, StoredQuantity(request[k].quantity), request[k].price))
  }

  /** validateProcessOrderRequest's first rule: some line has a positive quantity. */
  predicate Admissible(request: seq<Line>) {
    exists k :: 0 <= k < |request| && request[k].quantity > 0.0
  }

  /** quantity x price_at_order summed over the stored rows, in hundredths of a cent. */
  function StoredCharge(items: seq<OrderItem>): int {
    if items == [] then 0
    else StoredCharge(items[..|items| - 1]) + items[|items| - 1].price * items[|items| - 1].quantity
  }

  lemma {:induction false} StoredChargeIsSum(a: seq<OrderItem>, b: seq<OrderItem>)
    ensures StoredCharge(a + b) == StoredCharge(a) + StoredCharge(b)
    ensures StoredCharge([]) == 0 && forall i: OrderItem :: StoredCharge([i]) == i.price * i.quantity
  {
    forall i: OrderItem ensures StoredCharge([i]) == i.price * i.quantity { assert [i][..0] == []; }
    if b == [] {
      assert a + b == a;
    } else {
      var n := |b| - 1;
      assert (a + b)[..|a + b| - 1] == a + b[..n];
      StoredChargeIsSum(a, b[..n]);
    }
  }

  /** The recorded total agrees, to half a cent, with the recorded items and fee. */
  predicate Reconciles(total: Cents, items: seq<OrderItem>, fee: Cents) {
    -50 <= 100 * total - (StoredCharge(items) + 100 * fee) <= 50
  }

  /** q is a whole number of hundredths: storing it loses nothing. */
  predicate WholeHundredths(q: real) {
    StoredQuantity(q) as real == q * 100.0
  }

  /** Exactly the multiples of a hundredth are stored as they are, and no quantity is off by more
      than half a hundredth. */
  lemma StoredIsNearest(q: real)
    ensures WholeHundredths(q) <==> q * 100.0 == (q * 100.0).Floor as real
    ensures -0.5 <= StoredQuantity(q) as real - q * 100.0 <= 0.5
  {
    hide Round;
    RoundIsNearest(q * 100.0);
    NearestInteger(q * 100.0, StoredQuantity(q));
  }

  lemma NearestInteger(x: real, n: int)
    requires -0.5 <= n as real - x <= 0.5
    ensures n as real == x <==> x == x.Floor as real
  {
    var f := x.Floor;
    assert n as real == x ==> f == n;
    assert x == f as real ==> (n - f) as real == n as real - x;
    assert x == f as real ==> n == f;
  }

  lemma {:induction false} ChargeOfStored(request: seq<Line>)
    requires forall k :: 0 <= k < |request| ==> WholeHundredths(request[k].quantity)
    ensures StoredCharge(Store(request)) as real == 100.0 * Charge(request)
  {
    if request != [] {
      var n := |request| - 1;
      var front := request[..n];
      ChargeOfStored(front);
      assert Store(request)[..n] == Store(front);
      assert WholeHundredths(request[n].quantity);
      ScaleLine(request[n].price, request[n].quantity);
    }
  }

  lemma ScaleLine(price: Cents, q: real)
    requires WholeHundredths(q)
    ensures (price * StoredQuantity(q)) as real == 100.0 * Extend(price, q)
  {
    var s := StoredQuantity(q);
    assert (price * s) as real == price as real * (s as real);
    assert price as real * (q * 100.0) == 100.0 * Extend(price, q);
  }

  /** Two-decimal quantities: the bill is within half a cent of what the stored rows say. */
  lemma BillReconciles(request: seq<Line>, fee: Cents)
    requires forall k :: 0 <= k < |request| ==> WholeHundredths(request[k].quantity)
    ensures Reconciles(Bill(request, fee), Store(request), fee)
  {
    ChargeOfStored(request);
    RoundIsNearest(Charge(request) + fee as real);
  }

  /** The same quantities under another catalogue. */
  function Reprice(request: seq<Line>, prices: seq<Cents>): (r: seq<Line>)
    requires |prices| == |request|
    ensures |r| == |request|
    ensures forall k :: 0 <= k < |request| ==> r[k] == request[k].(price := prices[k])
  {
    seq(|request|, k requires 0 <= k < |request| => request[k].(price := prices[k]))
  }

  function OnlyPrice(n: nat, k: nat, price: Cents): (prices: seq<Cents>)
    requires k < n
    ensures |prices| == n
    ensures forall j :: 0 <= j < n ==> prices[j] == if j == k then price else 0
  {
    seq(n, j => if j == k then price else 0)
  }

  lemma {:induction false} FreeLines(request: seq<Line>)
    requires forall k :: 0 <= k < |request| ==> request[k].price == 0
    ensures Charge(request) == 0.0 && StoredCharge(Store(request)) == 0
  {
    if request != [] {
      var front := request[..|request| - 1];
      FreeLines(front);
      assert Store(request)[..|request| - 1] == Store(front);
    }
  }

  lemma {:induction false} OnePricedLine(request: seq<Line>, k: nat)
    requires k < |request|
    requires forall j :: 0 <= j < |request| && j != k ==> request[j].price == 0
    ensures Charge(request) == Extend(request[k].price, request[k].quantity)
    ensures StoredCharge(Store(request)) == request[k].price * StoredQuantity(request[k].quantity)
  {
    var n := |request| - 1;
    var front := request[..n];
    assert Store(request)[..n] == Store(front);
    if k == n { FreeLines(front); } else { OnePricedLine(front, k); }
  }

  /** A price at which losing part of a hundredth of q costs more than a cent. */
  lemma TellingPrice(q: real) returns (price: Cents)
    requires !WholeHundredths(q)
    ensures !(-100.0 <= (price * StoredQuantity(q)) as real - 100.0 * Extend(price, q) <= 100.0)
  {
    var d := StoredQuantity(q) as real - q * 100.0;
    var gap := if d > 0.0 then d else -d;
    var least := 100.0 / gap;
    price := least.Floor + 1;
    assert least * gap == 100.0;
    Grows(price as real, least, gap, 100.0);
    assert price > 0;
    Distribute(price, StoredQuantity(q), q);
    if d <= 0.0 { Negate(price as real, gap); }
  }

  lemma Grows(p: real, least: real, gap: real, area: real)
    requires gap > 0.0 && p > least && least * gap == area
    ensures p * gap > area
  {
    assert (p - least) * gap > 0.0;
  }

  lemma Negate(p: real, d: real)
    ensures p * -d == -(p * d)
  {}

  lemma Distribute(p: Cents, s: int, q: real)
    ensures (p * s) as real - 100.0 * Extend(p, q) == p as real * (s as real - q * 100.0)
  {
    assert (p * s) as real == p as real * (s as real);
  }

  /** A half-cent reconciliation leaves the unrounded charge within a cent of the stored one. */
  lemma ReconciledCharge(charge: real, fee: Cents, stored: int)
    requires -50 <= 100 * Round(charge + fee as real) - (stored + 100 * fee) <= 50
    ensures -100.0 <= stored as real - 100.0 * charge <= 100.0
  {
    RoundIsNearest(charge + fee as real);
  }

  lemma MispricedLine(p: Cents, q: real, charge: real, stored: int, fee: Cents)
    requires charge == Extend(p, q) && stored == p * StoredQuantity(q)
    requires !(-100.0 <= (p * StoredQuantity(q)) as real - 100.0 * Extend(p, q) <= 100.0)
    ensures !(-50 <= 100 * Round(charge + fee as real) - (stored + 100 * fee) <= 50)
  {
    if -50 <= 100 * Round(charge + fee as real) - (stored + 100 * fee) <= 50 {
      ReconciledCharge(charge, fee, stored);
    }
  }

  lemma BreakingPrices(request: seq<Line>, k: nat, fee: Cents) returns (prices: seq<Cents>)
    requires k < |request| && !WholeHundredths(request[k].quantity)
    ensures |prices| == |request|
    ensures var r := Reprice(request, prices); !Reconciles(Bill(r, fee), Store(r), fee)
  {
    var p := TellingPrice(request[k].quantity);
    prices := OnlyPrice(|request|, k, p);
    var r := Reprice(request, prices);
    var q := request[k].quantity;
    OnePricedLine(r, k);
    MispricedLine(p, q, Charge(r), StoredCharge(Store(r)), fee);
  }

  ghost predicate ReconcilesAtAllPrices(request: seq<Line>, fee: Cents) {
    forall prices: seq<Cents> | |prices| == |request| ::
      var r := Reprice(request, prices); Reconciles(Bill(r, fee), Store(r), fee)
  }

  /** Whatever the catalogue charges, total and items agree exactly when every requested
      quantity has at most two decimals; ProcessOrder itself never checks that. */
  lemma ReconcilesIffWholeHundredths(request: seq<Line>, fee: Cents)
    ensures ReconcilesAtAllPrices(request, fee)
        <==> forall k :: 0 <= k < |request| ==> WholeHundredths(request[k].quantity)
  {
    if forall k :: 0 <= k < |request| ==> WholeHundredths(request[k].quantity) {
      forall prices: seq<Cents> | |prices| == |request|
        ensures var r := Reprice(request, prices); Reconciles(Bill(r, fee), Store(r), fee)
      {
        var r := Reprice(request, prices);
        assert forall k :: 0 <= k < |r| ==> r[k].quantity == request[k].quantity;
        BillReconciles(r, fee);
      }
    } else {
      var k :| 0 <= k < |request| && !WholeHundredths(request[k].quantity);
      var prices := BreakingPrices(request, k, fee);
    }
  }

  /** One line of half a hundredth at a price of 1000.00: charged 5.00, stored as 10.00. */
  lemma ThirdDecimalExample()
    ensures var r := [Line(0, 0.005, 100000)];
      Admissible(r) && Bill(r, 0) == 500 && StoredCharge(Store(r)) == 100000 && !Reconciles(Bill(r, 0), Store(r), 0)
  {
    var r := [Line(0, 0.005, 100000)];
    assert r[0].quantity > 0.0;
    OnePricedLine(r, 0);
  }
}
