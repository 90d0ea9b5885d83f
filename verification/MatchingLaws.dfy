/** What matching promises, proved of the flat book: greedy execution is conservative, in priority
    order and best-priced, and every run keeps the book sorted, uncrossed and correctly indexed. */
module MatchingLaws {
  import opened Common
  import opened FlatBook
  import opened Reals

  // ----- the shape of each operation -----

  predicate Positive(book: seq<Resting>) {
    book == [] || (book[0].qty > 0.0 && Positive(book[1..]))
  }

  /** Best price first. */
  predicate Priced(side: Side, book: seq<Resting>) {
    |book| <= 1 || (!Better(side, book[1].price, book[0].price) && Priced(side, book[1..]))
  }

  lemma {:induction false} PricedPairs(side: Side, book: seq<Resting>, i: nat, j: nat)
    requires Priced(side, book) && i <= j < |book|
    ensures !Better(side, book[j].price, book[i].price)
    decreases j
  {
    if i > 0 {
      PricedPairs(side, book[1..], i - 1, j - 1);
    } else if j > 0 {
      PricedPairs(side, book[1..], 0, j - 1);
    }
  }

  lemma {:induction false} PricedFrom(side: Side, book: seq<Resting>)
    requires forall i :: 0 <= i && i + 1 < |book| ==> !Better(side, book[i + 1].price, book[i].price)
    ensures Priced(side, book)
  {
    if |book| <= 1 {
    } else {
      assert !Better(side, book[0 + 1].price, book[0].price);
      forall i | 0 <= i && i + 1 < |book[1..]| ensures !Better(side, book[1..][i + 1].price, book[1..][i].price) {
        assert !Better(side, book[(i + 1) + 1].price, book[i + 1].price);
      }
      PricedFrom(side, book[1..]);
    }
  }

  lemma {:induction false} PositiveEach(book: seq<Resting>)
    ensures Positive(book) <==> forall i :: 0 <= i < |book| ==> book[i].qty > 0.0
  {
    if book == [] {
    } else {
      PositiveEach(book[1..]);
      assert forall i :: 0 < i < |book| ==> book[i] == book[1..][i - 1];
    }
  }

  /** No id rests twice. */
  predicate Distinct(book: seq<Resting>) {
    book == [] || (book[0].id !in Ids(book[1..]) && Distinct(book[1..]))
  }

  function Ids(book: seq<Resting>): set<Id> {
    if book == [] then {} else {book[0].id} + Ids(book[1..])
  }

  lemma HasBehind(book: seq<Resting>, id: Id)
    requires book != [] && book[0].id != id
    ensures Has(book, id) <==> Has(book[1..], id)
  {
    if Has(book, id) {
      var i :| 0 <= i < |book| && book[i].id == id;
      assert book[1..][i - 1].id == id;
    }
    if Has(book[1..], id) {
      var i :| 0 <= i < |book[1..]| && book[1..][i].id == id;
      assert book[i + 1].id == id;
    }
  }

  lemma {:induction false} IdsHas(book: seq<Resting>, id: Id)
    ensures id in Ids(book) <==> Has(book, id)
  {
    if book == [] {
    } else {
      IdsHas(book[1..], id);
      if book[0].id == id {
        assert Has(book, id);
      } else {
        HasBehind(book, id);
      }
    }
  }

  /** A resting price that an incoming order accepts: a buyer pays its limit at most, a seller takes its limit at
      least, and a market order takes any. */
  predicate Accepts(side: Side, price: real, limit: Option<real>) {
    limit.None? || if side.Asks? then price <= limit.value else price >= limit.value
  }

  /** Execution leaves only positive quantities, and stops short only of a price that is not accepted. */
  lemma {:induction false} ExecStops(side: Side, book: seq<Resting>, limit: Option<real>, t: Taker)
    requires Positive(book)
    ensures var (left, t') := Exec(side, book, limit, t);
            Positive(left) && (t'.remaining > 0.0 && left != [] ==> !Accepts(side, left[0].price, limit))
  {
    if book == [] || t.remaining <= 0.0 || !Crosses(side, book[0].price, limit) {
    } else if Min(t.remaining, book[0].qty) == book[0].qty {
      ExecStops(side, book[1..], limit, Trade(t, book[0]));
    }
  }

  // ----- greedy execution -----

  /** How much each resting order, in turn, contributes to filling `want`. */
  function Fills(side: Side, book: seq<Resting>, limit: Option<real>, want: real): (a: seq<real>)
    ensures |a| == |book|
  {
    if book == [] then []
    else
      var m := if want <= 0.0 || !Crosses(side, book[0].price, limit) then 0.0 else Min(want, book[0].qty);
      [m] + Fills(side, book[1..], limit, want - m)
  }

  /** A way to take quantities from the resting orders: no more from any than it has. */
  ghost predicate Allocation(book: seq<Resting>, a: seq<real>) {
    |a| == |book| && forall i :: 0 <= i < |book| ==> 0.0 <= a[i] <= book[i].qty
  }

  function Cost(book: seq<Resting>, a: seq<real>): real
    requires |a| == |book|
  {
    if book == [] then 0.0 else a[0] * book[0].price + Cost(book[1..], a[1..])
  }

  function Volume(book: seq<Resting>): real {
    if book == [] then 0.0 else book[0].qty + Volume(book[1..])
  }

  /** The book with an allocation taken out of it. */
  function Less(book: seq<Resting>, a: seq<real>): seq<Resting>
    requires |a| == |book|
  {
    if book == [] then []
    else if a[0] == book[0].qty then Less(book[1..], a[1..])
    else [book[0].(qty := book[0].qty - a[0])] + Less(book[1..], a[1..])
  }

  /** Execution leaves the book less the greedy allocation... */
  lemma {:induction false} ExecLeaves(side: Side, book: seq<Resting>, limit: Option<real>, t: Taker)
    requires Positive(book) && Priced(side, book)
    ensures Exec(side, book, limit, t).0 == Less(book, Fills(side, book, limit, t.remaining))
  {
    if book == [] {
    } else if t.remaining <= 0.0 || !Crosses(side, book[0].price, limit) {
      NothingFilled(side, book, limit, t.remaining);
    } else {
      var m := Min(t.remaining, book[0].qty);
      var a := Fills(side, book, limit, t.remaining);
      assert a[0] == m && a[1..] == Fills(side, book[1..], limit, t.remaining - m);
      if m == book[0].qty {
        ExecLeaves(side, book[1..], limit, Trade(t, book[0]));
      } else {
        NothingFilled(side, book[1..], limit, t.remaining - m);
      }
    }
  }

  /** ... and fills that allocation's sum. */
  lemma {:induction false} ExecFills(side: Side, book: seq<Resting>, limit: Option<real>, t: Taker)
    requires Positive(book) && Priced(side, book)
    ensures var t' := Exec(side, book, limit, t).1;
            var total := Sum(Fills(side, book, limit, t.remaining));
            t'.filled == t.filled + total && t'.remaining == t.remaining - total
  {
    if book == [] {
    } else if t.remaining <= 0.0 || !Crosses(side, book[0].price, limit) {
      NothingFilled(side, book, limit, t.remaining);
    } else {
      var m := Min(t.remaining, book[0].qty);
      var a := Fills(side, book, limit, t.remaining);
      assert a[0] == m && a[1..] == Fills(side, book[1..], limit, t.remaining - m);
      if m == book[0].qty {
        ExecFills(side, book[1..], limit, Trade(t, book[0]));
      } else {
        NothingFilled(side, book[1..], limit, t.remaining - m);
      }
    }
  }

  /** Conservation: filled plus remaining is the order's quantity, and the opposite side loses exactly
      what was filled. */
  lemma Conservation(side: Side, book: seq<Resting>, limit: Option<real>, want: real)
    requires Positive(book) && Priced(side, book)
    ensures var (left, t) := Exec(side, book, limit, Arriving(want));
            t.filled + t.remaining == want && Volume(left) == Volume(book) - t.filled
  {
    ExecLeaves(side, book, limit, Arriving(want));
    ExecFills(side, book, limit, Arriving(want));
    VolumeLess(book, Fills(side, book, limit, want));
  }

  lemma {:induction false} VolumeLess(book: seq<Resting>, a: seq<real>)
    requires |a| == |book|
    ensures Volume(Less(book, a)) == Volume(book) - Sum(a)
  {
    if book == [] {
    } else {
      VolumeLess(book[1..], a[1..]);
      var rest := Less(book[1..], a[1..]);
      assert a[0] != book[0].qty ==> Less(book, a)[1..] == rest;
    }
  }

  lemma {:induction false} NothingFilled(side: Side, book: seq<Resting>, limit: Option<real>, want: real)
    requires Positive(book) && Priced(side, book)
    requires want <= 0.0 || book == [] || !Crosses(side, book[0].price, limit)
    ensures var a := Fills(side, book, limit, want);
            Sum(a) == 0.0 && Less(book, a) == book && forall i :: 0 <= i < |a| ==> a[i] == 0.0
  {
    if book == [] {
    } else {
      NothingFilled(side, book[1..], limit, want);
    }
  }

  /** No more is taken from an order than it has, and nothing from one whose price is not accepted. */
  lemma {:induction false} FillsAllocate(side: Side, book: seq<Resting>, limit: Option<real>, want: real)
    requires Positive(book)
    ensures Allocation(book, Fills(side, book, limit, want))
    ensures var a := Fills(side, book, limit, want);
            forall i :: 0 <= i < |a| && a[i] > 0.0 ==> Accepts(side, book[i].price, limit)
  {
    if book == [] {
    } else {
      var a := Fills(side, book, limit, want);
      assert a[1..] == Fills(side, book[1..], limit, want - a[0]);
      FillsAllocate(side, book[1..], limit, want - a[0]);
    }
  }

  /** Each order trades all it has before the next one trades at all. */
  lemma {:induction false} FillsInOrder(side: Side, book: seq<Resting>, limit: Option<real>, want: real, i: nat, j: nat)
    requires Positive(book) && Priced(side, book) && i < j < |book| && Fills(side, book, limit, want)[j] > 0.0
    ensures Fills(side, book, limit, want)[i] == book[i].qty
  {
    var a, tail := Fills(side, book, limit, want), book[1..];
    var b := Fills(side, tail, limit, want - a[0]);
    assert a[j] == b[j - 1];
    if a[0] < book[0].qty || want - a[0] <= 0.0 {
      NothingFilled(side, tail, limit, want - a[0]);
    } else if i > 0 {
      assert a[i] == b[i - 1];
      FillsInOrder(side, tail, limit, want - a[0], i - 1, j - 1);
    }
  }

  /** An order at an accepted price with something left means that the incoming one got all it wanted. */
  lemma {:induction false} FillsComplete(side: Side, book: seq<Resting>, limit: Option<real>, want: real, i: nat)
    requires Positive(book) && Priced(side, book) && want > 0.0
    requires i < |book| && Fills(side, book, limit, want)[i] < book[i].qty && Accepts(side, book[i].price, limit)
    ensures Sum(Fills(side, book, limit, want)) == want
  {
    var a, tail := Fills(side, book, limit, want), book[1..];
    PricedPairs(side, book, 0, i);
    assert a[1..] == Fills(side, tail, limit, want - a[0]);
    if a[0] < book[0].qty || want - a[0] <= 0.0 {
      NothingFilled(side, tail, limit, want - a[0]);
    } else {
      assert a[i] == a[1..][i - 1] && book[i] == tail[i - 1];
      FillsComplete(side, tail, limit, want - a[0], i - 1);
    }
  }

  /** Priority: an order is touched only once every order ahead of it is used up, so only the last
      one touched can be partially filled; and only orders at an accepted price are touched. */
  lemma FillsInPriority(side: Side, book: seq<Resting>, limit: Option<real>, want: real)
    requires Positive(book) && Priced(side, book)
    ensures Allocation(book, Fills(side, book, limit, want))
    ensures var a := Fills(side, book, limit, want);
            && (forall i :: 0 <= i < |a| && a[i] > 0.0 ==> Accepts(side, book[i].price, limit))
            && (forall i, j :: 0 <= i < j < |a| && a[j] > 0.0 ==> a[i] == book[i].qty)
            && (forall i :: 0 <= i < |a| && a[i] < book[i].qty && Accepts(side, book[i].price, limit) && want > 0.0
                  ==> Sum(a) == want)
  {
    var a := Fills(side, book, limit, want);
    FillsAllocate(side, book, limit, want);
    forall i, j | 0 <= i < j < |a| && a[j] > 0.0 ensures a[i] == book[i].qty {
      FillsInOrder(side, book, limit, want, i, j);
    }
    forall i | 0 <= i < |a| && a[i] < book[i].qty && Accepts(side, book[i].price, limit) && want > 0.0
      ensures Sum(a) == want
    {
      FillsComplete(side, book, limit, want, i);
    }
  }

  /** The order fills as much as it can: no other choice of orders at accepted prices fills more. */
  lemma FillsTheMost(side: Side, book: seq<Resting>, limit: Option<real>, want: real, b: seq<real>)
    requires Positive(book) && Priced(side, book) && Allocation(book, b)
    requires forall i :: 0 <= i < |b| && b[i] > 0.0 ==> Accepts(side, book[i].price, limit)
    requires Sum(b) <= want && want > 0.0
    ensures Sum(b) <= Sum(Fills(side, book, limit, want))
  {
    FillsInPriority(side, book, limit, want);
    var a := Fills(side, book, limit, want);
    if Sum(a) != want {
      SumMonotone(b, a);
    }
  }

  lemma {:induction false} SumMonotone(a: seq<real>, b: seq<real>)
    requires |a| == |b| && forall i :: 0 <= i < |a| ==> a[i] <= b[i]
    ensures Sum(a) <= Sum(b)
  {
    if a == [] {
    } else {
      SumMonotone(a[1..], b[1..]);
    }
  }

  /** The price reported is the worst one traded at, that of the last order touched. */
  lemma LastIsWorst(side: Side, book: seq<Resting>, limit: Option<real>, t: Taker) returns (k: nat)
    requires Positive(book) && Priced(side, book)
    requires Sum(Fills(side, book, limit, t.remaining)) > 0.0
    ensures var a := Fills(side, book, limit, t.remaining);
            && k < |book| && a[k] > 0.0 && Exec(side, book, limit, t).1.last == book[k].price
            && (forall i :: k < i < |a| ==> a[i] == 0.0)
            && (forall i :: 0 <= i < k ==> !Better(side, book[k].price, book[i].price))
  {
    k := LastTouched(side, book, limit, t);
    forall i | 0 <= i < k ensures !Better(side, book[k].price, book[i].price) { PricedPairs(side, book, i, k); }
  }

  lemma {:induction false} LastTouched(side: Side, book: seq<Resting>, limit: Option<real>, t: Taker) returns (k: nat)
    requires Positive(book) && Priced(side, book)
    requires Sum(Fills(side, book, limit, t.remaining)) > 0.0
    ensures var a := Fills(side, book, limit, t.remaining);
            && k < |book| && a[k] > 0.0 && Exec(side, book, limit, t).1.last == book[k].price
            && (forall i :: k < i < |a| ==> a[i] == 0.0)
  {
    NothingFilledIf(side, book, limit, t.remaining);
    var m, tail := Min(t.remaining, book[0].qty), book[1..];
    var a, rest := Fills(side, book, limit, t.remaining), Fills(side, tail, limit, t.remaining - m);
    assert a == [m] + rest;
    if m == book[0].qty && Sum(rest) > 0.0 {
      var j := LastTouched(side, tail, limit, Trade(t, book[0]));
      k := j + 1;
      assert forall i :: k < i < |a| ==> a[i] == rest[i - 1];
    } else {
      k := 0;
      if m == book[0].qty {
        NothingTraded(side, tail, limit, Trade(t, book[0]));
      } else {
        NothingFilled(side, tail, limit, t.remaining - m);
      }
      assert forall i :: 0 < i < |a| ==> a[i] == rest[i - 1];
    }
  }

  lemma NothingFilledIf(side: Side, book: seq<Resting>, limit: Option<real>, want: real)
    requires Positive(book) && Priced(side, book) && Sum(Fills(side, book, limit, want)) > 0.0
    ensures book != [] && want > 0.0 && Crosses(side, book[0].price, limit)
  {
    if want <= 0.0 || book == [] || !Crosses(side, book[0].price, limit) {
      NothingFilled(side, book, limit, want);
    }
  }

  lemma {:induction false} NoneOf(a: seq<real>)
    requires forall i :: 0 <= i < |a| ==> a[i] >= 0.0
    ensures Sum(a) >= 0.0
    ensures Sum(a) == 0.0 ==> forall i :: 0 <= i < |a| ==> a[i] == 0.0
  {
    if a == [] {
    } else {
      NoneOf(a[1..]);
    }
  }

  lemma NothingTraded(side: Side, book: seq<Resting>, limit: Option<real>, t: Taker)
    requires Positive(book) && Priced(side, book)
    requires Sum(Fills(side, book, limit, t.remaining)) <= 0.0
    ensures Exec(side, book, limit, t) == (book, t)
    ensures forall i :: 0 <= i < |book| ==> Fills(side, book, limit, t.remaining)[i] == 0.0
  {
    FillsInPriority(side, book, limit, t.remaining);
    NoneOf(Fills(side, book, limit, t.remaining));
  }

  /** Best execution: no other way to take the same total from the side is cheaper for a buyer, or
      pays a seller more. */
  lemma BestExecution(side: Side, book: seq<Resting>, limit: Option<real>, want: real, b: seq<real>)
    requires Positive(book) && Priced(side, book) && Allocation(book, b)
    requires Sum(b) == Sum(Fills(side, book, limit, want))
    ensures side.Asks? ==> Cost(book, b) >= Cost(book, Fills(side, book, limit, want))
    ensures side.Bids? ==> Cost(book, b) <= Cost(book, Fills(side, book, limit, want))
  {
    var a := Fills(side, book, limit, want);
    if book != [] {
      var k := Marginal(side, book, limit, want);
      forall i | 0 <= i < |book| ensures Signed(side.Asks?, b[i] - a[i], book[i].price - book[k].price) {
      }
      GapSign(book, a, b, book[k].price, side.Asks?);
      SameTotal(book, a, b, book[k].price);
    }
  }

  /** There is a marginal order: everything ahead of it is used up and is at no worse a price, and
      nothing behind it is touched or at a better price. */
  lemma Marginal(side: Side, book: seq<Resting>, limit: Option<real>, want: real) returns (k: nat)
    requires Positive(book) && Priced(side, book) && book != []
    ensures var a := Fills(side, book, limit, want);
            && k < |book|
            && (forall i :: 0 <= i < k ==> a[i] == book[i].qty && !Better(side, book[k].price, book[i].price))
            && (forall i :: k < i < |book| ==> a[i] == 0.0 && !Better(side, book[i].price, book[k].price))
  {
    var a := Fills(side, book, limit, want);
    FillsInPriority(side, book, limit, want);
    NoneOf(a);
    if Sum(a) > 0.0 {
      k := LastIsWorst(side, book, limit, Arriving(want));
    } else {
      k := 0;
    }
    forall i | 0 <= i < k ensures !Better(side, book[k].price, book[i].price) { PricedPairs(side, book, i, k); }
    forall i | k < i < |book| ensures !Better(side, book[i].price, book[k].price) { PricedPairs(side, book, k, i); }
  }

  lemma Signs(x: real, y: real)
    ensures x >= 0.0 && y >= 0.0 ==> x * y >= 0.0
    ensures x <= 0.0 && y <= 0.0 ==> x * y >= 0.0
    ensures x >= 0.0 && y <= 0.0 ==> x * y <= 0.0
    ensures x <= 0.0 && y >= 0.0 ==> x * y <= 0.0
  {
  }

  /** What choosing b over a costs, as the part due to quantity at price p and the part due to price. */
  lemma {:induction false} CostGap(book: seq<Resting>, a: seq<real>, b: seq<real>, p: real)
    requires |a| == |b| == |book|
    ensures Cost(book, b) - Cost(book, a) == p * (Sum(b) - Sum(a)) + Gap(book, a, b, p)
  {
    if book == [] {
    } else {
      CostGap(book[1..], a[1..], b[1..], p);
      Expand(a[0], b[0], book[0].price, p);
      Distribute(p, b[0] - a[0], Sum(b[1..]) - Sum(a[1..]));
    }
  }

  lemma SameTotal(book: seq<Resting>, a: seq<real>, b: seq<real>, p: real)
    requires |a| == |b| == |book| && Sum(a) == Sum(b)
    ensures Cost(book, b) - Cost(book, a) == Gap(book, a, b, p)
  {
    CostGap(book, a, b, p);
    assert p * (Sum(b) - Sum(a)) == 0.0;
  }

  function Gap(book: seq<Resting>, a: seq<real>, b: seq<real>, p: real): real
    requires |a| == |b| == |book|
  {
    if book == [] then 0.0 else (b[0] - a[0]) * (book[0].price - p) + Gap(book[1..], a[1..], b[1..], p)
  }

  lemma {:induction false} GapSign(book: seq<Resting>, a: seq<real>, b: seq<real>, p: real, up: bool)
    requires |a| == |b| == |book|
    requires forall i :: 0 <= i < |book| ==> Signed(up, b[i] - a[i], book[i].price - p)
    ensures if up then Gap(book, a, b, p) >= 0.0 else Gap(book, a, b, p) <= 0.0
  {
    if book == [] {
    } else {
      GapSign(book[1..], a[1..], b[1..], p, up);
      assert Signed(up, b[0] - a[0], book[0].price - p);
      Signs(b[0] - a[0], book[0].price - p);
    }
  }

  /** x and y agree in sign (or disagree, when not up). */
  predicate Signed(up: bool, x: real, y: real) {
    if up then (x >= 0.0 && y >= 0.0) || (x <= 0.0 && y <= 0.0) else (x >= 0.0 && y <= 0.0) || (x <= 0.0 && y >= 0.0)
  }

  lemma Expand(a: real, b: real, q: real, p: real)
    ensures (b - a) * (q - p) == b * q - a * q - p * (b - a)
  {
  }

  // ----- every run -----

  /** Each side is sorted, nothing resting is used up, and the best bid is below the best ask. */
  predicate Sound(b: Book) {
    && Priced(Bids, b.bids) && Positive(b.bids)
    && Priced(Asks, b.asks) && Positive(b.asks)
    && (b.bids != [] && b.asks != [] ==> b.bids[0].price < b.asks[0].price)
  }

  /** The index holds exactly the resting ids, and no id rests twice. */
  predicate Indexed(b: Book) {
    && Distinct(b.bids) && Distinct(b.asks) && Ids(b.bids) !! Ids(b.asks)
    && b.index == Ids(b.bids) + Ids(b.asks)
  }

  /** The id of a new limit order is not resting already. */
  predicate Fresh(b: Book, o: Order) {
    o.kind.LimitBuy? || o.kind.LimitSell? ==> o.id !in b.index
  }

  predicate FreshRun(b: Book, orders: seq<Order>)
    decreases |orders|
  {
    orders == [] || (Fresh(b, orders[0]) && FreshRun(Step(b, orders[0]).0, orders[1..]))
  }

  lemma {:induction false} ExecKeepsSide(side: Side, book: seq<Resting>, limit: Option<real>, t: Taker)
    requires Priced(side, book) && Positive(book)
    ensures var left := Exec(side, book, limit, t).0;
            && Priced(side, left) && Positive(left)
            && (left != [] ==> book != [] && !Better(side, left[0].price, book[0].price))
  {
    if book == [] || t.remaining <= 0.0 || !Crosses(side, book[0].price, limit) {
    } else if Min(t.remaining, book[0].qty) == book[0].qty {
      ExecKeepsSide(side, book[1..], limit, Trade(t, book[0]));
    } else {
      assert Exec(side, book, limit, t).0[1..] == book[1..];
    }
  }

  lemma {:induction false} ExecKeepsIds(side: Side, book: seq<Resting>, limit: Option<real>, t: Taker)
    requires Distinct(book) && Ids(book) !! t.gone
    ensures var (left, t') := Exec(side, book, limit, t);
            Distinct(left) && Ids(left) !! t'.gone && Ids(left) + t'.gone == Ids(book) + t.gone
  {
    if book == [] || t.remaining <= 0.0 || !Crosses(side, book[0].price, limit) {
    } else if Min(t.remaining, book[0].qty) == book[0].qty {
      ExecKeepsIds(side, book[1..], limit, Trade(t, book[0]));
    } else {
      assert Exec(side, book, limit, t).0[1..] == book[1..];
    }
  }

  lemma {:induction false} InsertKeeps(side: Side, book: seq<Resting>, r: Resting)
    requires Priced(side, book) && Positive(book) && r.qty > 0.0
    ensures Priced(side, Insert(side, book, r)) && Positive(Insert(side, book, r))
    ensures var p := Insert(side, book, r)[0].price; p == r.price || (book != [] && p == book[0].price)
    ensures Ids(Insert(side, book, r)) == Ids(book) + {r.id}
    ensures Distinct(book) && r.id !in Ids(book) ==> Distinct(Insert(side, book, r))
  {
    var s := Insert(side, book, r);
    if book == [] || Better(side, r.price, book[0].price) {
      assert s[1..] == book;
    } else {
      InsertKeeps(side, book[1..], r);
      assert s[1..] == Insert(side, book[1..], r);
    }
  }

  lemma {:induction false} RemoveKeeps(side: Side, book: seq<Resting>, id: Id)
    requires Priced(side, book) && Positive(book)
    ensures Priced(side, Remove(book, id)) && Positive(Remove(book, id))
    ensures Remove(book, id) != [] ==> book != [] && !Better(side, Remove(book, id)[0].price, book[0].price)
    ensures Distinct(book) ==> Distinct(Remove(book, id)) && Ids(Remove(book, id)) == Ids(book) - {id}
  {
    if book == [] || book[0].id == id {
    } else {
      RemoveKeeps(side, book[1..], id);
      assert Remove(book, id)[1..] == Remove(book[1..], id);
    }
  }

  /** Every order keeps the book sorted, positive and uncrossed. */
  lemma StepKeepsSound(b: Book, o: Order)
    requires Sound(b)
    ensures Sound(Step(b, o).0)
  {
    match o.kind
    case MarketBuy => ExecKeepsSide(Asks, b.asks, None, Arriving(o.quantity));
    case MarketSell => ExecKeepsSide(Bids, b.bids, None, Arriving(o.quantity));
    case LimitBuy =>
      ExecKeepsSide(Asks, b.asks, Some(o.price), Arriving(o.quantity));
      ExecStops(Asks, b.asks, Some(o.price), Arriving(o.quantity));
      var t := Exec(Asks, b.asks, Some(o.price), Arriving(o.quantity)).1;
      if t.remaining > 0.0 { InsertKeeps(Bids, b.bids, Resting(o.id, o.price, t.remaining)); }
    case LimitSell =>
      ExecKeepsSide(Bids, b.bids, Some(o.price), Arriving(o.quantity));
      ExecStops(Bids, b.bids, Some(o.price), Arriving(o.quantity));
      var t := Exec(Bids, b.bids, Some(o.price), Arriving(o.quantity)).1;
      if t.remaining > 0.0 { InsertKeeps(Asks, b.asks, Resting(o.id, o.price, t.remaining)); }
    case CancelOrder =>
      RemoveKeeps(Bids, b.bids, o.id);
      RemoveKeeps(Asks, b.asks, o.id);
    case UnknownKind(_) =>
  }

  lemma MarketKeepsIndexed(b: Book, side: Side, o: Order)
    requires Indexed(b)
    ensures Indexed(MarketOrder(b, side, o).0)
  {
    ExecKeepsIds(side, b.On(side), None, Arriving(o.quantity));
  }

  lemma LimitKeepsIndexed(b: Book, side: Side, o: Order)
    requires Sound(b) && Indexed(b) && o.id !in b.index
    ensures Indexed(LimitOrder(b, side, o).0)
  {
    ExecKeepsIds(side, b.On(side), Some(o.price), Arriving(o.quantity));
    var (left, t) := Exec(side, b.On(side), Some(o.price), Arriving(o.quantity));
    assert Indexed(b.With(side, left, b.index - t.gone));
    if t.remaining > 0.0 {
      InsertKeeps(Opposite(side), b.On(Opposite(side)), Resting(o.id, o.price, t.remaining));
    }
  }

  /** While new limit orders bring new ids, the index is exactly the set of resting ids. */
  lemma StepKeepsIndexed(b: Book, o: Order)
    requires Sound(b) && Indexed(b) && Fresh(b, o)
    ensures Indexed(Step(b, o).0)
  {
    match o.kind
    case MarketBuy => MarketKeepsIndexed(b, Asks, o);
    case MarketSell => MarketKeepsIndexed(b, Bids, o);
    case LimitBuy => LimitKeepsIndexed(b, Asks, o);
    case LimitSell => LimitKeepsIndexed(b, Bids, o);
    case CancelOrder =>
      IdsHas(b.bids, o.id);
      RemoveKeeps(Bids, b.bids, o.id);
      RemoveKeeps(Asks, b.asks, o.id);
    case UnknownKind(_) =>
  }

  /** Over every run whatsoever, the book stays sorted, positive and uncrossed... */
  lemma {:induction false} RunKeepsSound(b: Book, orders: seq<Order>)
    requires Sound(b)
    ensures Sound(Run(b, orders).0)
    decreases |orders|
  {
    if orders == [] {
    } else {
      StepKeepsSound(b, orders[0]);
      RunKeepsSound(Step(b, orders[0]).0, orders[1..]);
    }
  }

  /** ... and over every run of fresh orders the index stays exact. */
  lemma {:induction false} RunKeepsIndexed(b: Book, orders: seq<Order>)
    requires Sound(b) && Indexed(b) && FreshRun(b, orders)
    ensures Indexed(Run(b, orders).0)
    decreases |orders|
  {
    if orders == [] {
    } else {
      StepKeepsSound(b, orders[0]);
      StepKeepsIndexed(b, orders[0]);
      RunKeepsIndexed(Step(b, orders[0]).0, orders[1..]);
    }
  }
}
