/** The bots' own book (`services/bot-fleet/bots/shadow_book.go`): the same levels and queues, held by
    value and without an index of ids. */
module BotBook {
  import opened Common
  import opened FlatBook
  import opened Levels
  import opened MatchingLaws
  import StableSort

  /** Both sides of the book; there is no index to keep. */
  datatype Sides = Sides(bids: seq<Resting>, asks: seq<Resting>) {
    function On(side: Side): seq<Resting> {
      if side.Bids? then bids else asks
    }

    function With(side: Side, s: seq<Resting>): Sides {
      if side.Bids? then Sides(s, asks) else Sides(bids, s)
    }
  }

  function ExpectedFill(t: Taker, unfilled: Fill): Fill {
    if t.filled == 0.0 then unfilled
    else Fill(if t.remaining > 0.0 then Partial else Filled, t.last, t.filled, t.remaining)
  }

  function AddMarket(b: Sides, side: Side, o: Order): (Sides, Fill) {
    var (left, t) := Exec(side, b.On(side), None, Arriving(o.quantity));
    (b.With(side, left), ExpectedFill(t, Fill(Rejected, 0.0, 0.0, 0.0)))
  }

  function AddLimit(b: Sides, side: Side, o: Order): (Sides, Fill) {
    var (left, t) := Exec(side, b.On(side), Some(o.price), Arriving(o.quantity));
    var b' := b.With(side, left);
    var home := Opposite(side);
    (if t.remaining > 0.0 then b'.With(home, Insert(home, b'.On(home), Resting(o.id, o.price, t.remaining))) else b',
     ExpectedFill(t, Fill(Pending, 0.0, 0.0, t.remaining)))
  }

  function Add(b: Sides, o: Order): (Sides, Fill) {
    match o.kind
    case MarketBuy => AddMarket(b, Asks, o)
    case MarketSell => AddMarket(b, Bids, o)
    case LimitBuy => AddLimit(b, Asks, o)
    case LimitSell => AddLimit(b, Bids, o)
    case CancelOrder =>
      (if Has(b.bids, o.id) then Sides(Remove(b.bids, o.id), b.asks) else Sides(b.bids, Remove(b.asks, o.id)),
       Fill(Cancelled, 0.0, 0.0, 0.0))
    case UnknownKind(_) => (b, Fill(Rejected, 0.0, 0.0, 0.0))
  }

  class ShadowBook {
    var bids: seq<Level>
    var asks: seq<Level>

    ghost predicate Valid()
      reads this
    {
      AllOrdered(Bids, bids) && AllOrdered(Asks, asks) && Apart(Bids, bids, asks)
    }

    ghost function Contents(): Sides
      reads this
    {
      Sides(Flatten(bids), Flatten(asks))
    }

    function Side(side: Side): seq<Level>
      reads this
    {
      if side.Bids? then bids else asks
    }

    constructor ()
      ensures Valid() && Contents() == Sides([], [])
    {
      bids, asks := [], [];
    }

    method AddOrder(o: Order) returns (fill: Fill)
      requires Valid()
      modifies this
      ensures Valid()
      ensures (Contents(), fill) == Add(old(Contents()), o)
    {
      match o.kind {
        case MarketBuy => fill := MatchMarket(Asks, o.quantity, o);
        case MarketSell => fill := MatchMarket(Bids, o.quantity, o);
        case LimitBuy =>
          fill := MatchLimit(Asks, o);
          if fill.remaining > 0.0 {
            Insert(Bids, Resting(o.id, o.price, fill.remaining));
          }
        case LimitSell =>
          fill := MatchLimit(Bids, o);
          if fill.remaining > 0.0 {
            Insert(Asks, Resting(o.id, o.price, fill.remaining));
          }
        case CancelOrder =>
          var _ := Cancel(o.id);
          fill := Fill(Cancelled, 0.0, 0.0, 0.0);
        case UnknownKind(_) =>
          fill := Fill(Rejected, 0.0, 0.0, 0.0);
      }
    }

    method SetLevels(side: Side, levels: seq<Level>)
      modifies this
      ensures bids == (if side.Bids? then levels else old(bids)) && asks == (if side.Asks? then levels else old(asks))
    {
      if side.Bids? { bids := levels; } else { asks := levels; }
    }

    method MatchMarket(side: Side, qty: real, ghost o: Order) returns (fill: Fill)
      requires Valid() && qty == o.quantity
      modifies this
      ensures Valid()
      ensures (Contents(), fill) == AddMarket(old(Contents()), side, o)
    {
      var levels, remaining, filled, lastPx := Sweep(side, Side(side), None, qty, Side(Opposite(side)));
      SetLevels(side, levels);
      if filled == 0.0 {
        return Fill(Rejected, 0.0, 0.0, 0.0);
      }
      return Fill(if remaining > 0.0 then Partial else Filled, lastPx, filled, remaining);
    }

    method MatchLimit(side: Side, o: Order) returns (fill: Fill)
      requires Valid()
      modifies this
      ensures Valid()
      ensures var (left, t) := Exec(side, old(Contents()).On(side), Some(o.price), Arriving(o.quantity));
              && Contents() == old(Contents()).With(side, left)
              && fill == ExpectedFill(t, Fill(Pending, 0.0, 0.0, t.remaining))
      ensures fill.remaining > 0.0 ==>
                forall i :: 0 <= i < |Side(side)| ==> !Crosses(side, Side(side)[i].price, Some(o.price))
    {
      var levels, remaining, filled, lastPx := Sweep(side, Side(side), Some(o.price), o.quantity, Side(Opposite(side)));
      SetLevels(side, levels);
      if filled == 0.0 {
        return Fill(Pending, 0.0, 0.0, remaining);
      }
      return Fill(if remaining > 0.0 then Partial else Filled, lastPx, filled, remaining);
    }

    method Insert(side: Side, o: Resting)
      requires Valid() && o.qty > 0.0
      requires var other := Side(Opposite(side));
               forall i :: 0 <= i < |other| ==> !Crosses(Opposite(side), other[i].price, Some(o.price))
      modifies this
      ensures Valid()
      ensures Contents() == old(Contents()).With(side, FlatBook.Insert(side, old(Contents()).On(side), o))
    {
      var levels := Side(side);
      ghost var other := Side(Opposite(side));
      assert forall j :: 0 <= j < |other| ==> Better(side, other[j].price, o.price);
      for i := 0 to |levels|
        invariant unchanged(this)
        invariant forall k :: 0 <= k < i ==> levels[k].price != o.price
      {
        if levels[i].price == o.price {
          AppendInserts(side, levels, i, o);
          AppendedLevels(side, levels, i, o, other);
          SetLevels(side, levels[i := Level(levels[i].price, levels[i].orders + [o])]);
          return;
        }
      }
      var level := Level(o.price, [o]);
      NewLevelInserts(side, levels, o);
      NewLevelOrdered(side, levels, level);
      NewLevelApart(side, levels, level, other);
      var sorted := SortSlice(side, levels + [level]);
      OnlySorting(side, levels, level, sorted);
      SetLevels(side, sorted);
    }

    method Cancel(id: Id) returns (ok: bool)
      requires Valid()
      modifies this
      ensures Valid()
      ensures ok == (Has(old(Contents()).bids, id) || Has(old(Contents()).asks, id))
      ensures var b := old(Contents());
              Contents() == if Has(b.bids, id) then b.With(Bids, Remove(b.bids, id))
                            else b.With(Asks, Remove(b.asks, id))
    {
      var found, levels := RemoveFrom(Bids, bids, id);
      if found {
        bids := levels;
        return true;
      }
      found, levels := RemoveFrom(Asks, asks, id);
      asks := levels;
      return found;
    }
  }

  /** The match loops, on the levels of one side; `other` is the opposite side. */
  method Sweep(side: Side, start: seq<Level>, limit: Option<real>, quantity: real, ghost other: seq<Level>)
    returns (levels: seq<Level>, remaining: real, filled: real, lastPx: real)
    requires AllOrdered(side, start) && Apart(side, start, other)
    ensures AllOrdered(side, levels) && Apart(side, levels, other)
    ensures var (left, t) := Exec(side, Flatten(start), limit, Arriving(quantity));
            Flatten(levels) == left && remaining == t.remaining && filled == t.filled && lastPx == t.last
    ensures remaining > 0.0 ==> forall i :: 0 <= i < |levels| ==> !Crosses(side, levels[i].price, limit)
  {
    levels, remaining, filled, lastPx := start, quantity, 0.0, 0.0;
    ghost var gone: set<Id> := {};
    while |levels| > 0 && remaining > 0.0
      invariant AllOrdered(side, levels) && Apart(side, levels, other)
      invariant Exec(side, Flatten(levels), limit, Taker(remaining, filled, lastPx, gone)) ==
                Exec(side, Flatten(start), limit, Arriving(quantity))
      decreases |levels| + if remaining > 0.0 then 1 else 0
    {
      if limit.Some? {
        var crosses :=
          (side.Asks? && levels[0].price <= limit.value) || (side.Bids? && levels[0].price >= limit.value);
        if !crosses {
          HeadBlocks(side, levels, limit, Taker(remaining, filled, lastPx, gone));
          break;
        }
      }
      var queue;
      queue, remaining, filled, lastPx, gone :=
        Drain(levels[0], remaining, filled, lastPx, side, limit, Flatten(levels[1..]), gone);
      DrainedLevels(side, levels, queue, other);
      levels := if |queue| == 0 then levels[1..] else [Level(levels[0].price, queue)] + levels[1..];
    }
  }

  method Drain(level: Level, remaining0: real, filled0: real, lastPx0: real, ghost side: Side,
               ghost limit: Option<real>, ghost rest: seq<Resting>, ghost gone0: set<Id>)
    returns (queue: seq<Resting>, remaining: real, filled: real, lastPx: real, ghost gone: set<Id>)
    requires AtPrice(level) && Crosses(side, level.price, limit)
    ensures AtPrice(Level(level.price, queue))
    ensures queue == [] || remaining <= 0.0
    ensures Exec(side, queue + rest, limit, Taker(remaining, filled, lastPx, gone)) ==
            Exec(side, level.orders + rest, limit, Taker(remaining0, filled0, lastPx0, gone0))
  {
    queue, remaining, filled, lastPx, gone := level.orders, remaining0, filled0, lastPx0, gone0;
    while |queue| > 0 && remaining > 0.0
      invariant AtPrice(Level(level.price, queue))
      invariant Exec(side, queue + rest, limit, Taker(remaining, filled, lastPx, gone)) ==
                Exec(side, level.orders + rest, limit, Taker(remaining0, filled0, lastPx0, gone0))
      decreases |queue| + if remaining > 0.0 then 1 else 0
    {
      ExecOne(side, queue, rest, limit, Taker(remaining, filled, lastPx, gone));
      var head := queue[0];
      var m := Min(remaining, head.qty);
      filled, lastPx, remaining := filled + m, level.price, remaining - m;
      if head.qty - m == 0.0 {
        gone := gone + {head.id};
        queue := queue[1..];
      } else {
        queue := [head.(qty := head.qty - m)] + queue[1..];
      }
    }
  }

  /** Go's `sort.Slice` promises a sorted permutation, and nothing about equal elements. */
  method SortSlice(side: Side, levels: seq<Level>) returns (sorted: seq<Level>)
    ensures StableSort.Sorted(sorted, LevelLess(side)) && multiset(sorted) == multiset(levels)
  {
    LevelsOrder(side);
    StableSort.SortSorts(levels, LevelLess(side));
    sorted := StableSort.Sort(levels, LevelLess(side));
  }

  lemma LevelsOrder(side: Side)
    ensures StableSort.Ordering(LevelLess(side))
  {
    forall x, y, z ensures StableSort.Between(LevelLess(side), x, y, z) { }
  }

  /** With distinct prices there is only one sorted order, so an unstable sort is as good as a stable one. */
  lemma OnlySorting(side: Side, levels: seq<Level>, level: Level, sorted: seq<Level>)
    requires AllOrdered(side, levels) && forall i :: 0 <= i < |levels| ==> levels[i].price != level.price
    requires StableSort.Sorted(sorted, LevelLess(side)) && multiset(sorted) == multiset(levels + [level])
    ensures sorted == StableSort.InsertLast(levels, level, LevelLess(side))
  {
    var less, stable := LevelLess(side), StableSort.InsertLast(levels, level, LevelLess(side));
    LevelsOrder(side);
    StableSort.InsertLastSorted(levels, level, less);
    StableSort.InsertLastMembers(levels, level, less);
    assert multiset(levels + [level]) == multiset(levels) + multiset{level};
    forall x, y | x in stable && y in stable && !less(x, y) && !less(y, x) ensures x == y {
      assert x == level || x in levels;
    }
    StableSort.SortedUnique(stable, sorted, less);
  }

  // ----- the same fills as the indexed book -----

  predicate SameBook(b: Book, s: Sides) {
    b.bids == s.bids && b.asks == s.asks
  }

  /** The same fill, except that here a cancel always reports success. */
  predicate SameAnswer(o: Order, indexed: bool, fill: Fill, fill': Fill) {
    if o.kind.CancelOrder? then fill'.status.Cancelled? && (fill.status.Cancelled? <==> indexed) else fill' == fill
  }

  lemma SameMarket(b: Book, s: Sides, side: Side, o: Order)
    requires Sound(b) && SameBook(b, s)
    ensures SameBook(MarketOrder(b, side, o).0, AddMarket(s, side, o).0)
    ensures MarketOrder(b, side, o).1 == AddMarket(s, side, o).1
  {
    NeverOverfilled(side, b.On(side), None, Arriving(o.quantity));
  }

  lemma SameLimit(b: Book, s: Sides, side: Side, o: Order)
    requires Sound(b) && SameBook(b, s)
    ensures SameBook(LimitOrder(b, side, o).0, AddLimit(s, side, o).0)
    ensures LimitOrder(b, side, o).1 == AddLimit(s, side, o).1
  {
    NeverOverfilled(side, b.On(side), Some(o.price), Arriving(o.quantity));
  }

  /** A cancel that the indexed book refuses although an order with the id rests. */
  predicate Missed(b: Book, o: Order) {
    o.kind.CancelOrder? && o.id !in b.index && (Has(b.bids, o.id) || Has(b.asks, o.id))
  }

  /** For the four order types the index-free book returns the indexed book's fill; and whatever the order,
      the two books stay the same exactly when it is not a missed cancel. */
  lemma SameFill(b: Book, s: Sides, o: Order)
    requires Sound(b) && SameBook(b, s)
    ensures SameAnswer(o, o.id in b.index, Step(b, o).1, Add(s, o).1)
    ensures SameBook(Step(b, o).0, Add(s, o).0) <==> !Missed(b, o)
  {
    match o.kind
    case MarketBuy => SameMarket(b, s, Asks, o);
    case MarketSell => SameMarket(b, s, Bids, o);
    case LimitBuy => SameLimit(b, s, Asks, o);
    case LimitSell => SameLimit(b, s, Bids, o);
    case CancelOrder =>
      RemoveShrinks(b.bids, o.id);
      RemoveShrinks(b.asks, o.id);
    case UnknownKind(_) =>
  }

  lemma {:induction false} RemoveShrinks(book: seq<Resting>, id: Id)
    ensures |Remove(book, id)| == |book| - (if Has(book, id) then 1 else 0)
    ensures !Has(book, id) ==> Remove(book, id) == book
  {
    if book == [] {
    } else {
      RemoveShrinks(book[1..], id);
      if book[0].id == id {
        assert Has(book, id);
      } else {
        HasBehind(book, id);
      }
    }
  }

  function AddAll(s: Sides, orders: seq<Order>): (fills: seq<Fill>)
    ensures |fills| == |orders|
    decreases |orders|
  {
    if orders == [] then [] else [Add(s, orders[0]).1] + AddAll(Add(s, orders[0]).0, orders[1..])
  }

  predicate NoneMissed(b: Book, orders: seq<Order>)
    decreases |orders|
  {
    orders == [] || (!Missed(b, orders[0]) && NoneMissed(Step(b, orders[0]).0, orders[1..]))
  }

  /** The two books are the same after every order. */
  predicate SameThroughout(b: Book, s: Sides, orders: seq<Order>)
    decreases |orders|
  {
    orders == [] ||
    (SameBook(Step(b, orders[0]).0, Add(s, orders[0]).0)
     && SameThroughout(Step(b, orders[0]).0, Add(s, orders[0]).0, orders[1..]))
  }

  /** Over any run the books stay the same exactly when no cancel is missed. */
  lemma {:induction false} SameExactly(b: Book, s: Sides, orders: seq<Order>)
    requires Sound(b) && SameBook(b, s)
    ensures SameThroughout(b, s, orders) <==> NoneMissed(b, orders)
    decreases |orders|
  {
    if orders == [] {
    } else {
      SameFill(b, s, orders[0]);
      StepKeepsSound(b, orders[0]);
      if !Missed(b, orders[0]) {
        SameExactly(Step(b, orders[0]).0, Add(s, orders[0]).0, orders[1..]);
      }
    }
  }

  /** Over every such run the index-free book returns the indexed book's fills. */
  lemma {:induction false} SameFills(b: Book, s: Sides, orders: seq<Order>)
    requires Sound(b) && SameBook(b, s) && NoneMissed(b, orders)
    ensures var fills, fills' := Run(b, orders).1, AddAll(s, orders);
            && |fills| == |fills'| == |orders|
            && forall i :: 0 <= i < |orders| && !orders[i].kind.CancelOrder? ==> fills'[i] == fills[i]
    decreases |orders|
  {
    if orders == [] {
    } else {
      SameFill(b, s, orders[0]);
      StepKeepsSound(b, orders[0]);
      SameFills(Step(b, orders[0]).0, Add(s, orders[0]).0, orders[1..]);
    }
  }

  /** With fresh ids no cancel is missed. */
  lemma {:induction false} FreshNeverMissed(b: Book, orders: seq<Order>)
    requires Sound(b) && Indexed(b) && FreshRun(b, orders)
    ensures NoneMissed(b, orders)
    decreases |orders|
  {
    if orders == [] {
    } else {
      IdsHas(b.bids, orders[0].id);
      IdsHas(b.asks, orders[0].id);
      StepKeepsSound(b, orders[0]);
      StepKeepsIndexed(b, orders[0]);
      FreshNeverMissed(Step(b, orders[0]).0, orders[1..]);
    }
  }

  lemma {:induction false} NeverOverfilled(side: Side, book: seq<Resting>, limit: Option<real>, t: Taker)
    requires Positive(book)
    ensures t.remaining >= 0.0 ==> Exec(side, book, limit, t).1.remaining >= 0.0
    ensures t.remaining < 0.0 ==> Exec(side, book, limit, t).1 == t
  {
    if book == [] || t.remaining <= 0.0 || !Crosses(side, book[0].price, limit) {
    } else if Min(t.remaining, book[0].qty) == book[0].qty {
      NeverOverfilled(side, book[1..], limit, Trade(t, book[0]));
    }
  }
}
