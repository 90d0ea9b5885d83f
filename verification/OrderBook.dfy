/** The telemetry ingester's order book (`services/telemetry-ingester/shadowbook/order_book.go`):
    sorted price levels holding FIFO queues, and an index of the resting ids. */
module ShadowBook {
  import opened Common
  import opened FlatBook
  import opened Levels
  import MatchingLaws
  import StableSort

  lemma FlatSideSound(side: Side, levels: seq<Level>)
    requires AllOrdered(side, levels)
    ensures MatchingLaws.Priced(side, Flatten(levels)) && MatchingLaws.Positive(Flatten(levels))
  {
    FlattenSorted(side, levels);
    FlattenMembers(side, levels);
    MatchingLaws.PricedFrom(side, Flatten(levels));
    MatchingLaws.PositiveEach(Flatten(levels));
  }

  class OrderBook {
    var bids: seq<Level>
    var asks: seq<Level>
    var orders: set<Id>

    /** Bid levels descend, ask levels ascend, and every bid level is below every ask level; empty
        levels count too. */
    ghost predicate Valid()
      reads this
    {
      && Ordered(Bids, bids)
      && Ordered(Asks, asks)
      && BestApart(bids, asks)
    }

    /** The invariant spelt out for every pair of levels. */
    ghost predicate Spread()
      reads this
    {
      AllOrdered(Bids, bids) && AllOrdered(Asks, asks) && Apart(Bids, bids, asks)
    }

    lemma ValidSpread()
      ensures Valid() <==> Spread()
    {
      if Ordered(Bids, bids) && Ordered(Asks, asks) {
        OrderedUnpack(Bids, bids);
        OrderedUnpack(Asks, asks);
        LevelsApart(bids, asks);
      }
      if Spread() {
        OrderedPack(Bids, bids);
        OrderedPack(Asks, asks);
        LevelsApart(bids, asks);
      }
    }

    ghost function Contents(): Book
      reads this
    {
      Book(Flatten(bids), Flatten(asks), orders)
    }

    /** Whatever empty levels there are, the resting orders themselves are sorted, positive and uncrossed. */
    lemma ValidIsSound()
      requires Valid()
      ensures MatchingLaws.Sound(Contents())
    {
      ValidSpread();
      FlatSideSound(Bids, bids);
      FlatSideSound(Asks, asks);
      if Flatten(bids) != [] && Flatten(asks) != [] {
        var i := FlattenOrigin(Bids, bids, 0);
        var j := FlattenOrigin(Asks, asks, 0);
        assert Better(Asks, bids[i].price, asks[j].price);
      }
    }

    /** No level on this side, empty or not, crosses a limit order at this price. */
    ghost predicate OutOfReach(side: Side, price: real)
      reads this
    {
      forall i :: 0 <= i < |Side(side)| ==> !Crosses(side, Side(side)[i].price, Some(price))
    }

    function Side(side: Side): seq<Level>
      reads this
    {
      if side.Bids? then bids else asks
    }

    ghost const owner: string  // whose orders the book holds

    constructor (ghost owner: string)
      ensures Valid() && Contents() == EMPTY && this.owner == owner
    {
      bids, asks, orders := [], [], {};
      this.owner := owner;
    }

    method ProcessOrder(o: Order) returns (fill: Fill)
      requires Valid()
      modifies this
      ensures Valid()
      ensures (Contents(), fill) == Step(old(Contents()), o)
    {
      var remaining;
      ValidSpread();
      match o.kind {
        case MarketBuy => fill := MatchMarket(o, Asks);
        case MarketSell => fill := MatchMarket(o, Bids);
        case LimitBuy =>
          fill, remaining := MatchLimit(o, Asks);
          if remaining > 0.0 {
            Insert(Bids, Resting(o.id, o.price, remaining));
          }
        case LimitSell =>
          fill, remaining := MatchLimit(o, Bids);
          if remaining > 0.0 {
            Insert(Asks, Resting(o.id, o.price, remaining));
          }
        case CancelOrder =>
          var ok := Cancel(o.id);
          fill := Fill(if ok then Cancelled else NotFound, 0.0, 0.0, 0.0);
        case UnknownKind(_) =>
          fill := Fill(Rejected, 0.0, 0.0, 0.0);
      }
      ValidSpread();
    }

    method SetLevels(side: Side, levels: seq<Level>)
      modifies this
      ensures orders == old(orders)
      ensures bids == (if side.Bids? then levels else old(bids)) && asks == (if side.Asks? then levels else old(asks))
    {
      if side.Bids? { bids := levels; } else { asks := levels; }
    }

    /** The inner loop of both match loops: trades against the queue of one level. The last five
        parameters only say what the loop computes: the rest of the side, and the ids used up. */
    method DrainLevel(level: Level, remaining0: real, filled0: real, lastPx0: real, ghost side: Side,
                      ghost limit: Option<real>, ghost rest: seq<Resting>, ghost ids: set<Id>, ghost gone0: set<Id>)
      returns (queue: seq<Resting>, remaining: real, filled: real, lastPx: real, ghost gone: set<Id>)
      requires AtPrice(level) && Crosses(side, level.price, limit) && orders == ids - gone0
      modifies `orders
      ensures AtPrice(Level(level.price, queue)) && orders == ids - gone
      ensures queue == [] || remaining <= 0.0
      ensures Exec(side, queue + rest, limit, Taker(remaining, filled, lastPx, gone)) ==
              Exec(side, level.orders + rest, limit, Taker(remaining0, filled0, lastPx0, gone0))
    {
      queue, remaining, filled, lastPx, gone := level.orders, remaining0, filled0, lastPx0, gone0;
      while |queue| > 0 && remaining > 0.0
        invariant AtPrice(Level(level.price, queue)) && orders == ids - gone
        invariant Exec(side, queue + rest, limit, Taker(remaining, filled, lastPx, gone)) ==
                  Exec(side, level.orders + rest, limit, Taker(remaining0, filled0, lastPx0, gone0))
        decreases |queue| + if remaining > 0.0 then 1 else 0
      {
        ExecOne(side, queue, rest, limit, Taker(remaining, filled, lastPx, gone));
        var resting := queue[0];
        var m := Min(remaining, resting.qty);
        filled, lastPx, remaining := filled + m, level.price, remaining - m;
        if resting.qty - m == 0.0 {
          orders := orders - {resting.id};
          gone := gone + {resting.id};
          queue := queue[1..];
        } else {
          queue := [resting.(qty := resting.qty - m)] + queue[1..];
        }
      }
    }

    /** The outer loop of both match loops, which differ only in that a limit order stops at the first
        level it does not cross. */
    method Sweep(side: Side, limit: Option<real>, quantity: real)
      returns (levels: seq<Level>, remaining: real, filled: real, lastPx: real, ghost gone: set<Id>)
      requires Spread()
      modifies `orders
      ensures AllOrdered(side, levels) && Apart(side, levels, Side(Opposite(side)))
      ensures (Flatten(levels), Taker(remaining, filled, lastPx, gone)) ==
              Exec(side, Flatten(Side(side)), limit, Arriving(quantity))
      ensures orders == old(orders) - gone
      ensures remaining > 0.0 ==> forall i :: 0 <= i < |levels| ==> !Crosses(side, levels[i].price, limit)
    {
      levels, remaining, filled, lastPx, gone := Side(side), quantity, 0.0, 0.0, {};
      ghost var other := Side(Opposite(side));
      while |levels| > 0 && remaining > 0.0
        invariant AllOrdered(side, levels) && Apart(side, levels, other) && orders == old(orders) - gone
        invariant Exec(side, Flatten(levels), limit, Taker(remaining, filled, lastPx, gone)) ==
                  Exec(side, Flatten(old(Side(side))), limit, Arriving(quantity))
        decreases |levels| + if remaining > 0.0 then 1 else 0
        modifies `orders
      {
        if limit.Some? {
          var crosses :=
            (side.Asks? && levels[0].price <= limit.value) || (side.Bids? && levels[0].price >= limit.value);
          if !crosses {
            HeadBlocks(side, levels, limit, Taker(remaining, filled, lastPx, gone));
            break;
          }
        }
        var queue;
        queue, remaining, filled, lastPx, gone :=
          DrainLevel(levels[0], remaining, filled, lastPx, side, limit, Flatten(levels[1..]), old(orders), gone);
        DrainedLevels(side, levels, queue, other);
        if |queue| == 0 {
          levels := levels[1..];
        } else {
          levels := [Level(levels[0].price, queue)] + levels[1..];
        }
      }
    }

    method MatchMarket(o: Order, side: Side) returns (fill: Fill)
      requires Spread()
      modifies this
      ensures Spread()
      ensures (Contents(), fill) == MarketOrder(old(Contents()), side, o)
    {
      var levels, remaining, filled, lastPx, gone := Sweep(side, None, o.quantity);
      SetLevels(side, levels);
      if filled == 0.0 {
        return Fill(Rejected, 0.0, 0.0, 0.0);
      }
      if remaining > 0.0 {
        return Fill(Partial, lastPx, filled, remaining);
      }
      return Fill(Filled, lastPx, filled, 0.0);
    }

    method MatchLimit(o: Order, side: Side) returns (fill: Fill, remaining: real)
      requires Spread()
      modifies this
      ensures Spread()
      ensures var (left, t) := Exec(side, old(Contents()).On(side), Some(o.price), Arriving(o.quantity));
              && Contents() == old(Contents()).With(side, left, old(orders) - t.gone)
              && fill == LimitFill(t) && remaining == t.remaining
      ensures remaining > 0.0 ==> OutOfReach(side, o.price)
    {
      var levels, filled, lastPx;
      ghost var gone;
      levels, remaining, filled, lastPx, gone := Sweep(side, Some(o.price), o.quantity);
      SetLevels(side, levels);
      if filled == 0.0 {
        fill := Fill(Pending, 0.0, 0.0, remaining);
      } else if remaining > 0.0 {
        fill := Fill(Partial, lastPx, filled, remaining);
      } else {
        fill := Fill(Filled, lastPx, filled, 0.0);
      }
    }

    method Insert(side: Side, o: Resting)
      requires Spread() && o.qty > 0.0
      requires OutOfReach(Opposite(side), o.price)
      modifies this
      ensures Spread()
      ensures Contents() == Rest(old(Contents()), side, o)
    {
      ghost var other := Side(Opposite(side));
      assert forall j :: 0 <= j < |other| ==> Better(side, other[j].price, o.price);
      orders := orders + {o.id};
      var levels := Side(side);
      for i := 0 to |levels|
        invariant unchanged(`bids) && unchanged(`asks) && orders == old(orders) + {o.id}
        invariant forall k :: 0 <= k < i ==> levels[k].price != o.price
      {
        if levels[i].price == o.price {
          AppendInserts(side, levels, i, o);
          AppendedLevels(side, levels, i, o, Side(Opposite(side)));
          SetLevels(side, levels[i := Level(levels[i].price, levels[i].orders + [o])]);
          return;
        }
      }
      var level := Level(o.price, [o]);
      NewLevelInserts(side, levels, o);
      NewLevelOrdered(side, levels, level);
      NewLevelApart(side, levels, level, other);
      StableSort.SortedIsFixed(levels, LevelLess(side));
      assert (levels + [level])[..|levels|] == levels;
      levels := StableSort.Sort(levels + [level], LevelLess(side));
      SetLevels(side, levels);
    }

    method Cancel(id: Id) returns (ok: bool)
      requires Spread()
      modifies this
      ensures Spread()
      ensures ok == (id in old(orders))
      ensures Contents() == CancelById(old(Contents()), id).0
    {
      if id !in orders {
        return false;
      }
      orders := orders - {id};
      var found, levels := RemoveFrom(Bids, bids, id);
      if found {
        bids := levels;
        return true;
      }
      found, levels := RemoveFrom(Asks, asks, id);
      asks := levels;
      return true;
    }
  }
}
