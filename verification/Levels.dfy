/** Price levels with FIFO queues, as the Go books store them, and how they flatten. Levels may be
    empty: a cancel takes an order out of its level and leaves the level behind. */
module Levels {
  import opened Common
  import opened FlatBook
  import StableSort

  datatype Level = Level(price: real, orders: seq<Resting>)

  function Flatten(levels: seq<Level>): seq<Resting> {
    if levels == [] then [] else levels[0].orders + Flatten(levels[1..])
  }

  /** Level prices strictly worsen, and every order sits in the level of its own price. */
  ghost predicate AllOrdered(side: Side, levels: seq<Level>) {
    && (forall i, j :: 0 <= i < j < |levels| ==> Better(side, levels[i].price, levels[j].price))
    && (forall i :: 0 <= i < |levels| ==> AtPrice(levels[i]))
  }

  /** The same, said of neighbours. */
  ghost predicate Ordered(side: Side, levels: seq<Level>) {
    levels == [] ||
    (AtPrice(levels[0]) && (|levels| > 1 ==> Better(side, levels[0].price, levels[1].price))
     && Ordered(side, levels[1..]))
  }

  lemma {:induction false} OrderedUnpack(side: Side, levels: seq<Level>)
    requires Ordered(side, levels)
    ensures AllOrdered(side, levels)
  {
    if levels == [] {
    } else {
      OrderedUnpack(side, levels[1..]);
      assert forall i :: 1 <= i < |levels| ==> levels[i] == levels[1..][i - 1];
    }
  }

  lemma {:induction false} OrderedPack(side: Side, levels: seq<Level>)
    requires AllOrdered(side, levels)
    ensures Ordered(side, levels)
  {
    if levels == [] {
    } else {
      OrderedPack(side, levels[1..]);
    }
  }

  /** Every order in a level has the level's price and something left. */
  predicate AtPrice(level: Level) {
    forall k :: 0 <= k < |level.orders| ==> level.orders[k].price == level.price && level.orders[k].qty > 0.0
  }

  function LevelLess(side: Side): (Level, Level) -> bool {
    (a: Level, b: Level) => Better(side, a.price, b.price)
  }

  /** Every order in the flattened book comes from a level at its own price. */
  lemma {:induction false} FlattenOrigin(side: Side, levels: seq<Level>, k: nat) returns (i: nat)
    requires AllOrdered(side, levels) && k < |Flatten(levels)|
    ensures i < |levels| && levels[i].price == Flatten(levels)[k].price && Flatten(levels)[k] in levels[i].orders
    ensures Flatten(levels)[k].qty > 0.0
  {
    var h := |levels[0].orders|;
    if k < h {
      i := 0;
      assert Flatten(levels)[k] == levels[0].orders[k];
    } else {
      i := FlattenOrigin(side, levels[1..], k - h);
      i := i + 1;
    }
  }

  lemma FlattenMembers(side: Side, levels: seq<Level>)
    requires AllOrdered(side, levels)
    ensures forall k :: 0 <= k < |Flatten(levels)| ==>
              Flatten(levels)[k].qty > 0.0 && !Better(side, Flatten(levels)[k].price, levels[0].price)
  {
    forall k | 0 <= k < |Flatten(levels)|
      ensures Flatten(levels)[k].qty > 0.0 && !Better(side, Flatten(levels)[k].price, levels[0].price)
    {
      var i := FlattenOrigin(side, levels, k);
    }
  }

  /** The flattened book is sorted by price. */
  lemma {:induction false} FlattenSorted(side: Side, levels: seq<Level>)
    requires AllOrdered(side, levels)
    ensures forall i, j :: 0 <= i < j < |Flatten(levels)| ==>
              !Better(side, Flatten(levels)[j].price, Flatten(levels)[i].price)
  {
    if levels == [] {
    } else {
      FlattenSorted(side, levels[1..]);
      FlattenMembers(side, levels[1..]);
      FlattenMembers(side, levels);
      var f, h, rest := Flatten(levels), |levels[0].orders|, Flatten(levels[1..]);
      forall i, j | 0 <= i < j < |f| ensures !Better(side, f[j].price, f[i].price) {
        if i < h {
          assert f[i] == levels[0].orders[i];
        } else {
          assert f[i] == rest[i - h] && f[j] == rest[j - h];
        }
      }
    }
  }

  /** A head level out of reach stops the flat book too, even when that level is empty. */
  lemma HeadBlocks(side: Side, levels: seq<Level>, limit: Option<real>, t: Taker)
    requires AllOrdered(side, levels) && levels != [] && !Crosses(side, levels[0].price, limit)
    ensures Exec(side, Flatten(levels), limit, t) == (Flatten(levels), t)
  {
    FlattenMembers(side, levels);
  }

  /** One trade against the head of a queue is one step of the flat execution. */
  lemma ExecOne(side: Side, queue: seq<Resting>, rest: seq<Resting>, limit: Option<real>, t: Taker)
    requires queue != [] && t.remaining > 0.0 && Crosses(side, queue[0].price, limit)
    ensures var r := queue[0];
            var m := Min(t.remaining, r.qty);
            var queue' := if m == r.qty then queue[1..] else [r.(qty := r.qty - m)] + queue[1..];
            Exec(side, queue + rest, limit, t) == Exec(side, queue' + rest, limit, Trade(t, r))
  {
    var r := queue[0];
    var m := Min(t.remaining, r.qty);
    assert (queue + rest)[1..] == queue[1..] + rest;
    var reduced := [r.(qty := r.qty - m)];
    assert (reduced + queue[1..]) + rest == reduced + (queue[1..] + rest);
  }

  /** Appending to the queue of the level at the order's price inserts it in the flat book. */
  lemma {:induction false} AppendInserts(side: Side, levels: seq<Level>, i: nat, r: Resting)
    requires AllOrdered(side, levels) && i < |levels| && levels[i].price == r.price
    ensures Flatten(levels[i := Level(levels[i].price, levels[i].orders + [r])]) == Insert(side, Flatten(levels), r)
  {
    var levels' := levels[i := Level(levels[i].price, levels[i].orders + [r])];
    var q, rest := levels[0].orders, Flatten(levels[1..]);
    InsertPast(side, q, rest, r);
    if i == 0 {
      assert levels'[1..] == levels[1..];
      if levels[1..] != [] {
        FlattenMembers(side, levels[1..]);
      }
      assert Insert(side, rest, r) == [r] + rest;
      assert (q + [r]) + rest == q + ([r] + rest);
    } else {
      assert levels'[1..] == levels[1..][i - 1 := levels'[i]];
      AppendInserts(side, levels[1..], i - 1, r);
    }
  }

  lemma {:induction false} InsertPast(side: Side, q: seq<Resting>, rest: seq<Resting>, r: Resting)
    requires forall k :: 0 <= k < |q| ==> !Better(side, r.price, q[k].price)
    ensures Insert(side, q + rest, r) == q + Insert(side, rest, r)
  {
    if q == [] {
      assert q + rest == rest;
    } else {
      var s := q + rest;
      assert s[0] == q[0] && s[1..] == q[1..] + rest;
      InsertPast(side, q[1..], rest, r);
      assert [q[0]] + (q[1..] + Insert(side, rest, r)) == q + Insert(side, rest, r);
    }
  }

  /** A new level, appended and then sorted into place, keeps the levels ordered... */
  lemma {:induction false} NewLevelOrdered(side: Side, levels: seq<Level>, l: Level)
    requires AllOrdered(side, levels) && AtPrice(l)
    requires forall i :: 0 <= i < |levels| ==> levels[i].price != l.price
    ensures AllOrdered(side, StableSort.InsertLast(levels, l, LevelLess(side)))
  {
    var less := LevelLess(side);
    if levels != [] && less(l, levels[|levels| - 1]) {
      var front, z := levels[..|levels| - 1], levels[|levels| - 1];
      NewLevelOrdered(side, front, l);
      StableSort.InsertLastMembers(front, l, less);
      var inner := StableSort.InsertLast(front, l, less);
      forall i | 0 <= i < |inner| ensures Better(side, inner[i].price, z.price) {
        assert inner[i] in inner;
      }
    }
  }

  /** ... and inserts its order in the flat book. */
  lemma {:induction false} NewLevelInserts(side: Side, levels: seq<Level>, r: Resting)
    requires AllOrdered(side, levels)
    requires forall i :: 0 <= i < |levels| ==> levels[i].price != r.price
    ensures Flatten(StableSort.InsertLast(levels, Level(r.price, [r]), LevelLess(side))) ==
            Insert(side, Flatten(levels), r)
  {
    var l := Level(r.price, [r]);
    if levels != [] && Better(side, r.price, levels[|levels| - 1].price) {
      var front, z := levels[..|levels| - 1], levels[|levels| - 1];
      NewLevelInserts(side, front, r);
      FlattenSnoc(StableSort.InsertLast(front, l, LevelLess(side)), z);
      FlattenSnoc(front, z);
      assert levels == front + [z];
      InsertBefore(side, Flatten(front), z.orders, r);
    } else {
      FlattenSnoc(levels, l);
      forall k | 0 <= k < |Flatten(levels)| ensures !Better(side, r.price, Flatten(levels)[k].price) {
        var i := FlattenOrigin(side, levels, k);
      }
      InsertPast(side, Flatten(levels), [], r);
      assert Flatten(levels) + [] == Flatten(levels);
    }
  }

  lemma {:induction false} InsertBefore(side: Side, a: seq<Resting>, z: seq<Resting>, r: Resting)
    requires forall k :: 0 <= k < |z| ==> Better(side, r.price, z[k].price)
    ensures Insert(side, a + z, r) == Insert(side, a, r) + z
  {
    if a == [] {
      assert a + z == z;
      assert Insert(side, z, r) == [r] + z;
    } else {
      assert (a + z)[1..] == a[1..] + z;
      InsertBefore(side, a[1..], z, r);
      assert (a + z)[0] == a[0];
    }
  }

  lemma {:induction false} FlattenSnoc(levels: seq<Level>, z: Level)
    ensures Flatten(levels + [z]) == Flatten(levels) + z.orders
  {
    if levels == [] {
      assert Flatten([z]) == z.orders + Flatten([]);
    } else {
      assert (levels + [z])[1..] == levels[1..] + [z];
      FlattenSnoc(levels[1..], z);
    }
  }

  /** Every level of `levels`, on `side`, is on its own side of every level of `other`. */
  ghost predicate Apart(side: Side, levels: seq<Level>, other: seq<Level>) {
    forall i, j :: 0 <= i < |levels| && 0 <= j < |other| ==> Better(side, other[j].price, levels[i].price)
  }

  /** Apart, said of the best levels. */
  predicate BestApart(bids: seq<Level>, asks: seq<Level>) {
    bids == [] || asks == [] || bids[0].price < asks[0].price
  }

  /** In ordered levels every bid level is below every ask level as soon as the best ones are. */
  lemma LevelsApart(bids: seq<Level>, asks: seq<Level>)
    requires AllOrdered(Bids, bids) && AllOrdered(Asks, asks)
    ensures BestApart(bids, asks) <==> Apart(Bids, bids, asks)
  {
    forall i, j | BestApart(bids, asks) && 0 <= i < |bids| && 0 <= j < |asks| ensures bids[i].price < asks[j].price {
      assert bids[i].price <= bids[0].price;
      assert asks[0].price <= asks[j].price;
    }
  }

  /** The levels once trading has left `queue` at the head: an emptied head level is dropped. */
  function Drained(levels: seq<Level>, queue: seq<Resting>): seq<Level>
    requires levels != []
  {
    if queue == [] then levels[1..] else [Level(levels[0].price, queue)] + levels[1..]
  }

  lemma DrainedLevels(side: Side, levels: seq<Level>, queue: seq<Resting>, other: seq<Level>)
    requires AllOrdered(side, levels) && Apart(side, levels, other)
    requires levels != [] && AtPrice(Level(levels[0].price, queue))
    ensures AllOrdered(side, Drained(levels, queue)) && Apart(side, Drained(levels, queue), other)
    ensures Flatten(Drained(levels, queue)) == queue + Flatten(levels[1..])
  {
    if queue == [] {
      assert queue + Flatten(levels[1..]) == Flatten(levels[1..]);
    } else {
      assert Drained(levels, queue)[1..] == levels[1..];
    }
  }

  lemma AppendedLevels(side: Side, levels: seq<Level>, i: nat, r: Resting, other: seq<Level>)
    requires AllOrdered(side, levels) && Apart(side, levels, other)
    requires i < |levels| && levels[i].price == r.price && r.qty > 0.0
    ensures AllOrdered(side, levels[i := Level(levels[i].price, levels[i].orders + [r])])
    ensures Apart(side, levels[i := Level(levels[i].price, levels[i].orders + [r])], other)
  {
  }

  lemma NewLevelApart(side: Side, levels: seq<Level>, l: Level, other: seq<Level>)
    requires Apart(side, levels, other)
    requires forall j :: 0 <= j < |other| ==> Better(side, other[j].price, l.price)
    ensures Apart(side, StableSort.InsertLast(levels, l, LevelLess(side)), other)
  {
    StableSort.InsertLastMembers(levels, l, LevelLess(side));
    var levels' := StableSort.InsertLast(levels, l, LevelLess(side));
    forall i, j | 0 <= i < |levels'| && 0 <= j < |other| ensures Better(side, other[j].price, levels'[i].price) {
      assert levels'[i] in levels';
    }
  }

  lemma {:induction false} NotFoundIn(levels: seq<Level>, id: Id)
    requires forall i :: 0 <= i < |levels| ==> !Has(levels[i].orders, id)
    ensures !Has(Flatten(levels), id)
    ensures Remove(Flatten(levels), id) == Flatten(levels)
  {
    if levels == [] {
    } else {
      NotFoundIn(levels[1..], id);
      RemovePast(levels[0].orders, Flatten(levels[1..]), id);
    }
  }

  lemma {:induction false} RemovePast(q: seq<Resting>, rest: seq<Resting>, id: Id)
    requires !Has(q, id)
    ensures Remove(q + rest, id) == q + Remove(rest, id)
  {
    if q == [] {
      assert q + rest == rest;
    } else {
      assert (q + rest)[1..] == q[1..] + rest;
      RemovePast(q[1..], rest, id);
    }
  }

  lemma {:induction false} RemoveIn(q: seq<Resting>, j: nat, rest: seq<Resting>, id: Id)
    requires j < |q| && q[j].id == id && forall k :: 0 <= k < j ==> q[k].id != id
    ensures Remove(q + rest, id) == q[..j] + q[j + 1..] + rest
  {
    if j == 0 {
      assert (q + rest)[1..] == q[1..] + rest;
    } else {
      assert (q + rest)[1..] == q[1..] + rest;
      RemoveIn(q[1..], j - 1, rest, id);
      assert q[1..][j..] == q[j + 1..];
    }
  }

  lemma {:induction false} RemoveAt(levels: seq<Level>, i: nat, j: nat, id: Id)
    requires i < |levels| && j < |levels[i].orders| && levels[i].orders[j].id == id
    requires forall k :: 0 <= k < i ==> !Has(levels[k].orders, id)
    requires forall k :: 0 <= k < j ==> levels[i].orders[k].id != id
    ensures Has(Flatten(levels), id)
    ensures Flatten(levels[i := Level(levels[i].price, levels[i].orders[..j] + levels[i].orders[j + 1..])]) ==
            Remove(Flatten(levels), id)
  {
    var q := levels[i].orders;
    var levels' := levels[i := Level(levels[i].price, q[..j] + q[j + 1..])];
    if i == 0 {
      RemoveIn(q, j, Flatten(levels[1..]), id);
      assert Flatten(levels)[j].id == id;
      assert levels'[1..] == levels[1..];
    } else {
      RemoveAt(levels[1..], i - 1, j, id);
      RemovePast(levels[0].orders, Flatten(levels[1..]), id);
      assert levels'[1..] == levels[1..][i - 1 := levels'[i]];
      var k :| 0 <= k < |Flatten(levels[1..])| && Flatten(levels[1..])[k].id == id;
      assert Flatten(levels)[|levels[0].orders| + k].id == id;
    }
  }

  /** Deletes the first order with this id, level by level; its level stays, even when it is empty. */
  method RemoveFrom(side: Side, levels: seq<Level>, id: Id) returns (found: bool, levels': seq<Level>)
    requires AllOrdered(side, levels)
    ensures found == Has(Flatten(levels), id)
    ensures Flatten(levels') == Remove(Flatten(levels), id)
    ensures AllOrdered(side, levels')
    ensures |levels'| == |levels| && forall i :: 0 <= i < |levels| ==> levels'[i].price == levels[i].price
  {
    for i := 0 to |levels|
      invariant forall k :: 0 <= k < i ==> !Has(levels[k].orders, id)
    {
      var q := levels[i].orders;
      for j := 0 to |q|
        invariant forall k :: 0 <= k < j ==> q[k].id != id
      {
        if q[j].id == id {
          RemoveAt(levels, i, j, id);
          return true, levels[i := Level(levels[i].price, q[..j] + q[j + 1..])];
        }
      }
    }
    NotFoundIn(levels, id);
    return false, levels;
  }
}
