/** The reference C++ server's book (`testdata/sample-orderbook/main.cpp`): each side a price-keyed
    map of deques, and a lookup from order id to side and price. Emptied deques are erased. */
module SampleBook {
  import opened Common
  import opened FlatBook
  import opened Levels

  type Deques = map<real, seq<Resting>>

  /** The key `std::map` iterates first: the highest bid or the lowest ask. */
  function Begin(side: Side, m: Deques): (p: real)
    requires m != map[]
    ensures p in m && forall q :: q in m ==> !Better(side, q, p)
  {
    BeginExists(side, m);
    var p :| p in m && forall q :: q in m ==> !Better(side, q, p);
    p
  }

  lemma BeginExists(side: Side, m: Deques)
    requires m != map[]
    ensures exists p :: p in m && forall q :: q in m ==> !Better(side, q, p)
  {
    HasBest(side, m.Keys, AnyOf(m.Keys));
  }

  ghost function AnyOf<T>(s: set<T>): (x: T)
    requires s != {}
    ensures x in s
  {
    var x :| x in s;
    x
  }

  lemma {:induction false} HasBest(side: Side, keys: set<real>, k: real)
    requires k in keys
    ensures exists p :: p in keys && forall q :: q in keys ==> !Better(side, q, p)
    decreases keys
  {
    if q :| q in keys && Better(side, q, k) {
      HasBest(side, keys - {k}, q);
      var p :| p in keys - {k} && forall q :: q in keys - {k} ==> !Better(side, q, p);
      assert !Better(side, k, p);
      assert forall q :: q in keys ==> q == k || q in keys - {k};
    }
  }

  /** The deques read in iteration order. */
  function Flat(side: Side, m: Deques): seq<Resting>
    decreases |m|
  {
    if m == map[] then [] else m[Begin(side, m)] + Flat(side, m - {Begin(side, m)})
  }

  /** No deque is empty, and every order is filed under its own price. */
  ghost predicate Filed(m: Deques) {
    forall p :: p in m ==> m[p] != [] && AtPrice(Level(p, m[p]))
  }

  /** The book as its two sides in iteration order and its lookup table; `true` marks a bid. */
  datatype State = State(bids: seq<Resting>, asks: seq<Resting>, lookup: map<Id, (bool, real)>) {
    function On(side: Side): seq<Resting> {
      if side.Bids? then bids else asks
    }

    function With(side: Side, s: seq<Resting>, table: map<Id, (bool, real)>): State {
      if side.Bids? then State(s, asks, table) else State(bids, s, table)
    }
  }

  /** The status ladder of `handleOrder`. */
  function OrderStatus(kind: Kind, t: Taker): Status {
    if t.filled == 0.0 && (kind.MarketBuy? || kind.MarketSell?) then Rejected
    else if t.filled == 0.0 then Pending
    else if t.remaining > 0.0 then Partial
    else Filled
  }

  function OrderStep(s: State, o: Order): (State, Fill) {
    if o.kind.MarketBuy? || o.kind.LimitBuy? then Execute(s, Asks, o)
    else if o.kind.MarketSell? || o.kind.LimitSell? then Execute(s, Bids, o)
    else (s, Fill(Pending, 0.0, 0.0, o.quantity))
  }

  function LimitOf(o: Order): Option<real> {
    if o.kind.LimitBuy? || o.kind.LimitSell? then Some(o.price) else None
  }

  function Execute(s: State, side: Side, o: Order): (State, Fill) {
    var (left, t) := Exec(side, s.On(side), LimitOf(o), Arriving(o.quantity));
    var s' := s.With(side, left, s.lookup - t.gone);
    var home := Opposite(side);
    (if LimitOf(o).Some? && t.remaining > 0.0
     then s'.With(home, Insert(home, s.On(home), Resting(o.id, o.price, t.remaining)),
                  s'.lookup[o.id := (home.Bids?, o.price)])
     else s',
     Fill(OrderStatus(o.kind, t), t.last, t.filled, t.remaining))
  }

  /** Deletes the first order with this id and this price. */
  function RemovePriced(book: seq<Resting>, id: Id, price: real): seq<Resting> {
    if book == [] then []
    else if book[0].id == id && book[0].price == price then book[1..]
    else [book[0]] + RemovePriced(book[1..], id, price)
  }

  function CancelStep(s: State, id: Id): (State, Fill) {
    if id !in s.lookup then (s, Fill(NotFound, 0.0, 0.0, 0.0))
    else
      var (isBid, price) := s.lookup[id];
      var side := if isBid then Bids else Asks;
      (s.With(side, RemovePriced(s.On(side), id, price), s.lookup - {id}), Fill(Cancelled, 0.0, 0.0, 0.0))
  }

  /** Cancels are posted to their own endpoint, everything else to `/order`. */
  function Serve(s: State, o: Order): (State, Fill) {
    if o.kind.CancelOrder? then CancelStep(s, o.id) else OrderStep(s, o)
  }

  function PushBack(m: Deques, r: Resting): Deques {
    m[r.price := (if r.price in m then m[r.price] else []) + [r]]
  }

  /** Replacing the first deque replaces the front of the flat side. */
  lemma FlatHead(side: Side, m: Deques, q: seq<Resting>)
    requires m != map[]
    ensures Flat(side, m[Begin(side, m) := q]) == q + Flat(side, m - {Begin(side, m)})
  {
    var it := Begin(side, m);
    var m' := m[it := q];
    assert Begin(side, m') == it by { assert m'.Keys == m.Keys; assert it in m'; }
    assert m' - {it} == m - {it};
  }

  /** Trading with the first deque keeps the map filed, whether the deque is shrunk or erased. */
  lemma DrainedDeques(side: Side, m: Deques, q: seq<Resting>)
    requires Filed(m) && m != map[] && AtPrice(Level(Begin(side, m), q))
    ensures var m' := if q == [] then m - {Begin(side, m)} else m[Begin(side, m) := q];
            Filed(m') && Flat(side, m') == q + Flat(side, m - {Begin(side, m)})
  {
    FlatHead(side, m, q);
    assert [] + Flat(side, m - {Begin(side, m)}) == Flat(side, m - {Begin(side, m)});
  }

  /** A change at a later key leaves the first deque in front. */
  lemma FlatLater(side: Side, m: Deques, p: real, q: seq<Resting>)
    requires m != map[] && Better(side, Begin(side, m), p)
    ensures Flat(side, m[p := q]) == m[Begin(side, m)] + Flat(side, (m - {Begin(side, m)})[p := q])
  {
    var it := Begin(side, m);
    var m' := m[p := q];
    assert it in m' && forall k :: k in m' ==> !Better(side, k, it);
    assert Begin(side, m') == it;
    assert m' - {it} == (m - {it})[p := q];
  }

  lemma FlatWithout(side: Side, m: Deques, p: real)
    requires m != map[] && Begin(side, m) != p
    ensures Flat(side, m - {p}) == m[Begin(side, m)] + Flat(side, (m - {Begin(side, m)}) - {p})
  {
    var it := Begin(side, m);
    var m' := m - {p};
    assert it in m' && forall k :: k in m' ==> !Better(side, k, it);
    assert Begin(side, m') == it;
    assert m' - {it} == (m - {it}) - {p};
  }

  /** A better price than any in the map starts a new first deque. */
  lemma PushFirst(side: Side, m: Deques, r: Resting)
    requires m == map[] || Better(side, r.price, Begin(side, m))
    ensures Flat(side, PushBack(m, r)) == [r] + Flat(side, m)
  {
    assert r.price !in m;
    var m' := PushBack(m, r);
    assert r.price in m' && forall k :: k in m' ==> !Better(side, k, r.price);
    assert Begin(side, m') == r.price;
    assert m' - {r.price} == m;
  }

  /** `bids[price].push_back(...)` inserts into the flat side in price-time order. */
  lemma {:induction false} PushInserts(side: Side, m: Deques, r: Resting)
    requires Filed(m)
    ensures Flat(side, PushBack(m, r)) == Insert(side, Flat(side, m), r)
    decreases |m|
  {
    if m == map[] {
      PushFirst(side, m, r);
    } else {
      var it := Begin(side, m);
      var q, rest := m[it], Flat(side, m - {it});
      if Better(side, r.price, it) {
        PushFirst(side, m, r);
        assert (q + rest)[0] == q[0];
      } else {
        InsertPast(side, q, rest, r);
        if r.price == it {
          FlatHead(side, m, q + [r]);
          InsertFront(side, m, r);
          assert (q + [r]) + rest == q + ([r] + rest);
        } else {
          FlatLater(side, m, r.price, PushBack(m, r)[r.price]);
          PushInserts(side, m - {it}, r);
        }
      }
    }
  }

  lemma InsertFront(side: Side, m: Deques, r: Resting)
    requires Filed(m) && m != map[] && r.price == Begin(side, m)
    ensures var rest := Flat(side, m - {Begin(side, m)}); Insert(side, rest, r) == [r] + rest
  {
    RestIsLater(side, m);
  }

  /** Everything behind the first deque is at a strictly worse price. */
  lemma RestIsLater(side: Side, m: Deques)
    requires Filed(m) && m != map[]
    ensures var rest := Flat(side, m - {Begin(side, m)});
            forall k :: 0 <= k < |rest| ==> Better(side, Begin(side, m), rest[k].price)
  {
    var it := Begin(side, m);
    FlatKeys(side, m - {it});
    var rest := Flat(side, m - {it});
    forall k | 0 <= k < |rest| ensures Better(side, it, rest[k].price) {
      assert rest[k].price in m - {it};
    }
  }

  lemma {:induction false} FlatKeys(side: Side, m: Deques)
    requires Filed(m)
    ensures forall k :: 0 <= k < |Flat(side, m)| ==> Flat(side, m)[k].price in m
    decreases |m|
  {
    if m == map[] {
    } else {
      FlatKeys(side, m - {Begin(side, m)});
    }
  }

  lemma {:induction false} RemovePricedPast(q: seq<Resting>, rest: seq<Resting>, id: Id, px: real)
    requires forall k :: 0 <= k < |q| ==> q[k].id != id || q[k].price != px
    ensures RemovePriced(q + rest, id, px) == q + RemovePriced(rest, id, px)
  {
    if q == [] {
      assert q + rest == rest;
    } else {
      assert (q + rest)[1..] == q[1..] + rest;
      RemovePricedPast(q[1..], rest, id, px);
    }
  }

  lemma EraseAbsent(side: Side, m: Deques, id: Id, px: real)
    requires Filed(m) && (px !in m || forall k :: 0 <= k < |m[px]| ==> m[px][k].id != id)
    ensures RemovePriced(Flat(side, m), id, px) == Flat(side, m)
    decreases |m|
  {
    if m != map[] {
      var it := Begin(side, m);
      RemovePricedPast(m[it], Flat(side, m - {it}), id, px);
      EraseAbsent(side, m - {it}, id, px);
    }
  }

  lemma {:induction false} RemovePricedIn(q: seq<Resting>, i: nat, rest: seq<Resting>, id: Id, px: real)
    requires i < |q| && q[i].id == id && q[i].price == px && forall k :: 0 <= k < i ==> q[k].id != id
    ensures RemovePriced(q + rest, id, px) == q[..i] + q[i + 1..] + rest
  {
    assert (q + rest)[1..] == q[1..] + rest;
    if i > 0 {
      RemovePricedIn(q[1..], i - 1, rest, id, px);
      assert q[1..][i..] == q[i + 1..];
    }
  }

  lemma {:induction false} EraseAt(side: Side, m: Deques, i: nat, id: Id, px: real)
    requires Filed(m) && px in m && i < |m[px]| && m[px][i].id == id && forall k :: 0 <= k < i ==> m[px][k].id != id
    ensures var q := m[px][..i] + m[px][i + 1..];
            Flat(side, if q == [] then m - {px} else m[px := q]) == RemovePriced(Flat(side, m), id, px)
    decreases |m|
  {
    var it := Begin(side, m);
    var q := m[px][..i] + m[px][i + 1..];
    if it == px {
      RemovePricedIn(m[px], i, Flat(side, m - {it}), id, px);
      FlatHead(side, m, q);
      assert q == [] ==> q + Flat(side, m - {it}) == Flat(side, m - {it});
    } else {
      RemovePricedPast(m[it], Flat(side, m - {it}), id, px);
      EraseAt(side, m - {it}, i, id, px);
      if q == [] {
        FlatWithout(side, m, px);
      } else {
        FlatLater(side, m, px, q);
      }
    }
  }

  class Book {
    var bids: Deques
    var asks: Deques
    var lookup: map<Id, (bool, real)>

    ghost predicate Valid()
      reads this
    {
      Filed(bids) && Filed(asks)
    }

    ghost function Contents(): State
      reads this
    {
      State(Flat(Bids, bids), Flat(Asks, asks), lookup)
    }

    constructor ()
      ensures Valid() && Contents() == State([], [], map[])
    {
      bids, asks, lookup := map[], map[], map[];
    }

    method Reset()
      modifies this
      ensures Valid() && Contents() == State([], [], map[])
    {
      bids, asks, lookup := map[], map[], map[];
    }

    method HandleOrder(o: Order) returns (reply: Fill)
      requires Valid()
      modifies this
      ensures Valid()
      ensures (Contents(), reply) == OrderStep(old(Contents()), o)
    {
      var remaining, filled, lastPx := o.quantity, 0.0, 0.0;
      if o.kind.MarketBuy? || o.kind.LimitBuy? {
        remaining, filled, lastPx := MatchAndRest(Asks, o);
      } else if o.kind.MarketSell? || o.kind.LimitSell? {
        remaining, filled, lastPx := MatchAndRest(Bids, o);
      }
      var status;
      if filled == 0.0 && (o.kind.MarketBuy? || o.kind.MarketSell?) {
        status := Rejected;
      } else if filled == 0.0 {
        status := Pending;
      } else if remaining > 0.0 {
        status := Partial;
      } else {
        status := Filled;
      }
      return Fill(status, lastPx, filled, remaining);
    }

    function On(side: Side): Deques
      reads this
    {
      if side.Bids? then bids else asks
    }

    method SetSide(side: Side, m: Deques)
      modifies this
      ensures lookup == old(lookup) && On(side) == m && On(Opposite(side)) == old(On(Opposite(side)))
    {
      if side.Bids? { bids := m; } else { asks := m; }
    }

    /** The two branches of `handleOrder`, which mirror each other: the matching loops over `side`,
        then what is left of a limit order rests on the other side. */
    method MatchAndRest(side: Side, o: Order) returns (remaining: real, filled: real, lastPx: real)
      requires Valid() && (o.kind.LimitBuy? ==> side.Asks?) && (o.kind.LimitSell? ==> side.Bids?)
      modifies this
      ensures Valid()
      ensures var status := OrderStatus(o.kind, Taker(remaining, filled, lastPx, {}));
              (Contents(), Fill(status, lastPx, filled, remaining)) == Execute(old(Contents()), side, o)
    {
      var m;
      m, remaining, filled, lastPx := Consume(side, On(side), o);
      SetSide(side, m);
      if LimitOf(o).Some? && remaining > 0.0 {
        RestOn(Opposite(side), Resting(o.id, o.price, remaining));
      }
    }

    method Consume(side: Side, m0: Deques, o: Order) returns (m: Deques, remaining: real, filled: real, lastPx: real)
      requires Filed(m0) && (o.kind.LimitBuy? ==> side.Asks?) && (o.kind.LimitSell? ==> side.Bids?)
      modifies `lookup
      ensures Filed(m)
      ensures var (left, t) := Exec(side, Flat(side, m0), LimitOf(o), Arriving(o.quantity));
              && Flat(side, m) == left && lookup == old(lookup) - t.gone
              && remaining == t.remaining && filled == t.filled && lastPx == t.last
    {
      m, remaining, filled, lastPx := m0, o.quantity, 0.0, 0.0;
      ghost var gone: set<Id> := {};
      while remaining > 0.0 && m != map[]
        invariant Filed(m) && lookup == old(lookup) - gone
        invariant Exec(side, Flat(side, m), LimitOf(o), Taker(remaining, filled, lastPx, gone)) ==
                  Exec(side, Flat(side, m0), LimitOf(o), Arriving(o.quantity))
        decreases |m| + if remaining > 0.0 then 1 else 0
      {
        var it := Begin(side, m);
        if o.kind.LimitBuy? && it > o.price { break; }
        if o.kind.LimitSell? && it < o.price { break; }
        var q;
        q, remaining, filled, lastPx, gone :=
          DrainDeque(it, m[it], remaining, filled, lastPx, side, LimitOf(o), Flat(side, m - {it}), old(lookup), gone);
        DrainedDeques(side, m, q);
        m := if q == [] then m - {it} else m[it := q];
      }
    }

    method RestOn(side: Side, r: Resting)
      requires Valid() && r.qty > 0.0
      modifies this
      ensures Valid()
      ensures Contents() == old(Contents()).With(side, Insert(side, old(Contents()).On(side), r),
                                                 old(lookup)[r.id := (side.Bids?, r.price)])
    {
      PushInserts(side, On(side), r);
      SetSide(side, PushBack(On(side), r));
      lookup := lookup[r.id := (side.Bids?, r.price)];
    }

    /** The inner matching loop, over one deque. The last five parameters only say what it computes. */
    method DrainDeque(it: real, deque: seq<Resting>, remaining0: real, filled0: real, lastPx0: real, ghost side: Side,
                      ghost limit: Option<real>, ghost rest: seq<Resting>, ghost table: map<Id, (bool, real)>,
                      ghost gone0: set<Id>)
      returns (q: seq<Resting>, remaining: real, filled: real, lastPx: real, ghost gone: set<Id>)
      requires AtPrice(Level(it, deque)) && Crosses(side, it, limit) && lookup == table - gone0
      modifies `lookup
      ensures AtPrice(Level(it, q)) && lookup == table - gone
      ensures q == [] || remaining <= 0.0
      ensures Exec(side, q + rest, limit, Taker(remaining, filled, lastPx, gone)) ==
              Exec(side, deque + rest, limit, Taker(remaining0, filled0, lastPx0, gone0))
    {
      q, remaining, filled, lastPx, gone := deque, remaining0, filled0, lastPx0, gone0;
      while remaining > 0.0 && q != []
        invariant AtPrice(Level(it, q)) && lookup == table - gone
        invariant Exec(side, q + rest, limit, Taker(remaining, filled, lastPx, gone)) ==
                  Exec(side, deque + rest, limit, Taker(remaining0, filled0, lastPx0, gone0))
        decreases |q| + if remaining > 0.0 then 1 else 0
      {
        ExecOne(side, q, rest, limit, Taker(remaining, filled, lastPx, gone));
        var front := q[0];
        var trade := Min(remaining, front.qty);
        filled, lastPx, remaining := filled + trade, it, remaining - trade;
        if front.qty - trade <= 0.0 {
          lookup := lookup - {front.id};
          gone := gone + {front.id};
          q := q[1..];
        } else {
          q := [front.(qty := front.qty - trade)] + q[1..];
        }
      }
    }

    method HandleCancel(id: Id) returns (reply: Fill)
      requires Valid()
      modifies this
      ensures Valid()
      ensures (Contents(), reply) == CancelStep(old(Contents()), id)
    {
      if id !in lookup {
        return Fill(NotFound, 0.0, 0.0, 0.0);
      }
      var (isBid, px) := lookup[id];
      if isBid {
        bids := Erase(Bids, bids, id, px);
      } else {
        asks := Erase(Asks, asks, id, px);
      }
      lookup := lookup - {id};
      return Fill(Cancelled, 0.0, 0.0, 0.0);
    }
  }

  /** Takes an order out of the deque at its price, and the deque out of the map once it is empty. */
  method Erase(side: Side, m: Deques, id: Id, px: real) returns (m': Deques)
    requires Filed(m)
    ensures Filed(m') && Flat(side, m') == RemovePriced(Flat(side, m), id, px)
  {
    if px !in m {
      EraseAbsent(side, m, id, px);
      return m;
    }
    var q := m[px];
    for i := 0 to |q|
      invariant forall k :: 0 <= k < i ==> q[k].id != id
    {
      if q[i].id == id {
        q := q[..i] + q[i + 1..];
        EraseAt(side, m, i, id, px);
        return if q == [] then m - {px} else m[px := q];
      }
    }
    EraseAbsent(side, m, id, px);
    return m;
  }
}
