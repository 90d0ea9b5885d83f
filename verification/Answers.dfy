/** What every order does to the book and what it is answered, in prices and quantities alone: how much rests
    at prices it accepts decides how much it trades, the status and what is left, and nothing else does. */
module Answers {
  import opened Common
  import opened FlatBook
  import opened MatchingLaws

  /** What an incoming order can get: all that rests at prices it accepts. */
  function Available(side: Side, book: seq<Resting>, limit: Option<real>): real {
    if book == [] then 0.0
    else Available(side, book[1..], limit) + if Accepts(side, book[0].price, limit) then book[0].qty else 0.0
  }

  /** What it does get. */
  function Traded(want: real, available: real): real {
    if want <= 0.0 then 0.0 else if want <= available then want else available
  }

  /** The book with a quantity taken from its front. */
  function Drained(book: seq<Resting>, x: real): seq<Resting> {
    if book == [] || x <= 0.0 then book
    else if book[0].qty <= x then Drained(book[1..], x - book[0].qty)
    else [book[0].(qty := book[0].qty - x)] + book[1..]
  }

  /** The ids of the orders this uses up. */
  function Spent(book: seq<Resting>, x: real): set<Id> {
    if book == [] || x <= 0.0 || book[0].qty > x then {} else {book[0].id} + Spent(book[1..], x - book[0].qty)
  }

  /** The price at which the last of a quantity is taken from the front. */
  function Depth(book: seq<Resting>, x: real): real {
    if book == [] then 0.0 else if x <= book[0].qty then book[0].price else Depth(book[1..], x - book[0].qty)
  }

  lemma {:induction false} AvailableNonNegative(side: Side, book: seq<Resting>, limit: Option<real>)
    requires Positive(book)
    ensures Available(side, book, limit) >= 0.0
  {
    if book == [] {
    } else {
      AvailableNonNegative(side, book[1..], limit);
    }
  }

  /** Behind a price that is not accepted there is none that is. */
  lemma {:induction false} NoneAvailable(side: Side, book: seq<Resting>, limit: Option<real>)
    requires Priced(side, book) && book != [] && !Accepts(side, book[0].price, limit)
    ensures Available(side, book, limit) == 0.0
  {
    if |book| == 1 {
      assert book[1..] == [];
    } else {
      NoneAvailable(side, book[1..], limit);
    }
  }

  /** Execution takes what is available, up to what is wanted, from the front. */
  lemma {:induction false} ExecTakes(side: Side, book: seq<Resting>, limit: Option<real>, t: Taker)
    requires Positive(book) && Priced(side, book)
    ensures var (left, t') := Exec(side, book, limit, t);
            var x := Traded(t.remaining, Available(side, book, limit));
            && left == Drained(book, x) && t'.gone == t.gone + Spent(book, x)
            && t'.filled == t.filled + x && t'.remaining == t.remaining - x
            && t'.last == if x > 0.0 then Depth(book, x) else t.last
  {
    if book == [] || t.remaining <= 0.0 {
    } else if !Accepts(side, book[0].price, limit) {
      NoneAvailable(side, book, limit);
    } else {
      AvailableNonNegative(side, book[1..], limit);
      if book[0].qty <= t.remaining {
        ExecTakes(side, book[1..], limit, Trade(t, book[0]));
      }
    }
  }

  /** The last price is an accepted one. */
  lemma {:induction false} DepthAccepted(side: Side, book: seq<Resting>, limit: Option<real>, x: real)
    requires Positive(book) && Priced(side, book) && 0.0 < x <= Available(side, book, limit)
    ensures Accepts(side, Depth(book, x), limit)
  {
    if book == [] {
    } else if !Accepts(side, book[0].price, limit) {
      NoneAvailable(side, book, limit);
    } else if x > book[0].qty {
      DepthAccepted(side, book[1..], limit, x - book[0].qty);
    }
  }

  /** Once all that is available has been taken, no price that is left is accepted. */
  lemma {:induction false} BeyondLimit(side: Side, book: seq<Resting>, limit: Option<real>, x: real, i: nat)
    requires Positive(book) && Priced(side, book) && x == Available(side, book, limit)
    requires i < |Drained(book, x)|
    ensures !Accepts(side, Drained(book, x)[i].price, limit)
  {
    if !Accepts(side, book[0].price, limit) {
      NoneAvailable(side, book, limit);
      PricedPairs(side, book, 0, i);
    } else {
      AvailableNonNegative(side, book[1..], limit);
      BeyondLimit(side, book[1..], limit, x - book[0].qty, i);
    }
  }

  /** Only orders at accepted prices lose anything: from the first other one on, the side is left as it was. */
  lemma {:induction false} OnlyAccepted(side: Side, book: seq<Resting>, limit: Option<real>, x: real, i: nat)
    requires Positive(book) && Priced(side, book) && x <= Available(side, book, limit)
    requires i < |book| && !Accepts(side, book[i].price, limit)
    ensures var left, n := Drained(book, x), |book| - i;
            |left| >= n && left[|left| - n..] == book[i..]
  {
    if x <= 0.0 {
    } else if !Accepts(side, book[0].price, limit) {
      NoneAvailable(side, book, limit);
    } else {
      assert book[i] == book[1..][i - 1] && book[1..][i - 1..] == book[i..];
      AvailableNonNegative(side, book[1..], limit);
      if book[0].qty <= x {
        OnlyAccepted(side, book[1..], limit, x - book[0].qty, i - 1);
      } else {
        assert Drained(book, x)[1..] == book[1..] && Drained(book, x)[i..] == book[i..];
      }
    }
  }

  /** r rests behind the orders at its own or a better price, which stay as they were, and in front of the rest. */
  predicate RestsAt(side: Side, before: seq<Resting>, r: Resting, after: seq<Resting>, k: nat) {
    && k <= |before| && after == before[..k] + [r] + before[k..]
    && (forall i :: 0 <= i < k ==> if side.Bids? then before[i].price >= r.price else before[i].price <= r.price)
    && (forall i :: k <= i < |before| ==> if side.Bids? then before[i].price < r.price else before[i].price > r.price)
  }

  ghost predicate Rests(side: Side, before: seq<Resting>, r: Resting, after: seq<Resting>) {
    exists k :: RestsAt(side, before, r, after, k)
  }

  lemma {:induction false} InsertRests(side: Side, book: seq<Resting>, r: Resting) returns (k: nat)
    requires Priced(side, book)
    ensures RestsAt(side, book, r, Insert(side, book, r), k)
  {
    if book == [] || Better(side, r.price, book[0].price) {
      k := 0;
      forall i | 0 <= i < |book| ensures Better(side, r.price, book[i].price) { PricedPairs(side, book, 0, i); }
    } else {
      var j := InsertRests(side, book[1..], r);
      k := j + 1;
      assert book[1..][..j] == book[1..k] && book[1..][j..] == book[k..];
      assert book[..k] == [book[0]] + book[1..k];
      forall i | k <= i < |book| ensures Better(side, r.price, book[i].price) { assert book[i] == book[1..][i - 1]; }
    }
  }

  // ----- answers -----

  /** The answer when x of q is traded against a side, nothing traded being answered with `none`. */
  function Reported(book: seq<Resting>, x: real, q: real, none: Fill): Fill {
    if x == 0.0 then none
    else if x < q then Fill(Partial, Depth(book, x), x, q - x)
    else Fill(Filled, Depth(book, x), x, 0.0)
  }

  /** A market order takes what there is and leaves nothing of itself. */
  predicate MarketAnswer(side: Side, o: Order, ids: set<Id>, book: seq<Resting>, ids': set<Id>, book': seq<Resting>,
                         fill: Fill)
  {
    var x := Traded(o.quantity, Volume(book));
    && fill == Reported(book, x, o.quantity, Fill(Rejected, 0.0, 0.0, 0.0))
    && book' == Drained(book, x) && ids' == ids - Spent(book, x)
  }

  /** Priced beyond a limit: above it for asks, below it for bids. */
  predicate Beyond(side: Side, price: real, limit: real) {
    if side.Asks? then price > limit else price < limit
  }

  /** From the first order beyond the limit on, the side is as it was. */
  ghost predicate Untouched(side: Side, limit: real, book: seq<Resting>, left: seq<Resting>) {
    forall i {:trigger Kept(side, limit, book, left, i)} :: Kept(side, limit, book, left, i)
  }

  predicate Kept(side: Side, limit: real, book: seq<Resting>, left: seq<Resting>, i: int) {
    0 <= i < |book| && Beyond(side, book[i].price, limit) ==>
      |left| >= |book| - i && left[|left| - (|book| - i)..] == book[i..]
  }

  ghost predicate AllBeyond(side: Side, limit: real, left: seq<Resting>) {
    forall r {:trigger r in left} :: r in left ==> Beyond(side, r.price, limit)
  }

  /** A limit order takes what rests within its limit and nothing else, at prices within it, and rests with what it
      has left; then nothing within its limit is left on the other side. */
  ghost predicate LimitAnswer(side: Side, o: Order, ids: set<Id>, book: seq<Resting>, own: seq<Resting>,
                              ids': set<Id>, book': seq<Resting>, own': seq<Resting>, fill: Fill)
  {
    var x := Traded(o.quantity, Available(side, book, Some(o.price)));
    && fill == Reported(book, x, o.quantity, Fill(Pending, 0.0, 0.0, o.quantity))
    && (fill.qty > 0.0 ==> !Beyond(side, fill.price, o.price))
    && book' == Drained(book, x) && Untouched(side, o.price, book, book')
    && if x < o.quantity
       then && Rests(Opposite(side), own, Resting(o.id, o.price, o.quantity - x), own')
            && AllBeyond(side, o.price, book')
            && ids' == ids - Spent(book, x) + {o.id}
       else own' == own && ids' == ids - Spent(book, x)
  }

  /** The first order with an id is deleted. */
  predicate DeletesFirst(book: seq<Resting>, id: Id, book': seq<Resting>, k: nat) {
    && k < |book| && book[k].id == id && book' == book[..k] + book[k + 1..]
    && forall i :: 0 <= i < k ==> book[i].id != id
  }

  /** A cancel of an indexed id deletes the first order with it, bids first; any other changes nothing. */
  ghost predicate CancelAnswer(b: Book, id: Id, b': Book, fill: Fill) {
    if id !in b.index then b' == b && fill == Fill(NotFound, 0.0, 0.0, 0.0)
    else
      && fill == Fill(Cancelled, 0.0, 0.0, 0.0) && b'.index == b.index - {id}
      && if exists i :: 0 <= i < |b.bids| && b.bids[i].id == id
         then b'.asks == b.asks && exists k :: DeletesFirst(b.bids, id, b'.bids, k)
         else b'.bids == b.bids && if exists i :: 0 <= i < |b.asks| && b.asks[i].id == id
                                   then exists k :: DeletesFirst(b.asks, id, b'.asks, k)
                                   else b'.asks == b.asks
  }

  lemma {:induction false} AllAvailable(side: Side, book: seq<Resting>)
    ensures Available(side, book, None) == Volume(book)
  {
    if book == [] {
    } else {
      AllAvailable(side, book[1..]);
    }
  }

  lemma MarketAnswered(b: Book, side: Side, o: Order)
    requires Sound(b)
    ensures var (b', fill) := MarketOrder(b, side, o);
            && MarketAnswer(side, o, b.index, b.On(side), b'.index, b'.On(side), fill)
            && b'.On(Opposite(side)) == b.On(Opposite(side))
  {
    ExecTakes(side, b.On(side), None, Arriving(o.quantity));
    AllAvailable(side, b.On(side));
    AvailableNonNegative(side, b.On(side), None);
  }

  /** Where the trades of a limit order stop. */
  lemma Stops(side: Side, book: seq<Resting>, limit: real, want: real)
    requires Positive(book) && Priced(side, book)
    ensures var x := Traded(want, Available(side, book, Some(limit)));
            && x >= 0.0 && (x > 0.0 ==> !Beyond(side, Depth(book, x), limit))
            && Untouched(side, limit, book, Drained(book, x))
            && (x < want ==> AllBeyond(side, limit, Drained(book, x)))
  {
    var x := Traded(want, Available(side, book, Some(limit)));
    AvailableNonNegative(side, book, Some(limit));
    if x > 0.0 {
      DepthAccepted(side, book, Some(limit), x);
    }
    forall i ensures Kept(side, limit, book, Drained(book, x), i) {
      if 0 <= i < |book| && Beyond(side, book[i].price, limit) {
        OnlyAccepted(side, book, Some(limit), x, i);
      }
    }
    if x < want {
      forall r | r in Drained(book, x) ensures Beyond(side, r.price, limit) {
        var i :| 0 <= i < |Drained(book, x)| && Drained(book, x)[i] == r;
        BeyondLimit(side, book, Some(limit), x, i);
      }
    }
  }

  lemma InsertRestsSomewhere(side: Side, book: seq<Resting>, r: Resting)
    requires Priced(side, book)
    ensures Rests(side, book, r, Insert(side, book, r))
  {
    var k := InsertRests(side, book, r);
  }

  /** The same of the two sides, whichever book they belong to. */
  lemma LimitFrom(side: Side, o: Order, ids: set<Id>, book: seq<Resting>, own: seq<Resting>,
                  ids': set<Id>, own': seq<Resting>)
    requires Positive(book) && Priced(side, book) && Priced(Opposite(side), own)
    requires var t := Exec(side, book, Some(o.price), Arriving(o.quantity)).1;
             if t.remaining > 0.0
             then own' == Insert(Opposite(side), own, Resting(o.id, o.price, t.remaining))
                  && ids' == ids - t.gone + {o.id}
             else own' == own && ids' == ids - t.gone
    ensures var (left, t) := Exec(side, book, Some(o.price), Arriving(o.quantity));
            LimitAnswer(side, o, ids, book, own, ids', left, own', LimitFill(t))
  {
    ExecTakes(side, book, Some(o.price), Arriving(o.quantity));
    Stops(side, book, o.price, o.quantity);
    var t := Exec(side, book, Some(o.price), Arriving(o.quantity)).1;
    InsertRestsSomewhere(Opposite(side), own, Resting(o.id, o.price, t.remaining));
  }

  lemma LimitAnswered(b: Book, side: Side, o: Order)
    requires Sound(b)
    ensures var (b', fill) := LimitOrder(b, side, o);
            LimitAnswer(side, o, b.index, b.On(side), b.On(Opposite(side)),
                        b'.index, b'.On(side), b'.On(Opposite(side)), fill)
  {
    var b' := LimitOrder(b, side, o).0;
    LimitFrom(side, o, b.index, b.On(side), b.On(Opposite(side)), b'.index, b'.On(Opposite(side)));
  }

  lemma {:induction false} RemoveDeletes(book: seq<Resting>, id: Id) returns (k: nat)
    requires Has(book, id)
    ensures DeletesFirst(book, id, Remove(book, id), k)
  {
    if book[0].id == id {
      DeletesHead(book);
      k := 0;
    } else {
      HasBehind(book, id);
      var j := RemoveDeletes(book[1..], id);
      DeletesLater(book[0], book[1..], id, Remove(book[1..], id), j);
      k := j + 1;
      assert [book[0]] + book[1..] == book;
    }
  }

  lemma DeletesHead(book: seq<Resting>)
    requires book != []
    ensures DeletesFirst(book, book[0].id, book[1..], 0)
  {
    assert book[..0] + book[1..] == book[1..];
  }

  lemma DeletesLater(r: Resting, tail: seq<Resting>, id: Id, tail': seq<Resting>, j: nat)
    requires r.id != id && DeletesFirst(tail, id, tail', j)
    ensures DeletesFirst([r] + tail, id, [r] + tail', j + 1)
  {
    var book := [r] + tail;
    assert book[..j + 1] == [r] + tail[..j] && book[j + 2..] == tail[j + 1..];
  }

  lemma {:induction false} RemoveNothing(book: seq<Resting>, id: Id)
    requires !Has(book, id)
    ensures Remove(book, id) == book
  {
    if book == [] {
    } else {
      assert book[0].id != id;
      HasBehind(book, id);
      RemoveNothing(book[1..], id);
    }
  }

  lemma CancelAnswered(b: Book, id: Id)
    ensures var (b', fill) := CancelById(b, id);
            CancelAnswer(b, id, b', fill)
  {
    if id in b.index {
      if Has(b.bids, id) {
        var k := RemoveDeletes(b.bids, id);
      } else if Has(b.asks, id) {
        var k := RemoveDeletes(b.asks, id);
      } else {
        RemoveNothing(b.asks, id);
      }
    }
  }

  /** Every order, of every kind: the whole new book and the whole answer. */
  lemma StepAnswers(b: Book, o: Order)
    requires Sound(b)
    ensures var (b', fill) := Step(b, o);
            match o.kind
            case MarketBuy => MarketAnswer(Asks, o, b.index, b.asks, b'.index, b'.asks, fill) && b'.bids == b.bids
            case MarketSell => MarketAnswer(Bids, o, b.index, b.bids, b'.index, b'.bids, fill) && b'.asks == b.asks
            case LimitBuy => LimitAnswer(Asks, o, b.index, b.asks, b.bids, b'.index, b'.asks, b'.bids, fill)
            case LimitSell => LimitAnswer(Bids, o, b.index, b.bids, b.asks, b'.index, b'.bids, b'.asks, fill)
            case CancelOrder => CancelAnswer(b, o.id, b', fill)
            case UnknownKind(_) => b' == b && fill == Fill(Rejected, 0.0, 0.0, 0.0)
  {
    match o.kind
    case MarketBuy => MarketAnswered(b, Asks, o);
    case MarketSell => MarketAnswered(b, Bids, o);
    case LimitBuy => LimitAnswered(b, Asks, o);
    case LimitSell => LimitAnswered(b, Bids, o);
    case CancelOrder => CancelAnswered(b, o.id);
    case UnknownKind(_) =>
  }
}
