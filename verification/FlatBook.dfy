/** Orders, fills, and the flat book: each side one sequence of resting orders, best price first and
    earlier arrivals first within a price. The flat book is the specification that the
    level-and-queue books and the map-of-deques book are proved to compute. */
module FlatBook {
  import opened Common

  type Id = string

  datatype Side = Bids | Asks

  datatype Kind = MarketBuy | MarketSell | LimitBuy | LimitSell | CancelOrder | UnknownKind(text: string)

  datatype Order = Order(id: Id, kind: Kind, price: real, quantity: real)

  /** A resting order with what is left of it. */
  datatype Resting = Resting(id: Id, price: real, qty: real)

  /** The reported status; `Missing` is the empty string of a reply that never came. */
  datatype Status =
    Filled | Partial | Pending | Rejected | Cancelled | NotFound | AlreadyFilled | Missing | OtherStatus(text: string)

  datatype Fill = Fill(status: Status, price: real, qty: real, remaining: real)

  function Min(a: real, b: real): real {
    if a < b then a else b
  }

  /** p is a strictly better resting price than q: higher for bids, lower for asks. */
  predicate Better(side: Side, p: real, q: real) {
    if side.Bids? then p > q else p < q
  }

  /** An incoming order with this limit (none for a market order) trades against a resting price. */
  predicate Crosses(side: Side, price: real, limit: Option<real>) {
    limit.None? || !Better(side, limit.value, price)
  }

  /** Running totals of an incoming order: what is left of it, how much was filled, the last price
      traded at, and the ids of the resting orders it used up. */
  datatype Taker = Taker(remaining: real, filled: real, last: real, gone: set<Id>)

  function Arriving(quantity: real): Taker {
    Taker(quantity, 0.0, 0.0, {})
  }

  /** One trade against the resting order r. */
  function Trade(t: Taker, r: Resting): Taker {
    var m := Min(t.remaining, r.qty);
    Taker(t.remaining - m, t.filled + m, r.price, if m == r.qty then t.gone + {r.id} else t.gone)
  }

  /** Executes an incoming order against one side, from the front. */
  function Exec(side: Side, book: seq<Resting>, limit: Option<real>, t: Taker): (seq<Resting>, Taker) {
    if book == [] || t.remaining <= 0.0 || !Crosses(side, book[0].price, limit) then (book, t)
    else
      var m := Min(t.remaining, book[0].qty);
      if m == book[0].qty then Exec(side, book[1..], limit, Trade(t, book[0]))
      else ([book[0].(qty := book[0].qty - m)] + book[1..], Trade(t, book[0]))
  }

  /** Adds r behind every resting order at the same or a better price. */
  function Insert(side: Side, book: seq<Resting>, r: Resting): seq<Resting> {
    if book == [] || Better(side, r.price, book[0].price) then [r] + book
    else [book[0]] + Insert(side, book[1..], r)
  }

  predicate Has(book: seq<Resting>, id: Id) {
    exists i :: 0 <= i < |book| && book[i].id == id
  }

  /** Deletes the first order with this id, if there is one. */
  function Remove(book: seq<Resting>, id: Id): seq<Resting> {
    if book == [] then []
    else if book[0].id == id then book[1..]
    else [book[0]] + Remove(book[1..], id)
  }

  /** Both sides, and the set of ids the book believes to be resting. */
  datatype Book = Book(bids: seq<Resting>, asks: seq<Resting>, index: set<Id>) {
    function On(side: Side): seq<Resting> {
      if side.Bids? then bids else asks
    }

    function With(side: Side, s: seq<Resting>, ids: set<Id>): Book {
      if side.Bids? then Book(s, asks, ids) else Book(bids, s, ids)
    }
  }

  const EMPTY := Book([], [], {})

  function Opposite(side: Side): Side {
    if side.Bids? then Asks else Bids
  }

  function MarketFill(t: Taker): Fill {
    if t.filled == 0.0 then Fill(Rejected, 0.0, 0.0, 0.0)
    else if t.remaining > 0.0 then Fill(Partial, t.last, t.filled, t.remaining)
    else Fill(Filled, t.last, t.filled, 0.0)
  }

  function LimitFill(t: Taker): Fill {
    if t.filled == 0.0 then Fill(Pending, 0.0, 0.0, t.remaining)
    else if t.remaining > 0.0 then Fill(Partial, t.last, t.filled, t.remaining)
    else Fill(Filled, t.last, t.filled, 0.0)
  }

  /** A market order against `side`. */
  function MarketOrder(b: Book, side: Side, o: Order): (Book, Fill) {
    var (left, t) := Exec(side, b.On(side), None, Arriving(o.quantity));
    (b.With(side, left, b.index - t.gone), MarketFill(t))
  }

  /** A limit order against `side`; what remains rests on the other side. */
  function LimitOrder(b: Book, side: Side, o: Order): (Book, Fill) {
    var (left, t) := Exec(side, b.On(side), Some(o.price), Arriving(o.quantity));
    var b' := b.With(side, left, b.index - t.gone);
    (if t.remaining > 0.0 then Rest(b', Opposite(side), Resting(o.id, o.price, t.remaining)) else b', LimitFill(t))
  }

  function Rest(b: Book, side: Side, r: Resting): Book {
    b.With(side, Insert(side, b.On(side), r), b.index + {r.id})
  }

  /** Deletes one order by id, looking through the bids first; only an indexed id is looked for. */
  function CancelById(b: Book, id: Id): (Book, Fill) {
    if id !in b.index then (b, Fill(NotFound, 0.0, 0.0, 0.0))
    else
      (if Has(b.bids, id) then Book(Remove(b.bids, id), b.asks, b.index - {id})
       else Book(b.bids, Remove(b.asks, id), b.index - {id}),
       Fill(Cancelled, 0.0, 0.0, 0.0))
  }

  /** What one order does to the book, and the fill it is answered with. */
  function Step(b: Book, o: Order): (Book, Fill) {
    match o.kind
    case MarketBuy => MarketOrder(b, Asks, o)
    case MarketSell => MarketOrder(b, Bids, o)
    case LimitBuy => LimitOrder(b, Asks, o)
    case LimitSell => LimitOrder(b, Bids, o)
    case CancelOrder => CancelById(b, o.id)
    case UnknownKind(_) => (b, Fill(Rejected, 0.0, 0.0, 0.0))
  }

  function Run(b: Book, orders: seq<Order>): (Book, seq<Fill>)
    decreases |orders|
  {
    if orders == [] then (b, [])
    else
      var (b', fill) := Step(b, orders[0]);
      var (b'', fills) := Run(b', orders[1..]);
      (b'', [fill] + fills)
  }
}
