/** The condition the platform means to meet: while no limit order brings an id that is still resting, every
    cancel resolves, so the server and the Go book stay in lockstep. */
module FreshIds {
  import opened Common
  import opened FlatBook
  import opened MatchingLaws
  import opened Lockstep
  import Server = SampleBook

  type Table = map<Id, (bool, real)>

  /** Every order of this side is in the lookup table, under this side and its own price. */
  predicate Listed(book: seq<Resting>, isBid: bool, table: Table) {
    book == [] ||
    (book[0].id in table && table[book[0].id] == (isBid, book[0].price) && Listed(book[1..], isBid, table))
  }

  predicate AllListed(s: Server.State) {
    Listed(s.bids, true, s.lookup) && Listed(s.asks, false, s.lookup)
  }

  lemma {:induction false} ExecKeepsListed(side: Side, book: seq<Resting>, limit: Option<real>, t: Taker, isBid: bool,
                                           table: Table)
    requires Listed(book, isBid, table)
    ensures Listed(Exec(side, book, limit, t).0, isBid, table)
  {
    if book == [] || t.remaining <= 0.0 || !Crosses(side, book[0].price, limit) {
    } else if Min(t.remaining, book[0].qty) == book[0].qty {
      ExecKeepsListed(side, book[1..], limit, Trade(t, book[0]), isBid, table);
    } else {
      assert Exec(side, book, limit, t).0[1..] == book[1..];
    }
  }

  lemma {:induction false} ListedWithout(book: seq<Resting>, isBid: bool, table: Table, gone: set<Id>)
    requires Listed(book, isBid, table) && Ids(book) !! gone
    ensures Listed(book, isBid, table - gone)
  {
    if book == [] {
    } else {
      ListedWithout(book[1..], isBid, table, gone);
    }
  }

  lemma {:induction false} ListedWith(book: seq<Resting>, isBid: bool, table: Table, id: Id, entry: (bool, real))
    requires Listed(book, isBid, table) && id !in Ids(book)
    ensures Listed(book, isBid, table[id := entry])
  {
    if book == [] {
    } else {
      ListedWith(book[1..], isBid, table, id, entry);
    }
  }

  lemma {:induction false} InsertListed(side: Side, book: seq<Resting>, r: Resting, isBid: bool, table: Table)
    requires Listed(book, isBid, table) && r.id in table && table[r.id] == (isBid, r.price)
    ensures Listed(Insert(side, book, r), isBid, table)
  {
    var s := Insert(side, book, r);
    if book == [] || Better(side, r.price, book[0].price) {
      assert s[1..] == book;
    } else {
      InsertListed(side, book[1..], r, isBid, table);
      assert s[1..] == Insert(side, book[1..], r);
    }
  }

  lemma {:induction false} RemoveListed(book: seq<Resting>, isBid: bool, table: Table, id: Id, price: real)
    requires Listed(book, isBid, table)
    ensures Listed(Server.RemovePriced(book, id, price), isBid, table)
  {
    if book == [] {
    } else {
      RemoveListed(book[1..], isBid, table, id, price);
      if !(book[0].id == id && book[0].price == price) {
        assert Server.RemovePriced(book, id, price)[1..] == Server.RemovePriced(book[1..], id, price);
      }
    }
  }

  /** An order listed where it rests is where the table says. */
  lemma {:induction false} ListedPrice(book: seq<Resting>, isBid: bool, table: Table, id: Id)
    requires Listed(book, isBid, table) && FirstPrice(book, id).Some?
    ensures id in table && table[id] == (isBid, FirstPrice(book, id).value)
  {
    if book[0].id == id {
    } else {
      ListedPrice(book[1..], isBid, table, id);
    }
  }

  lemma ListedResolves(s: Server.State, o: Order)
    requires AllListed(s)
    ensures Resolves(s, o)
  {
    if FirstPrice(s.bids, o.id).Some? {
      ListedPrice(s.bids, true, s.lookup, o.id);
    } else if FirstPrice(s.asks, o.id).Some? {
      ListedPrice(s.asks, false, s.lookup, o.id);
    }
  }

  lemma OrderKeepsListed(b: Book, s: Server.State, side: Side, o: Order)
    requires Indexed(b) && SameBooks(b, s) && AllListed(s)
    requires Server.LimitOf(o).Some? ==> o.id !in b.index
    ensures AllListed(Server.Execute(s, side, o).0)
  {
    var limit, home := Server.LimitOf(o), Opposite(side);
    var (left, t) := Exec(side, b.On(side), limit, Arriving(o.quantity));
    ExecKeepsIds(side, b.On(side), limit, Arriving(o.quantity));
    ExecKeepsListed(side, b.On(side), limit, Arriving(o.quantity), side.Bids?, s.lookup);
    ListedWithout(left, side.Bids?, s.lookup, t.gone);
    ListedWithout(b.On(home), home.Bids?, s.lookup, t.gone);
    if limit.Some? && t.remaining > 0.0 {
      var table, entry := s.lookup - t.gone, (home.Bids?, o.price);
      ListedWith(left, side.Bids?, table, o.id, entry);
      ListedWith(b.On(home), home.Bids?, table, o.id, entry);
      InsertListed(home, b.On(home), Resting(o.id, o.price, t.remaining), home.Bids?, table[o.id := entry]);
    }
  }

  lemma CancelKeepsListed(b: Book, s: Server.State, id: Id)
    requires Sound(b) && Indexed(b) && SameBooks(b, s) && AllListed(s) && id in s.lookup
    ensures AllListed(Server.CancelStep(s, id).0)
  {
    var o := Order(id, CancelOrder, 0.0, 0.0);
    ListedResolves(s, o);
    CancelAlike(b, s, o);
    RemoveListed(s.bids, true, s.lookup, id, s.lookup[id].1);
    RemoveListed(s.asks, false, s.lookup, id, s.lookup[id].1);
    RemoveKeeps(Bids, b.bids, id);
    RemoveKeeps(Asks, b.asks, id);
    IdsHas(b.bids, id);
    var s' := Server.CancelStep(s, id).0;
    ListedWithout(s'.bids, true, s.lookup, {id});
    ListedWithout(s'.asks, false, s.lookup, {id});
  }

  lemma StepKeepsListed(b: Book, s: Server.State, o: Order)
    requires Sound(b) && Indexed(b) && SameBooks(b, s) && AllListed(s) && Fresh(b, o)
    ensures AllListed(Server.Serve(s, o).0)
  {
    match o.kind
    case MarketBuy => OrderKeepsListed(b, s, Asks, o);
    case MarketSell => OrderKeepsListed(b, s, Bids, o);
    case LimitBuy => OrderKeepsListed(b, s, Asks, o);
    case LimitSell => OrderKeepsListed(b, s, Bids, o);
    case CancelOrder => if o.id in s.lookup { CancelKeepsListed(b, s, o.id); }
    case UnknownKind(_) =>
  }

  predicate AllKnown(orders: seq<Order>) {
    forall i :: 0 <= i < |orders| ==> !orders[i].kind.UnknownKind?
  }

  /** A run of known kinds whose limit orders bring new ids is proper. */
  lemma {:induction false} FreshIsProper(b: Book, s: Server.State, orders: seq<Order>)
    requires Sound(b) && Indexed(b) && SameBooks(b, s) && AllListed(s)
    requires FreshRun(b, orders) && AllKnown(orders)
    ensures Proper(s, orders)
    decreases |orders|
  {
    if orders == [] {
    } else {
      var o := orders[0];
      assert !orders[0].kind.UnknownKind?;
      ListedResolves(s, o);
      StepInLockstep(b, s, o);
      StepKeepsSound(b, o);
      StepKeepsIndexed(b, o);
      StepKeepsListed(b, s, o);
      FreshIsProper(Step(b, o).0, Server.Serve(s, o).0, orders[1..]);
    }
  }
}
