/** The reference C++ server and the Go book: exactly when they go on answering alike, and that the validator
    then never accuses the server. */
module Lockstep {
  import opened Common
  import opened FlatBook
  import opened MatchingLaws
  import Server = SampleBook
  import opened Validator
  import Replay
  import StableSort

  // ----- one order -----

  /** The two books rest the same orders and know the same ids. */
  predicate SameBooks(b: Book, s: Server.State) {
    b.bids == s.bids && b.asks == s.asks && b.index == s.lookup.Keys
  }

  /** Same status, price and filled quantity; and the same remainder unless the Go book reports none. */
  predicate Agree(expected: Fill, reply: Fill) {
    && reply.status == expected.status && reply.price == expected.price && reply.qty == expected.qty
    && (reply.status.Pending? || reply.status.Partial? ==> reply.remaining == expected.remaining)
  }

  /** Nothing filled means nothing traded. */
  lemma {:induction false} ExecFilled(side: Side, book: seq<Resting>, limit: Option<real>, t: Taker)
    requires Positive(book)
    ensures var t' := Exec(side, book, limit, t).1;
            && t'.filled >= t.filled && t'.filled + t'.remaining == t.filled + t.remaining
            && (t'.filled == t.filled ==> t' == t)
  {
    if book == [] || t.remaining <= 0.0 || !Crosses(side, book[0].price, limit) {
    } else if Min(t.remaining, book[0].qty) == book[0].qty {
      ExecFilled(side, book[1..], limit, Trade(t, book[0]));
    }
  }

  /** Executing against one side keeps the books the same, before anything rests. */
  lemma ExecutesAlike(b: Book, s: Server.State, side: Side, limit: Option<real>, quantity: real)
    requires Sound(b) && SameBooks(b, s)
    ensures var (left, t) := Exec(side, b.On(side), limit, Arriving(quantity));
            && SameBooks(b.With(side, left, b.index - t.gone), s.With(side, left, s.lookup - t.gone))
            && (t.filled == 0.0 ==> t.last == 0.0)
  {
    ExecFilled(side, b.On(side), limit, Arriving(quantity));
  }

  lemma RestsAlike(b: Book, s: Server.State, side: Side, r: Resting)
    requires SameBooks(b, s)
    ensures SameBooks(Rest(b, side, r),
                      s.With(side, Insert(side, s.On(side), r), s.lookup[r.id := (side.Bids?, r.price)]))
  {
  }

  lemma OrderAlike(b: Book, s: Server.State, side: Side, o: Order)
    requires Sound(b) && SameBooks(b, s)
    requires (o.kind == if side.Asks? then MarketBuy else MarketSell) ||
             (o.kind == if side.Asks? then LimitBuy else LimitSell)
    ensures var (b', fill) := Step(b, o);
            var (s', reply) := Server.Execute(s, side, o);
            SameBooks(b', s') && Agree(fill, reply)
  {
    var limit := Server.LimitOf(o);
    ExecutesAlike(b, s, side, limit, o.quantity);
    ExecFilled(side, b.On(side), limit, Arriving(o.quantity));
    var (left, t) := Exec(side, b.On(side), limit, Arriving(o.quantity));
    if limit.Some? && t.remaining > 0.0 {
      RestsAlike(b.With(side, left, b.index - t.gone), s.With(side, left, s.lookup - t.gone), Opposite(side),
                 Resting(o.id, o.price, t.remaining));
    }
  }

  // ----- cancels -----

  /** The price of the first order with this id. */
  function FirstPrice(book: seq<Resting>, id: Id): Option<real> {
    if book == [] then None else if book[0].id == id then Some(book[0].price) else FirstPrice(book[1..], id)
  }

  /** Side and price of the first order with this id, the bids coming first: the one the Go book cancels. */
  function FirstCopy(s: Server.State, id: Id): Option<(bool, real)> {
    if FirstPrice(s.bids, id).Some? then Some((true, FirstPrice(s.bids, id).value))
    else if FirstPrice(s.asks, id).Some? then Some((false, FirstPrice(s.asks, id).value))
    else None
  }

  /** A cancel that finds its id in the table is pointed at the first order with it, if any rests. */
  predicate Resolves(s: Server.State, o: Order) {
    o.kind.CancelOrder? && o.id in s.lookup && FirstCopy(s, o.id).Some? ==>
      s.lookup[o.id] == FirstCopy(s, o.id).value
  }

  lemma {:induction false} FirstPriceHas(book: seq<Resting>, id: Id)
    ensures FirstPrice(book, id).Some? <==> Has(book, id)
  {
    if book == [] {
    } else {
      FirstPriceHas(book[1..], id);
      if book[0].id == id {
        assert Has(book, id);
      } else {
        HasBehind(book, id);
      }
    }
  }

  /** How many orders rest with this id at this price. */
  function Copies(book: seq<Resting>, id: Id, price: real): nat {
    if book == [] then 0
    else Copies(book[1..], id, price) + if book[0].id == id && book[0].price == price then 1 else 0
  }

  lemma {:induction false} CopiesElsewhere(book: seq<Resting>, id: Id, removed: real, price: real)
    requires removed != price
    ensures Copies(Server.RemovePriced(book, id, removed), id, price) == Copies(book, id, price)
  {
    if book == [] {
    } else {
      CopiesElsewhere(book[1..], id, removed, price);
      if !(book[0].id == id && book[0].price == removed) {
        assert Server.RemovePriced(book, id, removed)[1..] == Server.RemovePriced(book[1..], id, removed);
      }
    }
  }

  /** Removing by id and removing by id and price are the same exactly when the first order with the id has
      that price. */
  lemma {:induction false} SameRemoval(book: seq<Resting>, id: Id, price: real)
    ensures FirstPrice(book, id).None? ==> Remove(book, id) == book == Server.RemovePriced(book, id, price)
    ensures FirstPrice(book, id).Some? ==>
              && Remove(book, id) != book
              && (Remove(book, id) == Server.RemovePriced(book, id, price) <==> FirstPrice(book, id).value == price)
  {
    if book == [] {
    } else {
      var rest := book[1..];
      if book[0].id == id {
        CopiesElsewhereIf(book, id, price, book[0].price);
        assert |Remove(book, id)| < |book|;
      } else {
        SameRemoval(rest, id, price);
        assert Remove(book, id)[1..] == Remove(rest, id);
        assert Server.RemovePriced(book, id, price)[1..] == Server.RemovePriced(rest, id, price);
      }
    }
  }

  lemma CopiesElsewhereIf(book: seq<Resting>, id: Id, removed: real, price: real)
    ensures removed != price ==> Copies(Server.RemovePriced(book, id, removed), id, price) == Copies(book, id, price)
  {
    if removed != price {
      CopiesElsewhere(book, id, removed, price);
    }
  }

  /** A cancel is always answered alike, and leaves the same books exactly when it resolves. */
  lemma CancelAlike(b: Book, s: Server.State, o: Order)
    requires SameBooks(b, s) && o.kind.CancelOrder?
    ensures var (b', fill) := CancelById(b, o.id);
            var (s', reply) := Server.CancelStep(s, o.id);
            fill == reply && (SameBooks(b', s') <==> Resolves(s, o))
  {
    FirstPriceHas(b.bids, o.id);
    FirstPriceHas(b.asks, o.id);
    if o.id in s.lookup {
      SameRemoval(b.bids, o.id, s.lookup[o.id].1);
      SameRemoval(b.asks, o.id, s.lookup[o.id].1);
      assert (s.lookup - {o.id}).Keys == b.index - {o.id};
    }
  }

  /** From the same books, one order whatsoever: the replies agree exactly when its kind is known, and the
      books stay the same exactly when it resolves. */
  lemma StepInLockstep(b: Book, s: Server.State, o: Order)
    requires Sound(b) && SameBooks(b, s)
    ensures var (b', fill) := Step(b, o);
            var (s', reply) := Server.Serve(s, o);
            && (Agree(fill, reply) <==> !o.kind.UnknownKind?)
            && (SameBooks(b', s') <==> Resolves(s, o))
  {
    match o.kind
    case MarketBuy => OrderAlike(b, s, Asks, o);
    case MarketSell => OrderAlike(b, s, Bids, o);
    case LimitBuy => OrderAlike(b, s, Asks, o);
    case LimitSell => OrderAlike(b, s, Bids, o);
    case CancelOrder => CancelAlike(b, s, o);
    case UnknownKind(_) =>
  }

  /** An id all of whose orders rest at the place in the table resolves, however many there are. */
  lemma OnePlaceResolves(s: Server.State, o: Order)
    requires o.id in s.lookup ==>
      && (forall i :: 0 <= i < |s.bids| && s.bids[i].id == o.id ==> s.lookup[o.id] == (true, s.bids[i].price))
      && (forall i :: 0 <= i < |s.asks| && s.asks[i].id == o.id ==> s.lookup[o.id] == (false, s.asks[i].price))
    ensures Resolves(s, o)
  {
    FirstPriceAt(s.bids, o.id);
    FirstPriceAt(s.asks, o.id);
  }

  lemma {:induction false} FirstPriceAt(book: seq<Resting>, id: Id)
    ensures FirstPrice(book, id).Some? ==>
              exists i :: 0 <= i < |book| && book[i].id == id && book[i].price == FirstPrice(book, id).value
  {
    if book == [] {
    } else if book[0].id == id {
      assert book[0].price == FirstPrice(book, id).value;
    } else if FirstPrice(book, id).Some? {
      FirstPriceAt(book[1..], id);
      var i :| 0 <= i < |book[1..]| && book[1..][i].id == id && book[1..][i].price == FirstPrice(book, id).value;
      assert book[i + 1].id == id;
    }
  }

  // ----- whole runs -----

  const EMPTY_SERVER := Server.State([], [], map[])

  /** Every order is of a known kind, and every cancel resolves when it arrives: a check on the server's own
      book, before each order. */
  predicate Proper(s: Server.State, orders: seq<Order>)
    decreases |orders|
  {
    orders == [] ||
    (!orders[0].kind.UnknownKind? && Resolves(s, orders[0]) && Proper(Server.Serve(s, orders[0]).0, orders[1..]))
  }

  /** The two programs agree on every order, and have the same books after every order. */
  predicate InLockstep(b: Book, s: Server.State, orders: seq<Order>)
    decreases |orders|
  {
    orders == [] ||
    var (b', fill) := Step(b, orders[0]);
    var (s', reply) := Server.Serve(s, orders[0]);
    Agree(fill, reply) && SameBooks(b', s') && InLockstep(b', s', orders[1..])
  }

  /** Lockstep over a run of any orders, exactly: the books agree throughout if and only if the run is proper. */
  lemma {:induction false} LockstepExactly(b: Book, s: Server.State, orders: seq<Order>)
    requires Sound(b) && SameBooks(b, s)
    ensures InLockstep(b, s, orders) <==> Proper(s, orders)
    decreases |orders|
  {
    if orders == [] {
    } else {
      var o := orders[0];
      StepInLockstep(b, s, o);
      StepKeepsSound(b, o);
      if SameBooks(Step(b, o).0, Server.Serve(s, o).0) {
        LockstepExactly(Step(b, o).0, Server.Serve(s, o).0, orders[1..]);
      }
    }
  }

  function Replies(s: Server.State, orders: seq<Order>): (replies: seq<Fill>)
    ensures |replies| == |orders|
    decreases |orders|
  {
    if orders == [] then []
    else [Server.Serve(s, orders[0]).1] + Replies(Server.Serve(s, orders[0]).0, orders[1..])
  }

  /** Over every proper run, the expected fills and the server's replies agree one by one. */
  lemma {:induction false} RunInLockstep(b: Book, s: Server.State, orders: seq<Order>)
    requires Sound(b) && SameBooks(b, s) && Proper(s, orders)
    ensures var fills := Run(b, orders).1;
            var replies := Replies(s, orders);
            |fills| == |replies| == |orders| && forall i :: 0 <= i < |orders| ==> Agree(fills[i], replies[i])
    decreases |orders|
  {
    if orders == [] {
    } else {
      var o := orders[0];
      StepInLockstep(b, s, o);
      StepKeepsSound(b, o);
      RunInLockstep(Step(b, o).0, Server.Serve(s, o).0, orders[1..]);
    }
  }

  // ----- no false accusation -----

  function ReportOf(reply: Fill): Report {
    Report(reply.status, reply.price, reply.qty)
  }

  /** An agreeing reply is judged correct. */
  lemma AgreementAccepted(b: Book, o: Order, reply: Fill)
    requires Sound(b) && !o.kind.UnknownKind? && Agree(Step(b, o).1, reply)
    ensures Compare(Step(b, o).1, ReportOf(reply)) == OK
  {
    ExecFilled(Asks, b.asks, Server.LimitOf(o), Arriving(o.quantity));
    ExecFilled(Bids, b.bids, Server.LimitOf(o), Arriving(o.quantity));
  }

  /** The telemetry of one contestant whose server answered `orders` with `replies`, in order. */
  function Telemetry(contestant: string, test: string, orders: seq<Order>, replies: seq<Fill>, seqNo: int)
    : (es: seq<Event>)
    requires |orders| == |replies|
    ensures |es| == |orders|
    ensures forall i :: 0 <= i < |es| ==> es[i] == Event(contestant, test, orders[i], ReportOf(replies[i]), seqNo + i)
  {
    seq(|orders|, i requires 0 <= i < |orders| => Event(contestant, test, orders[i], ReportOf(replies[i]), seqNo + i))
  }

  /** The next event of a server in lockstep is judged correct, and the books stay the same. */
  lemma EventAccepted(s: Sessions, server: Server.State, e: Event)
    requires var b := Current(s, e.contestant, e.test);
             && Sound(b) && SameBooks(b, server) && Resolves(server, e.order) && !e.order.kind.UnknownKind?
             && e.actual == ReportOf(Server.Serve(server, e.order).1)
    ensures var b' := Step(Current(s, e.contestant, e.test), e.order).0;
            var (s', j) := JudgeOne(Referee, s, e);
            && j.verdict == OK && Current(s', e.contestant, e.test) == b'
            && e.contestant in s' && s'[e.contestant].test == e.test
            && Sound(b') && SameBooks(b', Server.Serve(server, e.order).0)
  {
    var b := Current(s, e.contestant, e.test);
    StepInLockstep(b, server, e.order);
    StepKeepsSound(b, e.order);
    AgreementAccepted(b, e.order, Server.Serve(server, e.order).1);
  }

  /** The rest of a test, judged event by event: all correct, and the session is left in that test. */
  lemma {:induction false} TestAccepted(s: Sessions, c: string, test: string, server: Server.State,
                                        orders: seq<Order>, replies: seq<Fill>, seqNo: int)
    requires var b := Current(s, c, test); Sound(b) && SameBooks(b, server)
    requires Proper(server, orders) && replies == Replies(server, orders) && |replies| == |orders|
    ensures var (s', js) := JudgeAll(Referee, s, Telemetry(c, test, orders, replies, seqNo));
            && AllAccepted(js)
            && (if orders == [] then s' == s else c in s' && s'[c].test == test)
    decreases |orders|
  {
    if orders == [] {
    } else {
      var e := Event(c, test, orders[0], ReportOf(replies[0]), seqNo);
      var rest := Telemetry(c, test, orders[1..], replies[1..], seqNo + 1);
      EventAccepted(s, server, e);
      var s' := JudgeOne(Referee, s, e).0;
      TestAccepted(s', c, test, Server.Serve(server, orders[0]).0, orders[1..], replies[1..], seqNo + 1);
      Replay.JudgeCons(Referee, s, e, rest);
      TelemetryCons(c, test, orders, replies, seqNo);
      AcceptedCons(JudgeOne(Referee, s, e).1, JudgeAll(Referee, s', rest).1);
    }
  }

  predicate AllAccepted(js: seq<Judged>) {
    js == [] || (js[0].verdict == OK && AllAccepted(js[1..]))
  }

  lemma AcceptedCons(j: Judged, js: seq<Judged>)
    requires j.verdict == OK && AllAccepted(js)
    ensures AllAccepted([j] + js)
  {
    assert ([j] + js)[1..] == js;
  }

  lemma {:induction false} AcceptedEach(js: seq<Judged>)
    requires AllAccepted(js)
    ensures forall i :: 0 <= i < |js| ==> js[i].verdict == OK
  {
    if js == [] {
    } else {
      AcceptedEach(js[1..]);
      assert forall i :: 0 < i < |js| ==> js[i] == js[1..][i - 1];
    }
  }

  lemma TelemetryCons(c: string, test: string, orders: seq<Order>, replies: seq<Fill>, seqNo: int)
    requires |orders| == |replies| && orders != []
    ensures Telemetry(c, test, orders, replies, seqNo) ==
            [Event(c, test, orders[0], ReportOf(replies[0]), seqNo)] +
            Telemetry(c, test, orders[1..], replies[1..], seqNo + 1)
  {
  }

  /** No false accusation: a contestant running the reference server, whose telemetry reports a proper
      run in the order it was served, is judged correct on every event of a new test. */
  lemma NoFalseAccusation(s: Sessions, c: string, test: string, orders: seq<Order>, seqNo: int)
    requires Current(s, c, test) == EMPTY && Proper(EMPTY_SERVER, orders)
    ensures var replies := Replies(EMPTY_SERVER, orders);
            && |replies| == |orders|
            && var js := JudgeBatch(Referee, s, Telemetry(c, test, orders, replies, seqNo)).1;
               |js| == |orders| && forall i :: 0 <= i < |js| ==> js[i].verdict == OK
  {
    RunInLockstep(EMPTY, EMPTY_SERVER, orders);
    var replies := Replies(EMPTY_SERVER, orders);
    TestAccepted(s, c, test, EMPTY_SERVER, orders, replies, seqNo);
    StableSort.SortedIsFixed(Telemetry(c, test, orders, replies, seqNo), Earlier());
    AcceptedEach(JudgeBatch(Referee, s, Telemetry(c, test, orders, replies, seqNo)).1);
    JudgedEvents(Referee, s, Telemetry(c, test, orders, replies, seqNo));
  }

  // ----- where the two books part -----

  /** An order of an unknown kind is pending to the server and rejected by the Go book, and so is
      always held against the contestant. */
  lemma UnknownKindAccused(b: Book, s: Server.State, o: Order)
    requires o.kind.UnknownKind?
    ensures !Compare(Step(b, o).1, ReportOf(Server.Serve(s, o).1)).correct
  {
  }

  const REUSED := [Order("a", LimitBuy, 10.0, 1.0), Order("a", LimitBuy, 9.0, 1.0),
                   Order("a", CancelOrder, 0.0, 0.0), Order("b", MarketSell, 0.0, 1.0)]

  /** The Go book cancels the first order with the id, the better-priced one... */
  lemma GoCancelsFirst()
    ensures var fills := Run(EMPTY, REUSED).1; |fills| == 4 && fills[3] == Fill(Filled, 9.0, 1.0, 0.0)
  {
    var r1, r2 := Resting("a", 10.0, 1.0), Resting("a", 9.0, 1.0);
    var b1, b2, b3 := Book([r1], [], {"a"}), Book([r1, r2], [], {"a"}), Book([r2], [], {});
    assert Step(EMPTY, REUSED[0]).0 == b1;
    assert [r1][1..] == [] && Insert(Bids, [], r2) == [r2];
    assert Insert(Bids, [r1], r2) == [r1] + [r2] == [r1, r2];
    assert Step(b1, REUSED[1]).0 == b2;
    assert b2.bids[0].id == "a" && Remove(b2.bids, "a") == [r2];
    assert Step(b2, REUSED[2]).0 == b3;
    assert Step(b3, REUSED[3]).1 == Fill(Filled, 9.0, 1.0, 0.0);
    assert REUSED[1..] == [REUSED[1], REUSED[2], REUSED[3]] && REUSED[1..][1..] == [REUSED[2], REUSED[3]];
    assert REUSED[1..][1..][1..] == [REUSED[3]] && [REUSED[3]][1..] == [];
  }

  /** ... and the server the last one to arrive. */
  lemma ServerCancelsLast()
    ensures var replies := Replies(EMPTY_SERVER, REUSED); |replies| == 4 && replies[3] == Fill(Filled, 10.0, 1.0, 0.0)
  {
    var r1, r2 := Resting("a", 10.0, 1.0), Resting("a", 9.0, 1.0);
    var s1 := Server.State([r1], [], map["a" := (true, 10.0)]);
    var s2 := Server.State([r1, r2], [], map["a" := (true, 9.0)]);
    var s3 := Server.State([r1], [], map[]);
    assert Server.Serve(EMPTY_SERVER, REUSED[0]).0 == s1;
    assert [r1][1..] == [] && Insert(Bids, [], r2) == [r2];
    assert Insert(Bids, [r1], r2) == [r1] + [r2] == [r1, r2];
    assert Server.Serve(s1, REUSED[1]).0 == s2;
    assert [r1, r2][1..] == [r2] && Server.RemovePriced([r2], "a", 9.0) == [];
    assert Server.RemovePriced([r1, r2], "a", 9.0) == [r1];
    assert Server.CancelStep(s2, "a").0 == s3 by {
      var table := s2.lookup;
      assert "a" in table && table["a"] == (true, 9.0) && table - {"a"} == map[];
    }
    assert Exec(Bids, [r1], None, Arriving(1.0)) == ([], Trade(Arriving(1.0), r1));
    assert Server.Execute(s3, Bids, REUSED[3]).1 == Fill(Filled, 10.0, 1.0, 0.0);
    assert REUSED[1..] == [REUSED[1], REUSED[2], REUSED[3]] && REUSED[1..][1..] == [REUSED[2], REUSED[3]];
    assert REUSED[1..][1..][1..] == [REUSED[3]] && [REUSED[3]][1..] == [];
  }

  /** So when an id rests twice, the server can be held to a price it was right not to trade at. */
  lemma RepeatedIdAccused()
    ensures var fills, replies := Run(EMPTY, REUSED).1, Replies(EMPTY_SERVER, REUSED);
            |fills| == |replies| == 4 && Compare(fills[3], ReportOf(replies[3])) == Verdict(false, WrongPrice)
  {
    GoCancelsFirst();
    ServerCancelsLast();
  }

  // ----- the two programs together -----

  method ServeAll(orders: seq<Order>) returns (replies: seq<Fill>)
    ensures replies == Replies(EMPTY_SERVER, orders)
  {
    var server := new Server.Book();
    replies := ServeOn(server, orders);
  }

  method ServeOn(server: Server.Book, orders: seq<Order>) returns (replies: seq<Fill>)
    requires server.Valid()
    modifies server
    ensures server.Valid() && replies == Replies(old(server.Contents()), orders)
  {
    replies := [];
    ghost var all := Replies(server.Contents(), orders);
    for i := 0 to |orders|
      invariant server.Valid()
      invariant all == replies + Replies(server.Contents(), orders[i..])
    {
      var reply;
      if orders[i].kind.CancelOrder? {
        reply := server.HandleCancel(orders[i].id);
      } else {
        reply := server.HandleOrder(orders[i]);
      }
      assert orders[i..][1..] == orders[i + 1..];
      replies := replies + [reply];
    }
    assert replies == all;
  }

  /** Serves a proper run with the reference server, then has the validator judge its telemetry: every
      verdict is correct. */
  method ServeAndJudge(contestant: string, test: string, orders: seq<Order>) returns (verdicts: seq<Verdict>)
    requires Proper(EMPTY_SERVER, orders)
    ensures |verdicts| == |orders| && forall i :: 0 <= i < |verdicts| ==> verdicts[i] == OK
  {
    var replies := ServeAll(orders);
    var validator := new CorrectnessValidator();
    NoFalseAccusation(map[], contestant, test, orders, 1);
    verdicts := validator.ValidateBatch(Telemetry(contestant, test, orders, replies, 1));
  }
}
