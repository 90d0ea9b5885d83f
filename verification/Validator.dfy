/** The correctness validator (`services/telemetry-ingester/shadowbook/correctness_validator.go`):
    replays a batch of telemetry through one book per contestant and compares fills. */
module Validator {
  import opened Common
  import opened FlatBook
  import StableSort
  import ShadowBook

  /** What the contestant's server is reported to have answered. */
  datatype Report = Report(status: Status, price: real, qty: real)

  datatype Event = Event(contestant: string, test: string, order: Order, actual: Report, seqNo: int)

  /** The reason texts, one constructor each, with the statuses they quote. */
  datatype Reason =
    | NoReason
    | MissingActualFill
    | CancelMismatch(got: Status)
    | NotFoundMismatch(got: Status)
    | MarketMismatch(got: Status)
    | StatusMismatch(expected: Status, got: Status)
    | NegativeQuantity
    | Overfill
    | WrongPrice

  datatype Verdict = Verdict(correct: bool, reason: Reason)

  const OK := Verdict(true, NoReason)

  function Compare(expected: Fill, actual: Report): Verdict {
    if actual.status.Missing? then Verdict(false, MissingActualFill)
    else if expected.status.Cancelled? then
      if actual.status.Cancelled? || actual.status.NotFound? || actual.status.AlreadyFilled? then OK
      else Verdict(false, CancelMismatch(actual.status))
    else if expected.status.NotFound? then
      if actual.status.NotFound? || actual.status.Cancelled? || actual.status.AlreadyFilled? then OK
      else Verdict(false, NotFoundMismatch(actual.status))
    else if expected.status.Rejected? then
      if actual.status.Rejected? || actual.status.Partial? || actual.status.Filled? then OK
      else Verdict(false, MarketMismatch(actual.status))
    else if expected.status.Pending? && (actual.status.Filled? || actual.status.Partial?) then OK
    else if expected.status.Filled? && actual.status.Pending? then OK
    else if expected.status != actual.status && !(expected.status.Filled? && actual.status.Partial?) then
      Verdict(false, StatusMismatch(expected.status, actual.status))
    else if actual.qty < 0.0 then Verdict(false, NegativeQuantity)
    else if expected.status.Filled? && actual.qty > expected.qty + 0.000000001 then Verdict(false, Overfill)
    else if expected.status.Filled? && expected.price > 0.0 && actual.price > 0.0 &&
            (expected.price - actual.price > 0.01 || expected.price - actual.price < -0.01) then
      Verdict(false, WrongPrice)
    else OK
  }

  /** A contestant's book and the test it belongs to. */
  datatype Session = Session(book: Book, test: string)

  type Sessions = map<string, Session>

  datatype Judged = Judged(event: Event, verdict: Verdict)

  /** How one event is judged, given its contestant's session so far, and the session it leaves. */
  type Judge = (Option<Session>, Event) -> (Session, Verdict)

  /** The validator's judge: a contestant not seen before, or seen in another test, starts from an
      empty book. */
  function Referee(prev: Option<Session>, e: Event): (Session, Verdict) {
    var book := if prev.None? || prev.value.test != e.test then EMPTY else prev.value.book;
    var (book', expected) := Step(book, e.order);
    (Session(book', e.test), Compare(expected, e.actual))
  }

  function Prev(s: Sessions, c: string): Option<Session> {
    if c in s then Some(s[c]) else None
  }

  function JudgeOne(f: Judge, s: Sessions, e: Event): (Sessions, Judged) {
    var (session, verdict) := f(Prev(s, e.contestant), e);
    (s[e.contestant := session], Judged(e, verdict))
  }

  /** The events judged in the order given. */
  function JudgeAll(f: Judge, s: Sessions, events: seq<Event>): (Sessions, seq<Judged>) {
    if events == [] then (s, [])
    else
      var n := |events| - 1;
      var (s', done) := JudgeAll(f, s, events[..n]);
      var (s'', j) := JudgeOne(f, s', events[n]);
      (s'', done + [j])
  }

  lemma JudgeSnoc(f: Judge, s: Sessions, events: seq<Event>, i: nat)
    requires i < |events|
    ensures var (s', done) := JudgeAll(f, s, events[..i]);
            var (s'', j) := JudgeOne(f, s', events[i]);
            JudgeAll(f, s, events[..i + 1]) == (s'', done + [j])
  {
    assert events[..i + 1][..i] == events[..i];
  }

  function Verdicts(js: seq<Judged>): (vs: seq<Verdict>)
    ensures |vs| == |js| && forall i :: 0 <= i < |vs| ==> vs[i] == js[i].verdict
  {
    if js == [] then [] else Verdicts(js[..|js| - 1]) + [js[|js| - 1].verdict]
  }

  // ----- what the verdicts mean -----

  /** The replies that are to be judged correct, by statuses and numbers. */
  predicate Acceptable(expected: Fill, actual: Report) {
    match expected.status
    case Cancelled => actual.status in {Cancelled, NotFound, AlreadyFilled}
    case NotFound => actual.status in {Cancelled, NotFound, AlreadyFilled}
    case Rejected => actual.status in {Rejected, Partial, Filled}
    case Pending => actual.status in {Partial, Filled} || (actual.status == Pending && actual.qty >= 0.0)
    case Filled =>
      || actual.status == Pending
      || (actual.status in {Partial, Filled} && 0.0 <= actual.qty <= expected.qty + 0.000000001
          && (expected.price > 0.0 && actual.price > 0.0 ==> -0.01 <= expected.price - actual.price <= 0.01))
    case _ => actual.status == expected.status != Missing && actual.qty >= 0.0
  }

  /** A reason that applies. */
  predicate True(reason: Reason, expected: Fill, actual: Report) {
    match reason
    case NoReason => Acceptable(expected, actual)
    case MissingActualFill => actual.status == Missing
    case CancelMismatch(got) => expected.status == Cancelled && got == actual.status
    case NotFoundMismatch(got) => expected.status == NotFound && got == actual.status
    case MarketMismatch(got) => expected.status == Rejected && got == actual.status
    case StatusMismatch(status, got) => status == expected.status != actual.status == got
    case NegativeQuantity => actual.qty < 0.0
    case Overfill => actual.qty > expected.qty + 0.000000001
    case WrongPrice => !(-0.01 <= expected.price - actual.price <= 0.01)
  }

  /** Nobody is acquitted who should not be, nobody accused who should not be, and the reason given is true. */
  lemma JustVerdict(expected: Fill, actual: Report)
    ensures var v := Compare(expected, actual);
            (v.correct <==> Acceptable(expected, actual)) && True(v.reason, expected, actual)
            && (v.correct <==> v.reason == NoReason)
  {
  }

  /** The book c's next event of this test is judged by. */
  function Current(s: Sessions, c: string, test: string): Book {
    if c !in s || s[c].test != test then EMPTY else s[c].book
  }

  /** The same by the events alone: what c's own orders of this test make of an empty book since the last event
      of another test, whatever else was judged in between. */
  function BookAfter(s: Sessions, c: string, test: string, events: seq<Event>): Book {
    if events == [] then Current(s, c, test)
    else
      var front, e := events[..|events| - 1], events[|events| - 1];
      if e.contestant != c then BookAfter(s, c, test, front)
      else if e.test != test then EMPTY
      else Step(BookAfter(s, c, test, front), e.order).0
  }

  lemma {:induction false} ReplayedBook(s: Sessions, c: string, test: string, events: seq<Event>)
    ensures Current(JudgeAll(Referee, s, events).0, c, test) == BookAfter(s, c, test, events)
  {
    if events == [] {
    } else {
      var front, e := events[..|events| - 1], events[|events| - 1];
      ReplayedBook(s, c, test, front);
    }
  }

  /** The fill expected of the event at i. */
  function ExpectedAt(s: Sessions, events: seq<Event>, i: nat): Fill
    requires i < |events|
  {
    var e := events[i];
    Step(BookAfter(s, e.contestant, e.test, events[..i]), e.order).1
  }

  /** The just verdict on the event at i. */
  predicate Just(s: Sessions, events: seq<Event>, i: int, v: Verdict) {
    0 <= i < |events| ==>
      && (v.correct <==> Acceptable(ExpectedAt(s, events, i), events[i].actual))
      && True(v.reason, ExpectedAt(s, events, i), events[i].actual)
  }

  lemma {:induction false} JudgedEvents(f: Judge, s: Sessions, events: seq<Event>)
    ensures var js := JudgeAll(f, s, events).1;
            |js| == |events| && forall i :: 0 <= i < |js| ==> js[i].event == events[i]
  {
    if events == [] {
    } else {
      JudgedEvents(f, s, events[..|events| - 1]);
    }
  }

  /** A verdict that is just among the first n events is so among all. */
  lemma JustAmongAll(s: Sessions, events: seq<Event>, n: nat, i: nat, v: Verdict)
    requires i < n <= |events| && Just(s, events[..n], i, v)
    ensures Just(s, events, i, v)
  {
    assert events[..n][..i] == events[..i];
  }

  lemma JustOfNext(s: Sessions, front: seq<Event>, e: Event)
    ensures var v := JudgeOne(Referee, JudgeAll(Referee, s, front).0, e).1.verdict;
            Just(s, front + [e], |front|, v)
  {
    assert (front + [e])[..|front|] == front;
    ReplayedBook(s, e.contestant, e.test, front);
    JustVerdict(ExpectedAt(s, front + [e], |front|), e.actual);
  }

  lemma {:induction false} JudgedJustly(s: Sessions, events: seq<Event>, i: nat)
    requires i < |events| == |JudgeAll(Referee, s, events).1|
    ensures Just(s, events, i, JudgeAll(Referee, s, events).1[i].verdict)
  {
    var n := |events| - 1;
    JudgedEvents(Referee, s, events[..n]);
    if i < n {
      JudgedJustly(s, events[..n], i);
      JustAmongAll(s, events, n, i, JudgeAll(Referee, s, events).1[i].verdict);
    } else {
      assert events[..n] + [events[n]] == events;
      JustOfNext(s, events[..n], events[n]);
    }
  }

  /** Every verdict is the just one for its event. */
  ghost predicate AllJust(s: Sessions, events: seq<Event>, vs: seq<Verdict>) {
    |vs| == |events| && forall i :: 0 <= i < |vs| ==> Just(s, events, i, vs[i])
  }

  lemma VerdictsJust(s: Sessions, events: seq<Event>)
    ensures AllJust(s, events, Verdicts(JudgeAll(Referee, s, events).1))
  {
    JudgedEvents(Referee, s, events);
    forall i | 0 <= i < |events| ensures Just(s, events, i, JudgeAll(Referee, s, events).1[i].verdict) {
      JudgedJustly(s, events, i);
    }
  }

  function Earlier(): (Event, Event) -> bool {
    (a: Event, b: Event) => a.seqNo < b.seqNo
  }

  /** A batch judged in sequence order, equal numbers in the order received. */
  function JudgeBatch(f: Judge, s: Sessions, events: seq<Event>): (Sessions, seq<Judged>) {
    JudgeAll(f, s, StableSort.Sort(events, Earlier()))
  }

  lemma Overwrite(s: Sessions, c: string, x: Session, y: Session)
    ensures s[c := x][c := y] == s[c := y]
  {
  }

  class CorrectnessValidator {
    var books: map<string, ShadowBook.OrderBook>
    var lastTestId: map<string, string>
    ghost var sessions: Sessions  // what the two maps hold

    ghost predicate Valid()
      reads this, books.Values
    {
      books.Keys == lastTestId.Keys == sessions.Keys && forall c {:trigger Open(c)} :: Open(c)
    }

    /** An open book is its contestant's own, and holds what the session says. */
    ghost predicate Open(c: string)
      reads this, books.Values
    {
      c in books && c in lastTestId && c in sessions ==>
        books[c].owner == c && books[c].Valid() && sessions[c] == Session(books[c].Contents(), lastTestId[c])
    }

    constructor ()
      ensures Valid() && sessions == map[] && books == map[]
    {
      books, lastTestId, sessions := map[], map[], map[];
    }

    method ValidateBatch(events: seq<Event>) returns (results: seq<Verdict>)
      requires Valid()
      modifies this, books.Values
      ensures Valid() && fresh(books.Values - old(books.Values))
      ensures var (after, judged) := JudgeBatch(Referee, old(sessions), events);
              sessions == after && results == Verdicts(judged)
      ensures AllJust(old(sessions), StableSort.Sort(events, Earlier()), results)
    {
      var sorted := StableSort.Sort(events, Earlier());
      results := [];
      ghost var start, judged: seq<Judged> := sessions, [];
      for i := 0 to |sorted|
        invariant Valid() && fresh(books.Values - old(books.Values))
        invariant (sessions, judged) == JudgeAll(Referee, start, sorted[..i]) && results == Verdicts(judged)
      {
        JudgeSnoc(Referee, start, sorted, i);
        var verdict := ValidateOne(sorted[i]);
        assert (judged + [Judged(sorted[i], verdict)])[..|judged|] == judged;
        judged := judged + [Judged(sorted[i], verdict)];
        results := results + [verdict];
      }
      assert sorted[..|sorted|] == sorted;
      VerdictsJust(start, sorted);
    }

    /** The loop body of `ValidateBatch`. */
    method ValidateOne(e: Event) returns (verdict: Verdict)
      requires Valid()
      modifies this, books.Values
      ensures Valid() && fresh(books.Values - old(books.Values))
      ensures (sessions, Judged(e, verdict)) == JudgeOne(Referee, old(sessions), e)
    {
      var c := e.contestant;
      OpenBook(c, e.test);
      assert books[c] in books.Values;
      Overwrite(old(sessions), c, sessions[c], Session(Step(sessions[c].book, e.order).0, e.test));
      var expected := Replay(c, e.order);
      verdict := Compare(expected, e.actual);
    }

    method Replay(c: string, o: Order) returns (expected: Fill)
      requires Valid() && c in books
      modifies `sessions, books[c]
      ensures Valid()
      ensures var (book, fill) := Step(old(sessions)[c].book, o);
              expected == fill && sessions == old(sessions)[c := Session(book, old(sessions)[c].test)]
    {
      var book := books[c];
      assert Open(c);
      assert forall d :: old(Open(d)) && d in books && d != c ==> books[d] != book;
      expected := book.ProcessOrder(o);
      sessions := sessions[c := Session(book.Contents(), lastTestId[c])];
      forall d ensures Open(d) { assert old(Open(d)); }
    }

    /** Creates the book on first sight of a contestant, and resets it when a new test starts. */
    method OpenBook(c: string, test: string)
      requires Valid()
      modifies this
      ensures Valid() && c in books && fresh(books.Values - old(books.Values))
      ensures var s := old(sessions);
              sessions == s[c := Session(if c !in s || s[c].test != test then EMPTY else s[c].book, test)]
    {
      assert Open(c);
      if c !in books || (c in lastTestId && lastTestId[c] != test) {
        NewBook(c, test);
      } else {
        sessions := sessions[c := Session(sessions[c].book, test)];
        lastTestId := lastTestId[c := test];
        forall d ensures Open(d) { assert old(Open(d)); }
      }
    }

    method NewBook(c: string, test: string)
      requires Valid()
      modifies this
      ensures Valid() && c in books && fresh(books[c]) && books == old(books)[c := books[c]]
      ensures sessions == old(sessions)[c := Session(EMPTY, test)]
    {
      var book := new ShadowBook.OrderBook(c);
      books, lastTestId := books[c := book], lastTestId[c := test];
      sessions := sessions[c := Session(EMPTY, test)];
      forall d ensures Open(d) { assert old(Open(d)); }
    }
  }
}
