/** Lockstep composed over the platform's whole path: a contestant's server plays test after test, reset in
    between, and its telemetry reaches the judge in flushed batches among everybody else's. */
module LongRuns {
  import opened Common
  import opened FlatBook
  import opened Validator
  import opened Lockstep
  import opened Replay
  import opened Pipeline
  import Server = SampleBook
  import StableSort

  datatype Test = Test(id: string, orders: seq<Order>, firstSeq: int)

  /** The telemetry of a test served from an empty book. */
  function Played(c: string, t: Test): seq<Event> {
    Telemetry(c, t.id, t.orders, Replies(EMPTY_SERVER, t.orders), t.firstSeq)
  }

  /** A contestant's tests one after the other. */
  function Stream(c: string, tests: seq<Test>): seq<Event> {
    if tests == [] then [] else Stream(c, tests[..|tests| - 1]) + Played(c, tests[|tests| - 1])
  }

  /** The test of the last event before, if any. */
  function LastTest(s: Sessions, c: string, tests: seq<Test>): Option<string> {
    if tests == [] then (if c in s then Some(s[c].test) else None)
    else if tests[|tests| - 1].orders != [] then Some(tests[|tests| - 1].id)
    else LastTest(s, c, tests[..|tests| - 1])
  }

  /** Each test is another one than the last played before it, and its run is proper. */
  predicate Playable(s: Sessions, c: string, tests: seq<Test>) {
    tests == [] ||
    var t, before := tests[|tests| - 1], tests[..|tests| - 1];
    Playable(s, c, before) && LastTest(s, c, before) != Some(t.id) && Proper(EMPTY_SERVER, t.orders)
  }

  /** Every event of every test is judged correct. */
  lemma {:induction false} StreamAccepted(s: Sessions, c: string, tests: seq<Test>)
    requires Playable(s, c, tests)
    ensures var (s', js) := JudgeAll(Referee, s, Stream(c, tests));
            && AllAccepted(js)
            && (if c in s' then Some(s'[c].test) else None) == LastTest(s, c, tests)
  {
    if tests == [] {
    } else {
      var t, before := tests[|tests| - 1], tests[..|tests| - 1];
      StreamAccepted(s, c, before);
      var (s1, js) := JudgeAll(Referee, s, Stream(c, before));
      TestAccepted(s1, c, t.id, EMPTY_SERVER, t.orders, Replies(EMPTY_SERVER, t.orders), t.firstSeq);
      JudgeAppend(Referee, s, Stream(c, before), Played(c, t));
      AcceptedAppend(js, JudgeAll(Referee, s1, Played(c, t)).1);
    }
  }

  lemma {:induction false} AcceptedAppend(a: seq<Judged>, b: seq<Judged>)
    requires AllAccepted(a) && AllAccepted(b)
    ensures AllAccepted(a + b)
  {
    if a == [] {
      assert a + b == b;
    } else {
      AcceptedAppend(a[1..], b);
      assert (a + b)[1..] == a[1..] + b;
    }
  }

  // ----- delivery -----

  /** One flush of the reorder buffer: what was added, and the order in which its contestants were visited. */
  datatype Flush = Flush(added: seq<Event>, order: seq<string>) {
    function Batch(): seq<Event> {
      StableSort.Sort(added, Earlier())
    }
  }

  /** What the pipeline records, flush after flush. */
  function Records(f: Judge, s: Sessions, flushes: seq<Flush>): (Sessions, seq<Judged>) {
    if flushes == [] then (s, [])
    else
      var last := flushes[|flushes| - 1];
      var (s', js) := Records(f, s, flushes[..|flushes| - 1]);
      var (s'', ks) := Process(f, s', last.Batch(), last.order);
      (s'', js + ks)
  }

  /** What was added for each flush. */
  function Arrivals(flushes: seq<Flush>): (arrivals: seq<seq<Event>>)
    ensures |arrivals| == |flushes|
  {
    if flushes == [] then [] else Arrivals(flushes[..|flushes| - 1]) + [flushes[|flushes| - 1].added]
  }

  /** Every flush visits each contestant with events, and none twice. */
  ghost predicate AllComplete(flushes: seq<Flush>) {
    flushes == [] ||
    var last := flushes[|flushes| - 1];
    AllComplete(flushes[..|flushes| - 1]) && Complete(last.order, last.Batch())
  }

  /** The contestant's events arrive in processing order up to what each flush sorts: sorted, those of each
      flush are the next ones of its stream. */
  predicate Delivers(c: string, arrivals: seq<seq<Event>>, stream: seq<Event>) {
    if arrivals == [] then stream == []
    else
      var own := StableSort.Filter(StableSort.Sort(arrivals[|arrivals| - 1], Earlier()), Of(c));
      && |own| <= |stream| && stream[|stream| - |own|..] == own
      && Delivers(c, arrivals[..|arrivals| - 1], stream[..|stream| - |own|])
  }

  /** One more flush, from sessions that agree on the contestant. */
  lemma FlushIsStream(f: Judge, s: Sessions, t: Sessions, c: string, last: Flush)
    requires SameFor(c, s, t) && Once(last.order) && Covers(last.order, last.Batch(), c)
    ensures var (s', js) := Process(f, s, last.Batch(), last.order);
            var (t', ks) := JudgeAll(f, t, StableSort.Filter(last.Batch(), Of(c)));
            SameFor(c, s', t') && StableSort.Filter(js, About(c)) == ks
  {
    FlushedBatchRecorded(f, s, last.added, last.order, c);
    Local(f, c, s, t, last.Batch());
  }

  lemma StreamNext(f: Judge, s: Sessions, c: string, s1: Sessions, js: seq<Judged>, earlier: seq<Event>, last: Flush)
    requires SameFor(c, s1, JudgeAll(f, s, earlier).0)
    requires StableSort.Filter(js, About(c)) == JudgeAll(f, s, earlier).1
    requires Once(last.order) && Covers(last.order, last.Batch(), c)
    ensures var (s2, ks) := Process(f, s1, last.Batch(), last.order);
            var (t, ds) := JudgeAll(f, s, earlier + StableSort.Filter(last.Batch(), Of(c)));
            SameFor(c, s2, t) && StableSort.Filter(js + ks, About(c)) == ds
  {
    FlushIsStream(f, s1, JudgeAll(f, s, earlier).0, c, last);
    JudgeAppend(f, s, earlier, StableSort.Filter(last.Batch(), Of(c)));
    StableSort.FilterAppend(js, Process(f, s1, last.Batch(), last.order).1, About(c));
  }

  /** However the flushes are cut and the contestants visited, one contestant is recorded with the verdicts of
      its own stream judged event by event. */
  lemma {:induction false} RecordsAreStream(f: Judge, s: Sessions, c: string, flushes: seq<Flush>, stream: seq<Event>)
    requires AllComplete(flushes) && Delivers(c, Arrivals(flushes), stream)
    ensures var (s', js) := Records(f, s, flushes);
            var (t', ks) := JudgeAll(f, s, stream);
            SameFor(c, s', t') && StableSort.Filter(js, About(c)) == ks
  {
    if flushes == [] {
    } else {
      var last, before := flushes[|flushes| - 1], flushes[..|flushes| - 1];
      var n := |stream| - |StableSort.Filter(last.Batch(), Of(c))|;
      TakeDrop(stream, n);
      RecordsAreStream(f, s, c, before, stream[..n]);
      assert Covers(last.order, last.Batch(), c);
      StreamNext(f, s, c, Records(f, s, before).0, Records(f, s, before).1, stream[..n], last);
    }
  }

  lemma TakeDrop<T>(s: seq<T>, i: nat)
    requires i <= |s|
    ensures s == s[..i] + s[i..]
  {
  }

  /** No false accusation, over everything: whatever the other contestants send, a contestant on the reference
      server is recorded correct for every event of every test it plays. */
  lemma NeverAccused(s: Sessions, c: string, tests: seq<Test>, flushes: seq<Flush>)
    requires Playable(s, c, tests) && AllComplete(flushes) && Delivers(c, Arrivals(flushes), Stream(c, tests))
    ensures AllCorrect(c, Stream(c, tests), Records(Referee, s, flushes).1)
  {
    StreamAccepted(s, c, tests);
    RecordsAreStream(Referee, s, c, flushes, Stream(c, tests));
    AcceptedEach(StableSort.Filter(Records(Referee, s, flushes).1, About(c)));
    JudgedEvents(Referee, s, Stream(c, tests));
  }

  // ----- the programs -----

  /** Plays the tests on one server, resetting it before each. */
  method PlayAll(c: string, tests: seq<Test>) returns (stream: seq<Event>)
    ensures stream == Stream(c, tests)
  {
    var server := new Server.Book();
    stream := [];
    for i := 0 to |tests|
      invariant server.Valid() && fresh(server) && stream == Stream(c, tests[..i])
    {
      assert tests[..i + 1][..i] == tests[..i];
      server.Reset();
      var replies := ServeOn(server, tests[i].orders);
      stream := stream + Telemetry(c, tests[i].id, tests[i].orders, replies, tests[i].firstSeq);
    }
    assert tests[..|tests|] == tests;
  }

  /** From the sessions and the records at the start, the arrivals have been processed in these flushes. */
  ghost predicate Driven(f: Judge, start: Sessions, before: seq<Judged>, flushes: seq<Flush>,
                         arrivals: seq<seq<Event>>, now: Sessions, recorded: seq<Judged>)
  {
    && Arrivals(flushes) == arrivals && AllComplete(flushes)
    && now == Records(f, start, flushes).0 && recorded == before + Records(f, start, flushes).1
  }

  lemma FlushNext(flushes: seq<Flush>, last: Flush)
    requires AllComplete(flushes) && Complete(last.order, last.Batch())
    ensures Arrivals(flushes + [last]) == Arrivals(flushes) + [last.added] && AllComplete(flushes + [last])
  {
    assert (flushes + [last])[..|flushes|] == flushes;
  }

  lemma RecordsNext(f: Judge, start: Sessions, flushes: seq<Flush>, last: Flush, before: seq<Judged>)
    ensures var (now, js) := Records(f, start, flushes);
            var (s, ks) := Process(f, now, last.Batch(), last.order);
            var (s', js') := Records(f, start, flushes + [last]);
            s' == s && before + js' == (before + js) + ks
  {
    assert (flushes + [last])[..|flushes|] == flushes;
    var (now, js) := Records(f, start, flushes);
    Reassociate(before, js, Process(f, now, last.Batch(), last.order).1);
  }

  lemma DriveNext(f: Judge, start: Sessions, before: seq<Judged>, flushes: seq<Flush>, arrivals: seq<seq<Event>>,
                  now: Sessions, recorded: seq<Judged>, last: Flush)
    requires Driven(f, start, before, flushes, arrivals, now, recorded) && Complete(last.order, last.Batch())
    ensures var (s, ks) := Process(f, now, last.Batch(), last.order);
            Driven(f, start, before, flushes + [last], arrivals + [last.added], s, recorded + ks)
  {
    FlushNext(flushes, last);
    RecordsNext(f, start, flushes, last, before);
  }

  /** Adds what arrived before each tick to the reorder buffer and has the pipeline process what it flushes. */
  method Drive(p: Pipeline, arrivals: seq<seq<Event>>) returns (ghost flushes: seq<Flush>)
    requires p.validator.Valid()
    modifies p, p.validator, p.validator.books.Values
    ensures p.validator.Valid()
    ensures Driven(Referee, old(p.validator.sessions), old(p.recorded), flushes, arrivals,
                   p.validator.sessions, p.recorded)
  {
    flushes := [];
    ghost var start, before := p.validator.sessions, p.recorded;
    for i := 0 to |arrivals|
      invariant p.validator.Valid() && fresh(p.validator.books.Values - old(p.validator.books.Values))
      invariant Driven(Referee, start, before, flushes, arrivals[..i], p.validator.sessions, p.recorded)
    {
      TakeNext(arrivals, i);
      flushes := Tick(p, arrivals[i], start, before, flushes, arrivals[..i]);
    }
    TakeAll(arrivals);
  }

  /** The programs together: of what the pipeline adds to its records, everything about a contestant that plays
      on the reference server is correct, and nothing of it is missing. */
  method DriveAndJudge(p: Pipeline, c: string, ghost tests: seq<Test>, arrivals: seq<seq<Event>>)
    requires p.validator.Valid()
    requires Playable(p.validator.sessions, c, tests) && Delivers(c, arrivals, Stream(c, tests))
    modifies p, p.validator, p.validator.books.Values
    ensures p.validator.Valid() && old(p.recorded) <= p.recorded
    ensures AllCorrect(c, Stream(c, tests), p.recorded[|old(p.recorded)|..])
  {
    ghost var start, before := p.validator.sessions, p.recorded;
    ghost var flushes := Drive(p, arrivals);
    assert p.recorded[|before|..] == Records(Referee, start, flushes).1;
    NeverAccused(start, c, tests, flushes);
  }

  predicate AllCorrect(c: string, stream: seq<Event>, js: seq<Judged>) {
    var own := StableSort.Filter(js, About(c));
    |own| == |stream| && forall i :: 0 <= i < |own| ==> own[i] == Judged(stream[i], OK)
  }

  lemma TakeNext<T>(s: seq<T>, i: nat)
    requires i < |s|
    ensures s[..i + 1] == s[..i] + [s[i]]
  {
  }

  lemma TakeAll<T>(s: seq<T>)
    ensures s[..|s|] == s
  {
  }

  method Tick(p: Pipeline, arrived: seq<Event>, ghost start: Sessions, ghost before: seq<Judged>,
              ghost flushes: seq<Flush>, ghost arrivals: seq<seq<Event>>) returns (ghost more: seq<Flush>)
    requires p.validator.Valid()
    requires Driven(Referee, start, before, flushes, arrivals, p.validator.sessions, p.recorded)
    modifies p, p.validator, p.validator.books.Values
    ensures p.validator.Valid() && fresh(p.validator.books.Values - old(p.validator.books.Values))
    ensures Driven(Referee, start, before, more, arrivals + [arrived], p.validator.sessions, p.recorded)
  {
    ghost var now, recorded := p.validator.sessions, p.recorded;
    ghost var last := FlushInto(p, arrived);
    DriveNext(Referee, start, before, flushes, arrivals, now, recorded, last);
    more := flushes + [last];
  }

  /** One tick: an empty buffer hands on nothing. */
  method FlushInto(p: Pipeline, arrived: seq<Event>) returns (ghost last: Flush)
    requires p.validator.Valid()
    modifies p, p.validator, p.validator.books.Values
    ensures p.validator.Valid() && fresh(p.validator.books.Values - old(p.validator.books.Values))
    ensures last.added == arrived && Complete(last.order, last.Batch())
    ensures p.validator.sessions == Process(Referee, old(p.validator.sessions), last.Batch(), last.order).0
    ensures p.recorded == old(p.recorded) + Process(Referee, old(p.validator.sessions), last.Batch(), last.order).1
  {
    var batch := Gather(arrived);
    if batch.Some? {
      ghost var order := p.ProcessBatch(batch.value);
      last := Flush(arrived, order);
    } else {
      NothingToVisit();
      last := Flush(arrived, []);
    }
  }

  method Gather(arrived: seq<Event>) returns (batch: Option<seq<Event>>)
    ensures batch == if arrived == [] then None else Some(StableSort.Sort(arrived, Earlier()))
  {
    var buffer := new ReorderBuffer();
    for i := 0 to |arrived|
      invariant buffer.pending == arrived[..i]
    {
      buffer.Add(arrived[i]);
    }
    assert arrived[..|arrived|] == arrived;
    batch := buffer.Flush();
  }

  lemma NothingToVisit()
    ensures Complete([], [])
  {
    forall c ensures Covers([], [], c) { }
  }
}
