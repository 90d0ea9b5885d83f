/** What the validator's verdicts depend on: a contestant's own events in sequence, and neither the grouping of a
    batch nor the cutting of the stream into batches. */
module Replay {
  import opened Common
  import opened Validator
  import StableSort

  function Of(c: string): Event -> bool {
    (e: Event) => e.contestant == c
  }

  function About(c: string): Judged -> bool {
    (j: Judged) => j.event.contestant == c
  }

  /** c's session is the same in s and t. */
  predicate SameFor(c: string, s: Sessions, t: Sessions) {
    Prev(s, c) == Prev(t, c)
  }

  lemma EarlierOrders()
    ensures StableSort.Ordering(Earlier())
  {
    forall x, y, z ensures StableSort.Between(Earlier(), x, y, z) { }
  }

  // ----- locality -----

  /** A contestant's verdicts and session depend on nothing but its own events and session. */
  lemma {:induction false} Local(f: Judge, c: string, s: Sessions, t: Sessions, events: seq<Event>)
    requires SameFor(c, s, t)
    ensures var (s', js) := JudgeAll(f, s, events);
            var (t', ks) := JudgeAll(f, t, StableSort.Filter(events, Of(c)));
            SameFor(c, s', t') && StableSort.Filter(js, About(c)) == ks
  {
    if events == [] {
    } else {
      var front, e := events[..|events| - 1], events[|events| - 1];
      assert events == front + [e];
      Local(f, c, s, t, front);
      var own := StableSort.Filter(front, Of(c));
      var (s1, done) := JudgeAll(f, s, front);
      var (t1, ks) := JudgeAll(f, t, own);
      var (s2, j) := JudgeOne(f, s1, e);
      var (t2, k) := JudgeOne(f, t1, e);
      OneLocal(f, c, s1, t1, e);
      JudgeLast(f, s, front, e);
      StableSort.FilterSnoc(front, e, Of(c));
      StableSort.FilterSnoc(done, j, About(c));
      if e.contestant == c {
        JudgeLast(f, t, own, e);
        assert StableSort.Filter(events, Of(c)) == own + [e];
        assert JudgeAll(f, s, events) == (s2, done + [j]) && JudgeAll(f, t, own + [e]) == (t2, ks + [k]);
        assert StableSort.Filter(done + [j], About(c)) == ks + [k];
      } else {
        assert StableSort.Filter(events, Of(c)) == own;
        assert StableSort.Filter(done + [j], About(c)) == ks;
      }
    }
  }

  /** One event changes only its own contestant's session, and is judged by that session alone. */
  lemma OneLocal(f: Judge, c: string, s: Sessions, t: Sessions, e: Event)
    requires SameFor(c, s, t)
    ensures var (s', j) := JudgeOne(f, s, e);
            var (t', k) := JudgeOne(f, t, e);
            j.event == e && (if e.contestant == c then j == k && SameFor(c, s', t') else SameFor(c, s', t))
  {
  }

  lemma JudgeLast(f: Judge, s: Sessions, front: seq<Event>, e: Event)
    ensures var (s', done) := JudgeAll(f, s, front);
            var (s'', j) := JudgeOne(f, s', e);
            JudgeAll(f, s, front + [e]) == (s'', done + [j])
  {
    assert (front + [e])[..|front|] == front;
  }

  /** Events of one contestant touch no other contestant's session. */
  lemma {:induction false} Untouched(f: Judge, c: string, d: string, s: Sessions, events: seq<Event>)
    requires c != d
    ensures SameFor(d, s, JudgeAll(f, s, StableSort.Filter(events, Of(c))).0)
  {
    if events == [] {
    } else {
      var front, e := events[..|events| - 1], events[|events| - 1];
      Untouched(f, c, d, s, front);
      StableSort.FilterSnoc(front, e, Of(c));
      assert events == front + [e];
      if e.contestant == c {
        var own := StableSort.Filter(front, Of(c));
        var (s1, done) := JudgeAll(f, s, own);
        var (s2, j) := JudgeOne(f, s1, e);
        JudgeLast(f, s, own, e);
        OneLocal(f, d, s1, s, e);
        assert StableSort.Filter(events, Of(c)) == own + [e] && JudgeAll(f, s, own + [e]) == (s2, done + [j]);
      } else {
        assert StableSort.Filter(events, Of(c)) == StableSort.Filter(front, Of(c));
      }
    }
  }

  // ----- confluence -----

  /** The batch judged group by group, the contestants visited in the order given. */
  function Visit(f: Judge, s: Sessions, events: seq<Event>, order: seq<string>): (Sessions, seq<Judged>) {
    if order == [] then (s, [])
    else
      var n := |order| - 1;
      var (s', done) := Visit(f, s, events, order[..n]);
      var (s'', js) := JudgeBatch(f, s', StableSort.Filter(events, Of(order[n])));
      (s'', done + js)
  }

  /** A contestant that is not visited has no events. */
  predicate Covers(order: seq<string>, events: seq<Event>, c: string) {
    c in order || StableSort.Filter(events, Of(c)) == []
  }

  lemma {:induction false} VisitOne(f: Judge, c: string, s: Sessions, events: seq<Event>, order: seq<string>)
    requires Once(order)
    ensures var (s', js) := Visit(f, s, events, order);
            var (t, ks) := JudgeBatch(f, s, StableSort.Filter(events, Of(c)));
            if c in order then SameFor(c, s', t) && StableSort.Filter(js, About(c)) == ks
            else SameFor(c, s', s) && StableSort.Filter(js, About(c)) == []
  {
    if order == [] {
    } else {
      var front, d := order[..|order| - 1], order[|order| - 1];
      assert order == front + [d];
      VisitOne(f, c, s, events, front);
      var (s1, done) := Visit(f, s, events, front);
      var group := StableSort.Filter(events, Of(d));
      var sorted := StableSort.Sort(group, Earlier());
      var js := JudgeAll(f, s1, sorted).1;
      StableSort.FilterAppend(done, js, About(c));
      SortedGroup(d, events);
      if c == d {
        Local(f, c, s1, s, sorted);
        StableSort.FilterTwice(events, Of(c));
      } else {
        Untouched(f, d, c, s1, sorted);
        OthersVerdicts(f, c, d, s1, sorted);
      }
    }
  }

  /** Sorting keeps a group one contestant's. */
  lemma SortedGroup(c: string, events: seq<Event>)
    ensures var g := StableSort.Sort(StableSort.Filter(events, Of(c)), Earlier());
            StableSort.Filter(g, Of(c)) == g
  {
    EarlierOrders();
    StableSort.FilterTwice(events, Of(c));
    StableSort.SortStable(StableSort.Filter(events, Of(c)), Of(c), Earlier());
  }

  lemma {:induction false} OthersVerdicts(f: Judge, c: string, d: string, s: Sessions, events: seq<Event>)
    requires c != d && StableSort.Filter(events, Of(d)) == events
    ensures StableSort.Filter(JudgeAll(f, s, events).1, About(c)) == []
  {
    NoneOfOther(c, d, events);
    Local(f, c, s, s, events);
  }

  lemma NoneOfOther(c: string, d: string, events: seq<Event>)
    requires c != d && StableSort.Filter(events, Of(d)) == events
    ensures StableSort.Filter(events, Of(c)) == []
  {
    StableSort.FilterMembers(events, Of(d));
    StableSort.FilterNone(events, Of(c));
  }

  /** Confluence: whatever order the groups are visited in, every contestant ends in the session, and
      gets the verdicts, of the whole batch judged at once. */
  lemma Confluence(f: Judge, c: string, s: Sessions, events: seq<Event>, order: seq<string>)
    requires Once(order) && Covers(order, events, c)
    ensures var (s', js) := Visit(f, s, events, order);
            var (t, ks) := JudgeBatch(f, s, events);
            SameFor(c, s', t) && StableSort.Filter(js, About(c)) == StableSort.Filter(ks, About(c))
  {
    VisitOne(f, c, s, events, order);
    BatchLocal(f, c, s, s, events);
  }

  /** A whole batch, seen by one contestant, is its own group judged as a batch. */
  lemma BatchLocal(f: Judge, c: string, s: Sessions, t: Sessions, events: seq<Event>)
    requires SameFor(c, s, t)
    ensures var (s', js) := JudgeBatch(f, s, events);
            var (t', ks) := JudgeBatch(f, t, StableSort.Filter(events, Of(c)));
            SameFor(c, s', t') && StableSort.Filter(js, About(c)) == ks
  {
    EarlierOrders();
    Local(f, c, s, t, StableSort.Sort(events, Earlier()));
    StableSort.SortStable(events, Of(c), Earlier());
  }

  // ----- batch splitting -----

  /** None of c's events in b carries a smaller sequence number than one of its events in a. */
  predicate InSequence(c: string, a: seq<Event>, b: seq<Event>) {
    forall x, y :: x in a && y in b && x.contestant == c && y.contestant == c ==> x.seqNo <= y.seqNo
  }

  lemma {:induction false} JudgeAppend(f: Judge, s: Sessions, a: seq<Event>, b: seq<Event>)
    ensures var (s', js) := JudgeAll(f, s, a);
            var (s'', ks) := JudgeAll(f, s', b);
            JudgeAll(f, s, a + b) == (s'', js + ks)
  {
    if b == [] {
      assert a + b == a;
      assert JudgeAll(f, s, a).1 + [] == JudgeAll(f, s, a).1;
    } else {
      var front, e := b[..|b| - 1], b[|b| - 1];
      JudgeAppend(f, s, a, front);
      assert a + b == (a + front) + [e] && b == front + [e];
      JudgeLast(f, s, a + front, e);
      var (s1, js) := JudgeAll(f, s, a);
      var (s2, ks) := JudgeAll(f, s1, front);
      JudgeLast(f, s1, front, e);
      var (s3, j) := JudgeOne(f, s2, e);
      assert js + (ks + [j]) == (js + ks) + [j];
    }
  }

  lemma JudgeCons(f: Judge, s: Sessions, e: Event, rest: seq<Event>)
    ensures var (s', j) := JudgeOne(f, s, e);
            var (s'', js) := JudgeAll(f, s', rest);
            JudgeAll(f, s, [e] + rest) == (s'', [j] + js)
  {
    assert JudgeAll(f, s, []) == (s, []);
    JudgeLast(f, s, [], e);
    var (s', j) := JudgeOne(f, s, e);
    assert [] + [e] == [e] && [] + [j] == [j];
    JudgeAppend(f, s, [e], rest);
  }

  /** Splitting: two batches in turn give a contestant the session and verdicts of their
      concatenation, book resets included, whenever its events in them are in sequence. */
  lemma BatchSplit(f: Judge, c: string, s: Sessions, a: seq<Event>, b: seq<Event>)
    requires InSequence(c, a, b)
    ensures var (s1, js) := JudgeBatch(f, s, a);
            var (s2, ks) := JudgeBatch(f, s1, b);
            var (t, ls) := JudgeBatch(f, s, a + b);
            SameFor(c, s2, t) &&
            StableSort.Filter(js, About(c)) + StableSort.Filter(ks, About(c)) == StableSort.Filter(ls, About(c))
  {
    var less, fa, fb := Earlier(), StableSort.Filter(a, Of(c)), StableSort.Filter(b, Of(c));
    var s1 := JudgeBatch(f, s, a).0;
    var s1' := JudgeBatch(f, s, fa).0;
    BatchLocal(f, c, s, s, a);
    BatchLocal(f, c, s1, s1', b);
    BatchLocal(f, c, s, s, a + b);
    StableSort.FilterAppend(a, b, Of(c));
    forall x, y | x in fa && y in fb ensures !less(y, x) {
      StableSort.FilterMembers(a, Of(c));
      StableSort.FilterMembers(b, Of(c));
    }
    EarlierOrders();
    StableSort.SortAppend(fa, fb, less);
    JudgeAppend(f, s, StableSort.Sort(fa, less), StableSort.Sort(fb, less));
  }
}
