/** The reorder buffer and the pipeline (`services/telemetry-ingester/reorder_buffer.go` and
    `pipeline.go`), which feed the validator. */
module Pipeline {
  import opened Common
  import opened FlatBook
  import opened Validator
  import opened Replay
  import StableSort

  class ReorderBuffer {
    var pending: seq<Event>

    constructor ()
      ensures pending == []
    {
      pending := [];
    }

    method Add(e: Event)
      modifies this
      ensures pending == old(pending) + [e]
    {
      pending := pending + [e];
    }

    /** Hands on the pending events in sequence order; an empty buffer hands on nothing. */
    method Flush() returns (batch: Option<seq<Event>>)
      modifies this
      ensures pending == []
      ensures old(pending) == [] ==> batch == None
      ensures old(pending) != [] ==> batch == Some(StableSort.Sort(old(pending), Earlier()))
    {
      if |pending| == 0 {
        return None;
      }
      var events := pending;
      pending := [];
      return Some(StableSort.Sort(events, Earlier()));
    }
  }

  function Numbered(n: int): Event -> bool {
    (e: Event) => e.seqNo == n
  }

  /** A flushed batch is a sequence-sorted permutation of what was added, and events with the same
      number keep their arrival order. */
  lemma FlushSortsStably(added: seq<Event>, n: int)
    ensures var batch := StableSort.Sort(added, Earlier());
            && StableSort.Sorted(batch, Earlier()) && multiset(batch) == multiset(added)
            && StableSort.Filter(batch, Numbered(n)) == StableSort.Filter(added, Numbered(n))
  {
    EarlierOrders();
    StableSort.SortSorts(added, Earlier());
    StableSort.SortStable(added, Numbered(n), Earlier());
    var own := StableSort.Filter(added, Numbered(n));
    StableSort.FilterMembers(added, Numbered(n));
    StableSort.SortedIsFixed(own, Earlier());
  }

  /** Verdict i belongs to event i exactly when the batch comes in already sorted. */
  lemma VerdictsAligned(f: Judge, s: Sessions, events: seq<Event>)
    ensures var js := JudgeBatch(f, s, events).1;
            && |js| == |events|
            && ((forall i :: 0 <= i < |js| ==> js[i].event == events[i]) <==> StableSort.Sorted(events, Earlier()))
  {
    EarlierOrders();
    StableSort.SortIdentity(events, Earlier());
    var sorted := StableSort.Sort(events, Earlier());
    JudgedEvents(f, s, sorted);
    var js := JudgeBatch(f, s, events).1;
    if forall i :: 0 <= i < |js| ==> js[i].event == events[i] {
      assert sorted == events;
    }
  }

  /** A sorted batch leaves every contestant's group sorted. */
  lemma SortedGroups(c: string, events: seq<Event>)
    requires StableSort.Sorted(events, Earlier())
    ensures StableSort.Sorted(StableSort.Filter(events, Of(c)), Earlier())
  {
    EarlierOrders();
    StableSort.SortedIsFixed(events, Earlier());
    StableSort.SortStable(events, Of(c), Earlier());
    StableSort.SortIdentity(StableSort.Filter(events, Of(c)), Earlier());
  }

  /** Pairs each event with the verdict at the same position. */
  function Pair(events: seq<Event>, verdicts: seq<Verdict>): (js: seq<Judged>)
    requires |events| == |verdicts|
    ensures |js| == |events| && forall i :: 0 <= i < |js| ==> js[i] == Judged(events[i], verdicts[i])
  {
    if events == [] then []
    else Pair(events[..|events| - 1], verdicts[..|events| - 1]) + [Judged(events[|events| - 1], verdicts[|events| - 1])]
  }

  /** What the pipeline records for a group: its events, each with the verdict at the same position. */
  function PairBatch(f: Judge, s: Sessions, group: seq<Event>): (r: (Sessions, seq<Judged>))
    ensures r.0 == JudgeBatch(f, s, group).0 && |r.1| == |JudgeBatch(f, s, group).1| == |group|
  {
    var (s', js) := JudgeBatch(f, s, group);
    JudgedEvents(f, s, StableSort.Sort(group, Earlier()));
    (s', Pair(group, Verdicts(js)))
  }

  /** The groups of a batch, recorded in the order given. */
  function Process(f: Judge, s: Sessions, events: seq<Event>, order: seq<string>): (Sessions, seq<Judged>) {
    if order == [] then (s, [])
    else
      var n := |order| - 1;
      var (s', done) := Process(f, s, events, order[..n]);
      var (s'', js) := PairBatch(f, s', StableSort.Filter(events, Of(order[n])));
      (s'', done + js)
  }

  lemma ProcessNext(f: Judge, s: Sessions, events: seq<Event>, order: seq<string>, c: string)
    ensures var (s', done) := Process(f, s, events, order);
            var (s'', js) := PairBatch(f, s', StableSort.Filter(events, Of(c)));
            Process(f, s, events, order + [c]) == (s'', done + js)
  {
    assert (order + [c])[..|order|] == order;
  }

  predicate SortedFor(events: seq<Event>, order: seq<string>) {
    order == [] ||
    (SortedFor(events, order[..|order| - 1])
     && StableSort.Sorted(StableSort.Filter(events, Of(order[|order| - 1])), Earlier()))
  }

  /** The pipeline records every event with its own verdict exactly when every group came in sorted. */
  lemma {:induction false} RecordedRightly(f: Judge, s: Sessions, events: seq<Event>, order: seq<string>)
    ensures Process(f, s, events, order).0 == Visit(f, s, events, order).0
    ensures |Process(f, s, events, order).1| == |Visit(f, s, events, order).1|
    ensures Process(f, s, events, order).1 == Visit(f, s, events, order).1 <==> SortedFor(events, order)
  {
    if order == [] {
    } else {
      var front, group := order[..|order| - 1], StableSort.Filter(events, Of(order[|order| - 1]));
      RecordedRightly(f, s, events, front);
      var s' := Visit(f, s, events, front).0;
      PairedRightly(f, s', group);
      SameParts(Process(f, s, events, front).1, PairBatch(f, s', group).1,
                Visit(f, s, events, front).1, JudgeBatch(f, s', group).1);
    }
  }

  lemma SameParts(a: seq<Judged>, b: seq<Judged>, c: seq<Judged>, d: seq<Judged>)
    requires |a| == |c|
    ensures a + b == c + d <==> a == c && b == d
  {
    if a + b == c + d {
      assert (a + b)[..|a|] == a && (c + d)[..|c|] == c;
      assert (a + b)[|a|..] == b && (c + d)[|c|..] == d;
    }
  }

  lemma PairedRightly(f: Judge, s: Sessions, group: seq<Event>)
    ensures PairBatch(f, s, group).1 == JudgeBatch(f, s, group).1 <==> StableSort.Sorted(group, Earlier())
  {
    VerdictsAligned(f, s, group);
    var js := JudgeBatch(f, s, group).1;
    JudgedEvents(f, s, StableSort.Sort(group, Earlier()));
    var paired := Pair(group, Verdicts(js));
    if forall i :: 0 <= i < |js| ==> js[i].event == group[i] {
      assert paired == js;
    } else {
      var i :| 0 <= i < |js| && js[i].event != group[i];
      assert paired[i] != js[i];
    }
  }

  /** A flushed batch is sorted, and so is every group of it. */
  lemma {:induction false} SortedForAll(events: seq<Event>, order: seq<string>)
    requires StableSort.Sorted(events, Earlier())
    ensures SortedFor(events, order)
  {
    if order == [] {
    } else {
      SortedForAll(events, order[..|order| - 1]);
      SortedGroups(order[|order| - 1], events);
    }
  }

  /** From buffer to records: whatever was added, and in whatever order the contestants of the flushed
      batch are visited, each ends in the session, and is recorded with the verdicts, of the whole batch
      judged at once, and every recorded verdict is its own event's. */
  lemma FlushedBatchRecorded(f: Judge, s: Sessions, added: seq<Event>, order: seq<string>, c: string)
    requires Once(order) && Covers(order, StableSort.Sort(added, Earlier()), c)
    ensures var batch := StableSort.Sort(added, Earlier());
            var (s', recorded) := Process(f, s, batch, order);
            var (t, judged) := JudgeAll(f, s, batch);
            && SameFor(c, s', t)
            && StableSort.Filter(recorded, About(c)) == StableSort.Filter(judged, About(c))
  {
    var batch := StableSort.Sort(added, Earlier());
    EarlierOrders();
    StableSort.SortSorts(added, Earlier());
    StableSort.SortedIsFixed(batch, Earlier());
    SortedForAll(batch, order);
    RecordedRightly(f, s, batch, order);
    Confluence(f, c, s, batch, order);
  }

  class Pipeline {
    const validator: CorrectnessValidator
    var recorded: seq<Judged>  // each event with the verdict it was recorded with

    constructor (validator: CorrectnessValidator)
      ensures this.validator == validator && recorded == []
    {
      this.validator := validator;
      recorded := [];
    }

    /** Groups the batch by contestant, then validates the groups in whatever order the map yields
        them; `order` is that order. */
    method ProcessBatch(events: seq<Event>) returns (ghost order: seq<string>)
      requires validator.Valid()
      modifies this, validator, validator.books.Values
      ensures validator.Valid() && fresh(validator.books.Values - old(validator.books.Values))
      ensures Complete(order, events)
      ensures Processed(old(validator.sessions), old(recorded), events, order)
    {
      var byContestant := Group(events);
      order := [];
      var left := byContestant.Keys;
      ghost var start, before := validator.sessions, recorded;
      while left != {}
        invariant validator.Valid() && fresh(validator.books.Values - old(validator.books.Values))
        invariant ToVisit(byContestant.Keys, order, left)
        invariant Processed(start, before, events, order)
        decreases left
      {
        var c :| c in left;
        VisitNext(byContestant.Keys, order, left, c);
        RecordNext(c, byContestant, start, before, events, order);
        order, left := order + [c], left - {c};
      }
      VisitedAll(byContestant, events, order);
    }

    /** From the sessions and the records at the start, the groups in this order have been processed. */
    ghost predicate Processed(start: Sessions, before: seq<Judged>, events: seq<Event>, order: seq<string>)
      reads this, validator
    {
      var (after, js) := Process(Referee, start, events, order);
      validator.sessions == after && recorded == before + js
    }

    /** The body of the second loop of `ProcessBatch`: one contestant's group. The ghost parameters say
        what has been processed so far. */
    method RecordNext(c: string, groups: map<string, seq<Event>>, ghost start: Sessions, ghost before: seq<Judged>,
                      ghost events: seq<Event>, ghost order: seq<string>)
      requires validator.Valid() && c in groups && GroupsOk(groups, events)
      requires Processed(start, before, events, order)
      modifies this, validator, validator.books.Values
      ensures validator.Valid() && fresh(validator.books.Values - old(validator.books.Values))
      ensures Processed(start, before, events, order + [c])
    {
      assert GroupOk(groups, events, c);
      var group := groups[c];
      ProcessNext(Referee, start, events, order, c);
      Reassociate(before, Process(Referee, start, events, order).1, PairBatch(Referee, validator.sessions, group).1);
      RecordGroup(group);
    }

    method RecordGroup(group: seq<Event>)
      requires validator.Valid()
      modifies this, validator, validator.books.Values
      ensures validator.Valid() && fresh(validator.books.Values - old(validator.books.Values))
      ensures var (after, js) := PairBatch(Referee, old(validator.sessions), group);
              validator.sessions == after && recorded == old(recorded) + js
    {
      JudgedEvents(Referee, validator.sessions, StableSort.Sort(group, Earlier()));
      var results := validator.ValidateBatch(group);
      recorded := recorded + Pair(group, results);
    }
  }

  lemma Reassociate(a: seq<Judged>, b: seq<Judged>, c: seq<Judged>)
    ensures (a + b) + c == a + (b + c)
  {
  }

  ghost predicate GroupsOk(groups: map<string, seq<Event>>, events: seq<Event>) {
    forall c {:trigger GroupOk(groups, events, c)} :: GroupOk(groups, events, c)
  }

  /** An order that visits every contestant with events, and none twice. */
  ghost predicate Complete(order: seq<string>, events: seq<Event>) {
    Once(order) && forall c {:trigger Covers(order, events, c)} :: Covers(order, events, c)
  }

  /** Of these contestants, the ones in the order have been visited and the rest are left. */
  ghost predicate ToVisit(all: set<string>, order: seq<string>, left: set<string>) {
    Once(order) && left <= all && forall c :: c in order <==> c in all && c !in left
  }

  lemma VisitedAll(groups: map<string, seq<Event>>, events: seq<Event>, order: seq<string>)
    requires ToVisit(groups.Keys, order, {}) && GroupsOk(groups, events)
    ensures Complete(order, events)
  {
    forall c ensures Covers(order, events, c) { assert GroupOk(groups, events, c); }
  }

  lemma VisitNext(all: set<string>, order: seq<string>, left: set<string>, c: string)
    requires ToVisit(all, order, left) && c in left
    ensures ToVisit(all, order + [c], left - {c})
  {
    OnceMore(order, c);
  }

  /** c's entry is its events in order; a contestant without events has no entry. */
  predicate GroupOk(groups: map<string, seq<Event>>, events: seq<Event>, c: string) {
    if c in groups then groups[c] == StableSort.Filter(events, Of(c)) else StableSort.Filter(events, Of(c)) == []
  }

  method Group(events: seq<Event>) returns (groups: map<string, seq<Event>>)
    ensures GroupsOk(groups, events)
  {
    groups := map[];
    for i := 0 to |events|
      invariant forall c {:trigger GroupOk(groups, events[..i], c)} :: GroupOk(groups, events[..i], c)
    {
      var e := events[i];
      assert events[..i + 1] == events[..i] + [e];
      ghost var before := groups;
      groups := groups[e.contestant := (if e.contestant in groups then groups[e.contestant] else []) + [e]];
      ghost var done := events[..i + 1];
      forall c ensures GroupOk(groups, done, c) {
        assert GroupOk(before, events[..i], c);
        StableSort.FilterSnoc(events[..i], e, Of(c));
      }
    }
    assert events[..|events|] == events;
  }
}
