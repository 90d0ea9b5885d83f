/** What the calls of a run come to: StartTest, StopTest and FailTest, made in any reachable state, in rows, locks
    and topic. */
module Outcomes {
  import opened Orchestrator
  import opened Exclusion
  import opened Alone

  /** A state but for the calls in flight and how far the topic has been read. */
  function Apart(s: State, k: map<CallId, Call>, n: nat): State {
    s.(calls := k, consumed := n)
  }

  lemma SaidApart(s: State, k: map<CallId, Call>, n: nat, m: Message, ok: bool)
    ensures Said(Apart(s, k, n), m, ok) == Apart(Said(s, m, ok), k, n)
  {
  }

  lemma ReleasedApart(s: State, k: map<CallId, Call>, n: nat, contestant: Contestant, ok: bool)
    ensures Released(Apart(s, k, n), contestant, ok) == Apart(Released(s, contestant, ok), k, n)
  {
  }

  lemma FinishedApart(s: State, k: map<CallId, Call>, n: nat, i: Instance, t: TestId, named: Contestant, ok: bool)
    ensures Finished(Apart(s, k, n), i, t, named, ok) == Apart(Finished(s, i, t, named, ok), k, n)
  {
    ReleasedApart(Retired(s, i, t), k, n, named, ok);
  }

  lemma FailTestApart(owner: TestId -> Contestant, s: State, k: map<CallId, Call>, n: nat, i: Instance, t: TestId,
                      oks: seq<bool>)
    requires |oks| >= 6
    ensures FailTest(owner, Apart(s, k, n), i, t, oks) == Apart(FailTest(owner, s, i, t, oks), k, n)
  {
    if t in s.rows {
      var changed, m := Changed(s, t, Failed), Message(t, Failed);
      SaidApart(changed, k, n, m, oks[3]);
      FinishedApart(Said(changed, m, oks[3]), k, n, i, t, KnownAs(owner, s, i, t, oks[0]), oks[5]);
    }
  }

  lemma StopTestApart(owner: TestId -> Contestant, s: State, k: map<CallId, Call>, n: nat, i: Instance, t: TestId,
                      oks: seq<bool>)
    requires |oks| >= 8
    ensures StopTest(owner, Apart(s, k, n), i, t, oks) == Apart(StopTest(owner, s, i, t, oks), k, n)
  {
    if t in s.rows {
      var changed, m := Changed(s, t, Stopping), Message(t, Stopping);
      SaidApart(changed, k, n, m, oks[3]);
      var stopping := Said(changed, m, oks[3]);
      FinishedApart(Changed(stopping, t, Completed), k, n, i, t, KnownAs(owner, s, i, t, oks[2]), oks[7]);
    }
  }

  lemma StartLockedApart(owner: TestId -> Contestant, s: State, k: map<CallId, Call>, n: nat, i: Instance, t: TestId,
                         oks: seq<bool>)
    requires |oks| >= 9
    ensures StartLocked(owner, Apart(s, k, n), i, t, oks) == Apart(StartLocked(owner, s, i, t, oks), k, n)
  {
    if !(t in s.rows && s.rows[t] == Pending && oks[0]) {
      ReleasedApart(s, k, n, owner(t), oks[1]);
      FailTestApart(owner, Released(s, owner(t), oks[1]), k, n, i, t, oks[2..]);
    } else if !oks[1] {
      ReleasedApart(s, k, n, owner(t), oks[2]);
      FailTestApart(owner, Released(s, owner(t), oks[2]), k, n, i, t, oks[3..]);
    } else {
      SaidApart(Recorded(Changed(s, t, Running), t, oks[2]), k, n, Message(t, Running), oks[3]);
    }
  }

  /** What a call of this kind comes to. */
  function Outcome(owner: TestId -> Contestant, s: State, kind: Kind, i: Instance, t: TestId, oks: seq<bool>): State
    requires |oks| >= 10
  {
    match kind
    case Start => StartTest(owner, s, i, t, oks)
    case Stop => StopTest(owner, s, i, t, oks)
    case Fail => FailTest(owner, s, i, t, oks)
  }

  lemma OutcomeApart(owner: TestId -> Contestant, s: State, k: map<CallId, Call>, n: nat, kind: Kind, i: Instance,
                     t: TestId, oks: seq<bool>)
    requires |oks| >= 10
    ensures Outcome(owner, Apart(s, k, n), kind, i, t, oks) == Apart(Outcome(owner, s, kind, i, t, oks), k, n)
  {
    match kind
    case Start =>
      if !oks[0] {
        FailTestApart(owner, s, k, n, i, t, oks[1..]);
      } else if owner(t) !in s.locks {
        StartLockedApart(owner, s.(locks := s.locks[owner(t) := t]), k, n, i, t, oks[1..]);
      }
    case Stop => StopTestApart(owner, s, k, n, i, t, oks);
    case Fail => FailTestApart(owner, s, k, n, i, t, oks);
  }

  lemma SameOutcome(owner: TestId -> Contestant, s: State, e: State, kind: Kind, i: Instance, t: TestId, oks: seq<bool>)
    requires |oks| >= 10 && e == Apart(s, e.calls, e.consumed)
    ensures Apart(Outcome(owner, e, kind, i, t, oks), s.calls, s.consumed) == Outcome(owner, s, kind, i, t, oks)
  {
    OutcomeApart(owner, s, s.calls, s.consumed, kind, i, t, oks);
    OutcomeApart(owner, s, e.calls, e.consumed, kind, i, t, oks);
    assert Apart(s, s.calls, s.consumed) == s;
  }

  /** Where a call of this kind begins. */
  function Entrance(kind: Kind): Pc {
    match kind
    case Start => Locking
    case Stop => StopReading
    case Fail => FailNaming
  }

  /** The call has returned, and everything but the calls and the reading of the topic is as in this outcome. */
  predicate Left(s: State, id: CallId, r: State, outcome: State) {
    id in r.calls && r.calls[id].pc == Returned && Apart(r, s.calls, s.consumed) == outcome
  }

  lemma LeftAt(s: State, id: CallId, y: State, r: State, outcome: State)
    requires ReturnedTo(y, id, r) && Apart(y, s.calls, s.consumed) == outcome
    ensures Left(s, id, r, outcome)
  {
  }

  lemma LeftFrom(s: State, e: State, id: CallId, r: State, there: State, here: State)
    requires Left(e, id, r, there) && Apart(there, s.calls, s.consumed) == here
    ensures Left(s, id, r, here)
  {
  }

  lemma StartLeaves(owner: TestId -> Contestant, s: State, id: CallId, oks: seq<bool>, r: State)
    requires |oks| >= 10 && AtTo(owner, s, id, Locking, oks, r)
    ensures Left(s, id, r, Outcome(owner, s, Start, s.calls[id].instance, s.calls[id].test, oks))
  {
    var e, i, t := if oks[0] then s else Faulty(s, id), s.calls[id].instance, s.calls[id].test;
    StartsAlone(owner, s, id, oks, r);
    SameOutcome(owner, s, e, Start, i, t, oks);
    LeftAt(s, id, Outcome(owner, e, Start, i, t, oks), r, Outcome(owner, s, Start, i, t, oks));
  }

  lemma StopLeaves(owner: TestId -> Contestant, s: State, id: CallId, oks: seq<bool>, r: State)
    requires |oks| >= 10 && AtTo(owner, s, id, StopReading, oks, r)
    ensures Left(s, id, r, Outcome(owner, s, Stop, s.calls[id].instance, s.calls[id].test, oks))
  {
    var i, t := s.calls[id].instance, s.calls[id].test;
    StopsAlone(owner, s, id, oks, r);
    SameOutcome(owner, s, s, Stop, i, t, oks);
    LeftAt(s, id, Outcome(owner, s, Stop, i, t, oks), r, Outcome(owner, s, Stop, i, t, oks));
  }

  lemma FailLeaves(owner: TestId -> Contestant, s: State, id: CallId, oks: seq<bool>, r: State)
    requires |oks| >= 10 && AtTo(owner, s, id, FailNaming, oks, r)
    ensures Left(s, id, r, Outcome(owner, s, Fail, s.calls[id].instance, s.calls[id].test, oks))
  {
    var i, t := s.calls[id].instance, s.calls[id].test;
    FailsAlone(owner, s, id, oks, r);
    SameOutcome(owner, s, s, Fail, i, t, oks);
    LeftAt(s, id, Outcome(owner, s, Fail, i, t, oks), r, Outcome(owner, s, Fail, i, t, oks));
  }

  /** From every state, a call at its entrance that runs alone does what the sequential program does. */
  lemma CallAlone(owner: TestId -> Contestant, s: State, id: CallId, kind: Kind, oks: seq<bool>)
    requires id in s.calls && s.calls[id].pc == Entrance(kind) && |oks| >= 10
    ensures Left(s, id, RunFrom(owner, s, Advances(id, oks)),
                 Outcome(owner, s, kind, s.calls[id].instance, s.calls[id].test, oks))
  {
    var c, r := s.calls[id], RunFrom(owner, s, Advances(id, oks));
    AdvancesAlone(owner, s, id, oks);
    assert s.calls[id := c.(pc := c.pc)] == s.calls;
    assert At(s, id, c.pc) == s;
    match kind
    case Start => StartLeaves(owner, s, id, oks, r);
    case Stop => StopLeaves(owner, s, id, oks, r);
    case Fail => FailLeaves(owner, s, id, oks, r);
  }

  /** However far a call has just entered, its outcome is that of the state before. */
  lemma EnteredAlone(owner: TestId -> Contestant, steps: seq<Step>, step: Step, id: CallId, kind: Kind, i: Instance,
                     t: TestId, oks: seq<bool>)
    requires |oks| >= 10
    requires var s, e := Run(owner, steps), Next(owner, Run(owner, steps), step);
             && e == Apart(s, e.calls, e.consumed)
             && id in e.calls && e.calls[id].pc == Entrance(kind) && e.calls[id].instance == i && e.calls[id].test == t
    ensures var s, e := Run(owner, steps), Next(owner, Run(owner, steps), step);
            var r := Run(owner, steps + [step] + Advances(id, oks));
            Left(s, id, r, Outcome(owner, s, kind, i, t, oks)) && r.consumed == e.consumed
  {
    var s, e := Run(owner, steps), Next(owner, Run(owner, steps), step);
    var r := RunFrom(owner, e, Advances(id, oks));
    RunSnoc(owner, steps, step);
    RunThenFrom(owner, steps + [step], Advances(id, oks));
    CallAlone(owner, e, id, kind, oks);
    SameOutcome(owner, s, e, kind, i, t, oks);
    LeftFrom(s, e, id, r, Outcome(owner, e, kind, i, t, oks), Outcome(owner, s, kind, i, t, oks));
    ConsumedStays(owner, e, id, oks);
  }

  /** From every reachable state, a call made by a timer, on a crash or by recovery, which then runs alone, does
      exactly what the sequential program does. */
  lemma BegunAlone(owner: TestId -> Contestant, steps: seq<Step>, id: CallId, i: Instance, kind: Kind, t: TestId,
                   oks: seq<bool>)
    requires id !in Run(owner, steps).calls && |oks| >= 10
    ensures Left(Run(owner, steps), id, Run(owner, steps + [Begin(id, i, kind, t)] + Advances(id, oks)),
                 Outcome(owner, Run(owner, steps), kind, i, t, oks))
  {
    EnteredAlone(owner, steps, Begin(id, i, kind, t), id, kind, i, t, oks);
  }

  /** So does the next event of the topic: START_TEST starts its test, any other stops it. */
  lemma ConsumedAlone(owner: TestId -> Contestant, steps: seq<Step>, id: CallId, i: Instance, oks: seq<bool>)
    requires var s := Run(owner, steps); id !in s.calls && s.consumed < |s.topic|
    requires |oks| >= 10
    ensures var s := Run(owner, steps);
            var m, r := s.topic[s.consumed], Run(owner, steps + [Consume(id, i)] + Advances(id, oks));
            && r.consumed == s.consumed + 1
            && Left(s, id, r, Outcome(owner, s, if m.cause == Running then Start else Stop, i, m.test, oks))
  {
    var m := Run(owner, steps).topic[Run(owner, steps).consumed];
    EnteredAlone(owner, steps, Consume(id, i), id, if m.cause == Running then Start else Stop, i, m.test, oks);
  }

  lemma {:induction false} ConsumedStays(owner: TestId -> Contestant, s: State, id: CallId, oks: seq<bool>)
    ensures RunFrom(owner, s, Advances(id, oks)).consumed == s.consumed
    decreases |oks|
  {
    if oks == [] {
    } else {
      ConsumedStays(owner, Next(owner, s, Advance(id, oks[0])), id, oks[1..]);
      assert Advances(id, oks)[1..] == Advances(id, oks[1..]);
    }
  }

  // ----- in plain terms -----

  /** In any interleaving, a start that finds its contestant's lock taken, by whichever test, does nothing. */
  lemma RefusedStart(owner: TestId -> Contestant, steps: seq<Step>, id: CallId)
    requires var s := Run(owner, steps);
             id in s.calls && s.calls[id].pc == Locking && owner(s.calls[id].test) in s.locks
    ensures var s := Run(owner, steps);
            Run(owner, steps + [Advance(id, true)]) == s.(calls := s.calls[id := s.calls[id].(pc := Returned)])
  {
    RunSnoc(owner, steps, Advance(id, true));
  }

  /** A call about to swap a row that has meanwhile got another status than the one it read. */
  predicate Late(s: State, id: CallId) {
    && id in s.calls && s.calls[id].test in s.rows
    && match s.calls[id].pc
       case StartSwapping(seen) => s.rows[s.calls[id].test] != seen
       case StopSwapping(seen) => s.rows[s.calls[id].test] != seen
       case CompleteSwapping(_, seen) => s.rows[s.calls[id].test] != seen
       case FailSwapping(_, seen) => s.rows[s.calls[id].test] != seen
       case _ => false
  }

  /** In any interleaving, whoever loses the race for a row does nothing more: a start gives its lock back, anything
      else just returns. */
  lemma LoserReturns(owner: TestId -> Contestant, steps: seq<Step>, id: CallId)
    requires Late(Run(owner, steps), id)
    ensures var s := Run(owner, steps);
            var c := s.calls[id];
            if c.pc.StartSwapping?
            then Run(owner, steps + [Advance(id, true)] + [Advance(id, true)]) ==
                 Released(s, owner(c.test), true).(calls := s.calls[id := c.(pc := Returned)])
            else Run(owner, steps + [Advance(id, true)]) == s.(calls := s.calls[id := c.(pc := Returned)])
  {
    var s := Run(owner, steps);
    RunSnoc(owner, steps, Advance(id, true));
    if s.calls[id].pc.StartSwapping? {
      RunSnoc(owner, steps + [Advance(id, true)], Advance(id, true));
      Again(s, id, StartReleasing(false), Returned);
    }
  }

  predicate NoErrors(oks: seq<bool>) {
    forall k :: 0 <= k < |oks| ==> oks[k]
  }

  /** These rows, these locks, and this much more on the topic and in the history of changes. */
  predicate Becomes(s: State, r: State, rows: map<TestId, Status>, locks: map<Contestant, TestId>, sent: seq<Message>,
                    changes: seq<Commit>)
  {
    r.rows == rows && r.locks == locks && r.topic == s.topic + sent && r.commits == s.commits + changes
  }

  /** StartTest with every operation working: a pending test of a contestant whose lock is free starts, and nothing
      else changes anything. */
  lemma StartWorks(owner: TestId -> Contestant, steps: seq<Step>, id: CallId, i: Instance, t: TestId, oks: seq<bool>)
    requires id !in Run(owner, steps).calls && |oks| >= 10 && NoErrors(oks)
    requires owner(t) != ""
    ensures var s, r := Run(owner, steps), Run(owner, steps + [Begin(id, i, Start, t)] + Advances(id, oks));
            if owner(t) !in s.locks && t in s.rows && s.rows[t] == Pending
            then Becomes(s, r, s.rows[t := Running], s.locks[owner(t) := t], [Message(t, Running)],
                         [Commit(t, Pending, Running)])
            else Becomes(s, r, s.rows, s.locks, [], [])
  {
    var s := Run(owner, steps);
    BegunAlone(owner, steps, id, i, Start, t, oks);
    RunKeeps(owner, steps);
    assert TestOk(owner, s, t);
    assert owner(t) !in s.locks ==> s.locks[owner(t) := t] - {owner(t)} == s.locks;
    assert s.topic + [] == s.topic && s.commits + [] == s.commits;
  }

  /** StopTest: a running test stops and completes, and its lock is freed if anyone can tell whose it is; nothing
      happens to any other. */
  lemma StopWorks(owner: TestId -> Contestant, steps: seq<Step>, id: CallId, i: Instance, t: TestId, oks: seq<bool>)
    requires id !in Run(owner, steps).calls && |oks| >= 10 && NoErrors(oks)
    ensures var s, r := Run(owner, steps), Run(owner, steps + [Begin(id, i, Stop, t)] + Advances(id, oks));
            if t in s.rows && s.rows[t] == Running
            then Becomes(s, r, s.rows[t := Completed],
                         if owner(t) != "" && ((i, t) in s.active || t in s.recorded) then s.locks - {owner(t)}
                         else s.locks,
                         [Message(t, Stopping)], [Commit(t, Running, Stopping), Commit(t, Stopping, Completed)])
            else Becomes(s, r, s.rows, s.locks, [], [])
  {
    var s := Run(owner, steps);
    BegunAlone(owner, steps, id, i, Stop, t, oks);
    var a, b := Commit(t, Running, Stopping), Commit(t, Stopping, Completed);
    assert s.commits + [a] + [b] == s.commits + [a, b];
    assert s.rows[t := Stopping][t := Completed] == s.rows[t := Completed];
    assert s.topic + [] == s.topic && s.commits + [] == s.commits;
  }

  /** FailTest: a test that is not over fails, and so on. */
  lemma FailWorks(owner: TestId -> Contestant, steps: seq<Step>, id: CallId, i: Instance, t: TestId, oks: seq<bool>)
    requires id !in Run(owner, steps).calls && |oks| >= 10 && NoErrors(oks)
    ensures var s, r := Run(owner, steps), Run(owner, steps + [Begin(id, i, Fail, t)] + Advances(id, oks));
            if t in s.rows && s.rows[t] in {Pending, Running, Stopping}
            then Becomes(s, r, s.rows[t := Failed],
                         if owner(t) != "" && ((i, t) in s.active || t in s.recorded) then s.locks - {owner(t)}
                         else s.locks,
                         [Message(t, Failed)], [Commit(t, s.rows[t], Failed)])
            else Becomes(s, r, s.rows, s.locks, [], [])
  {
    var s := Run(owner, steps);
    BegunAlone(owner, steps, id, i, Fail, t, oks);
    assert s.topic + [] == s.topic && s.commits + [] == s.commits;
  }

  /** Recovery: a running test that an instance finds orphaned and takes over is stopped by its new timer, completes,
      and frees its contestant. */
  lemma RecoveredTestEnds(owner: TestId -> Contestant, steps: seq<Step>, id: CallId, i: Instance, t: TestId,
                          oks: seq<bool>)
    requires var s := Run(owner, steps); id !in s.calls && t in s.rows && s.rows[t] == Running
    requires |oks| >= 10 && NoErrors(oks) && owner(t) != ""
    ensures var s := Run(owner, steps);
            var found := steps + [FindOrphan(i, t)] + [Reclaim(i, t)];
            var r := Run(owner, found + [Begin(id, i, Stop, t)] + Advances(id, oks));
            r.rows == s.rows[t := Completed] && r.locks == s.locks - {owner(t)}
  {
    var found := steps + [FindOrphan(i, t)];
    RunSnoc(owner, steps, FindOrphan(i, t));
    RunSnoc(owner, found, Reclaim(i, t));
    StopWorks(owner, found + [Reclaim(i, t)], id, i, t, oks);
  }

  /** An event somebody publishes is acted on once its turn has come. */
  lemma PublishedIsActedOn(owner: TestId -> Contestant, steps: seq<Step>, m: Message, id: CallId, i: Instance,
                           oks: seq<bool>)
    requires var s := Run(owner, steps); id !in s.calls && s.consumed == |s.topic|
    requires |oks| >= 10
    ensures var s := Run(owner, steps + [Inject(m)]);
            && s == Run(owner, steps).(topic := Run(owner, steps).topic + [m])
            && Left(s, id, Run(owner, steps + [Inject(m)] + [Consume(id, i)] + Advances(id, oks)),
                    Outcome(owner, s, if m.cause == Running then Start else Stop, i, m.test, oks))
  {
    RunSnoc(owner, steps, Inject(m));
    ConsumedAlone(owner, steps + [Inject(m)], id, i, oks);
  }

  /** A lock that nobody is left to release blocks its contestant only until its TTL runs out: then the next pending
      test starts. */
  lemma ExpiryUnblocks(owner: TestId -> Contestant, steps: seq<Step>, t: TestId, u: TestId, id: CallId, i: Instance,
                       oks: seq<bool>)
    requires var s := Run(owner, steps);
             && owner(u) != "" && owner(u) in s.locks && s.locks[owner(u)] == t
             && t in s.rows && s.rows[t] in {Completed, Failed}
             && (forall j :: j in s.calls ==> s.calls[j].test != t)
             && id !in s.calls && u in s.rows && s.rows[u] == Pending
    requires |oks| >= 10 && NoErrors(oks)
    ensures var s := Run(owner, steps);
            var r := Run(owner, steps + [Expire(owner(u))] + [Begin(id, i, Start, u)] + Advances(id, oks));
            r.rows == s.rows[u := Running] && r.locks == s.locks[owner(u) := u]
  {
    var s := Run(owner, steps);
    RunSnoc(owner, steps, Expire(owner(u)));
    StartWorks(owner, steps + [Expire(owner(u))], id, i, u, oks);
    assert (s.locks - {owner(u)})[owner(u) := u] == s.locks[owner(u) := u];
  }

  /** A crash takes an instance's calls, running tests and findings with it, and nothing that is shared. */
  lemma CrashForgets(owner: TestId -> Contestant, steps: seq<Step>, i: Instance, j: CallId, p: (Instance, TestId))
    ensures var s, r := Run(owner, steps), Run(owner, steps + [Crash(i)]);
            && r == s.(calls := r.calls, active := r.active, orphans := r.orphans)
            && (j in r.calls <==> j in s.calls && s.calls[j].instance != i)
            && (j in r.calls ==> r.calls[j] == s.calls[j])
            && (p in r.active <==> p in s.active && p.0 != i) && (p in r.orphans <==> p in s.orphans && p.0 != i)
  {
    RunSnoc(owner, steps, Crash(i));
  }
}
