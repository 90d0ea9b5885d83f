/** Runs of the orchestrators that show where their guarantees end. */
module Scenarios {
  import opened Orchestrator
  import opened Alone
  import opened Echoes

  function Works(n: nat): (oks: seq<bool>)
    ensures |oks| == n && forall k :: 0 <= k < n ==> oks[k]
  {
    seq(n, _ => true)
  }

  predicate AllWork(oks: seq<bool>, n: nat) {
    |oks| == n && forall k :: 0 <= k < n ==> oks[k]
  }

  /** From s to r one call has come to this point, the rows and locks are these, and this was published. */
  predicate Came(s: State, r: State, id: CallId, pc: Pc, rows: map<TestId, Status>, locks: map<Contestant, TestId>,
                 sent: seq<Message>)
  {
    && id in s.calls && r.calls == s.calls[id := s.calls[id].(pc := pc)]
    && r.rows == rows && r.locks == locks
    && r.topic == s.topic + sent && r.published == s.published + sent && r.consumed == s.consumed
  }

  lemma CameOn(s: State, m: State, r: State, id: CallId, p: Pc, q: Pc, rows: map<TestId, Status>,
               locks: map<Contestant, TestId>, a: seq<Message>, b: seq<Message>)
    requires Came(s, m, id, p, m.rows, m.locks, a) && Came(m, r, id, q, rows, locks, b)
    ensures Came(s, r, id, q, rows, locks, a + b)
  {
    assert s.calls[id := s.calls[id].(pc := p)][id := s.calls[id].(pc := q)] == s.calls[id := s.calls[id].(pc := q)];
    assert (s.topic + a) + b == s.topic + (a + b);
    assert (s.published + a) + b == s.published + (a + b);
  }

  lemma LastOne(owner: TestId -> Contestant, s: State, id: CallId, oks: seq<bool>, r: State)
    requires id in s.calls && |oks| == 1 && AloneTo(owner, s, id, oks, r)
    ensures r == Operate(owner, s, id, oks[0])
  {
    assert oks[1..] == [];
  }

  lemma WorksSplits(a: nat, b: nat)
    ensures Works(a) + Works(b) == Works(a + b)
  {
  }

  // ----- a test that starts -----

  lemma Registers(owner: TestId -> Contestant, s: State, id: CallId, oks: seq<bool>, r: State)
    requires id in s.calls && s.calls[id].pc.StartRegistering? && AllWork(oks, 1) && AloneTo(owner, s, id, oks, r)
    ensures Came(s, r, id, Returned, s.rows, s.locks, [])
    ensures (s.calls[id].instance, s.calls[id].test) in r.active
  {
    LastOne(owner, s, id, oks, r);
  }

  lemma Announces(owner: TestId -> Contestant, s: State, id: CallId, oks: seq<bool>, r: State)
    requires id in s.calls && s.calls[id].pc.StartPublishing? && AllWork(oks, 2) && AloneTo(owner, s, id, oks, r)
    ensures Came(s, r, id, Returned, s.rows, s.locks, [Message(s.calls[id].test, Running)])
    ensures (s.calls[id].instance, s.calls[id].test) in r.active
  {
    var m, sent := Operate(owner, s, id, oks[0]), [Message(s.calls[id].test, Running)];
    Registers(owner, m, id, oks[1..], r);
    assert Came(s, m, id, StartRegistering, s.rows, s.locks, sent);
    CameOn(s, m, r, id, StartRegistering, Returned, s.rows, s.locks, sent, []);
    assert sent + [] == sent;
  }

  lemma Records(owner: TestId -> Contestant, s: State, id: CallId, oks: seq<bool>, r: State)
    requires id in s.calls && s.calls[id].pc.StartRecording? && AllWork(oks, 3) && AloneTo(owner, s, id, oks, r)
    ensures Came(s, r, id, Returned, s.rows, s.locks, [Message(s.calls[id].test, Running)])
    ensures (s.calls[id].instance, s.calls[id].test) in r.active
  {
    var m, sent := Operate(owner, s, id, oks[0]), [Message(s.calls[id].test, Running)];
    Announces(owner, m, id, oks[1..], r);
    assert Came(s, m, id, StartPublishing, s.rows, s.locks, []);
    CameOn(s, m, r, id, StartPublishing, Returned, s.rows, s.locks, [], sent);
    assert [] + sent == sent;
  }

  /** The first three operations of StartTest, when nothing is in the way. */
  lemma Claims(owner: TestId -> Contestant, s: State, id: CallId, oks: seq<bool>, r: State)
    requires id in s.calls && s.calls[id].pc.Locking? && AllWork(oks, 3) && AloneTo(owner, s, id, oks, r)
    requires var t := s.calls[id].test; t in s.rows && s.rows[t] == Pending && owner(t) !in s.locks
    ensures var t := s.calls[id].test;
            Came(s, r, id, StartRecording, s.rows[t := Running], s.locks[owner(t) := t], [])
  {
    var t := s.calls[id].test;
    var s1 := Operate(owner, s, id, oks[0]);
    assert Came(s, s1, id, StartReading, s.rows, s.locks[owner(t) := t], []);
    ClaimsRest(owner, s1, id, oks[1..], r);
    CameOn(s, s1, r, id, StartReading, StartRecording, s.rows[t := Running], s.locks[owner(t) := t], [], []);
  }

  lemma ClaimsRest(owner: TestId -> Contestant, s: State, id: CallId, oks: seq<bool>, r: State)
    requires id in s.calls && s.calls[id].pc.StartReading? && AllWork(oks, 2) && AloneTo(owner, s, id, oks, r)
    requires var t := s.calls[id].test; t in s.rows && s.rows[t] == Pending
    ensures Came(s, r, id, StartRecording, s.rows[s.calls[id].test := Running], s.locks, [])
  {
    var t := s.calls[id].test;
    var s1 := Operate(owner, s, id, oks[0]);
    assert Came(s, s1, id, StartSwapping(Pending), s.rows, s.locks, []);
    LastOne(owner, s1, id, oks[1..], r);
    assert Came(s1, r, id, StartRecording, s.rows[t := Running], s.locks, []);
    CameOn(s, s1, r, id, StartSwapping(Pending), StartRecording, s.rows[t := Running], s.locks, [], []);
  }

  lemma {:induction false} AloneSplits(owner: TestId -> Contestant, s: State, id: CallId, a: seq<bool>, b: seq<bool>,
                                       r: State) returns (m: State)
    requires AloneTo(owner, s, id, a + b, r)
    ensures AloneTo(owner, s, id, a, m) && AloneTo(owner, m, id, b, r)
    decreases |a|
  {
    if a == [] {
      assert a + b == b;
      m := s;
    } else {
      assert (a + b)[1..] == a[1..] + b;
      m := AloneSplits(owner, Operate(owner, s, id, a[0]), id, a[1..], b, r);
    }
  }

  /** A whole StartTest when nothing is in the way. */
  lemma Starts(owner: TestId -> Contestant, s: State, id: CallId, r: State)
    requires id in s.calls && s.calls[id].pc.Locking? && AloneTo(owner, s, id, Works(6), r)
    requires var t := s.calls[id].test; t in s.rows && s.rows[t] == Pending && owner(t) !in s.locks
    ensures var t := s.calls[id].test;
            && Came(s, r, id, Returned, s.rows[t := Running], s.locks[owner(t) := t], [Message(t, Running)])
            && (s.calls[id].instance, t) in r.active
  {
    var t, sent := s.calls[id].test, [Message(s.calls[id].test, Running)];
    WorksSplits(3, 3);
    var m := AloneSplits(owner, s, id, Works(3), Works(3), r);
    Claims(owner, s, id, Works(3), m);
    Records(owner, m, id, Works(3), r);
    CameOn(s, m, r, id, StartRecording, Returned, s.rows[t := Running], s.locks[owner(t) := t], [], sent);
    assert [] + sent == sent;
  }

  // ----- a test that stops -----

  /** StopTest up to the point where it knows its contestant. */
  lemma Halts(owner: TestId -> Contestant, s: State, id: CallId, oks: seq<bool>, r: State)
    requires id in s.calls && s.calls[id].pc.StopReading? && AllWork(oks, 3) && AloneTo(owner, s, id, oks, r)
    requires var t := s.calls[id].test; t in s.rows && s.rows[t] == Running && (s.calls[id].instance, t) in s.active
    ensures var t := s.calls[id].test;
            Came(s, r, id, StopPublishing(owner(t)), s.rows[t := Stopping], s.locks, [])
  {
    var t := s.calls[id].test;
    var s1 := Operate(owner, s, id, oks[0]);
    assert Came(s, s1, id, StopSwapping(Running), s.rows, s.locks, []);
    var s2 := Operate(owner, s1, id, oks[1]);
    assert Came(s1, s2, id, StopNaming, s.rows[t := Stopping], s.locks, []);
    assert AloneTo(owner, s1, id, oks[1..], r);
    assert oks[1..][0] == oks[1] && AloneTo(owner, s2, id, oks[1..][1..], r);
    LastOne(owner, s2, id, oks[1..][1..], r);
    assert Came(s2, r, id, StopPublishing(owner(t)), s.rows[t := Stopping], s.locks, []);
    CameOn(s, s1, s2, id, StopSwapping(Running), StopNaming, s.rows[t := Stopping], s.locks, [], []);
    CameOn(s, s2, r, id, StopNaming, StopPublishing(owner(t)), s.rows[t := Stopping], s.locks, [], []);
  }

  /** The rest of it, up to the pending delete of the lock. */
  lemma Completes(owner: TestId -> Contestant, s: State, id: CallId, c: Contestant, oks: seq<bool>, r: State)
    requires id in s.calls && s.calls[id].pc == StopPublishing(c) && AllWork(oks, 4) && AloneTo(owner, s, id, oks, r)
    requires var t := s.calls[id].test; t in s.rows && s.rows[t] == Stopping
    ensures var t := s.calls[id].test;
            Came(s, r, id, Releasing(c), s.rows[t := Completed], s.locks, [Message(t, Stopping)])
  {
    var t, sent := s.calls[id].test, [Message(s.calls[id].test, Stopping)];
    var s1 := Operate(owner, s, id, oks[0]);
    assert Came(s, s1, id, CompleteReading(c), s.rows, s.locks, sent);
    var s2 := Operate(owner, s1, id, oks[1]);
    assert Came(s1, s2, id, CompleteSwapping(c, Stopping), s.rows, s.locks, []);
    assert AloneTo(owner, s1, id, oks[1..], r);
    assert oks[1..][0] == oks[1] && AloneTo(owner, s2, id, oks[1..][1..], r);
    Finishes(owner, s2, id, c, oks[1..][1..], r);
    CameOn(s, s1, s2, id, CompleteReading(c), CompleteSwapping(c, Stopping), s.rows, s.locks, sent, []);
    CameOn(s, s2, r, id, CompleteSwapping(c, Stopping), Releasing(c), s.rows[t := Completed], s.locks, sent + [], []);
    assert sent + [] + [] == sent;
  }

  lemma Finishes(owner: TestId -> Contestant, s: State, id: CallId, c: Contestant, oks: seq<bool>, r: State)
    requires id in s.calls && s.calls[id].pc == CompleteSwapping(c, Stopping) && AllWork(oks, 2)
    requires AloneTo(owner, s, id, oks, r)
    requires var t := s.calls[id].test; t in s.rows && s.rows[t] == Stopping
    ensures Came(s, r, id, Releasing(c), s.rows[s.calls[id].test := Completed], s.locks, [])
  {
    var t := s.calls[id].test;
    var s1 := Operate(owner, s, id, oks[0]);
    assert Came(s, s1, id, Finishing(c), s.rows[t := Completed], s.locks, []);
    LastOne(owner, s1, id, oks[1..], r);
    assert Came(s1, r, id, Releasing(c), s.rows[t := Completed], s.locks, []);
    CameOn(s, s1, r, id, Finishing(c), Releasing(c), s.rows[t := Completed], s.locks, [], []);
  }

  lemma Stops(owner: TestId -> Contestant, s: State, id: CallId, a: seq<bool>, b: seq<bool>, r: State)
    requires id in s.calls && s.calls[id].pc.StopReading? && AllWork(a, 3) && AllWork(b, 4)
    requires AloneTo(owner, s, id, a + b, r)
    requires var t := s.calls[id].test; t in s.rows && s.rows[t] == Running && (s.calls[id].instance, t) in s.active
    ensures var t := s.calls[id].test;
            Came(s, r, id, Releasing(owner(t)), s.rows[t := Completed], s.locks, [Message(t, Stopping)])
  {
    var m := AloneSplits(owner, s, id, a, b, r);
    Halts(owner, s, id, a, m);
    StopsRest(owner, s, m, id, s.calls[id].test, b, r);
  }

  lemma StopsRest(owner: TestId -> Contestant, s: State, m: State, id: CallId, t: TestId, b: seq<bool>, r: State)
    requires id in s.calls && s.calls[id].test == t && t in s.rows
    requires Came(s, m, id, StopPublishing(owner(t)), s.rows[t := Stopping], s.locks, [])
    requires AllWork(b, 4) && AloneTo(owner, m, id, b, r)
    ensures Came(s, r, id, Releasing(owner(t)), s.rows[t := Completed], s.locks, [Message(t, Stopping)])
  {
    var c, sent := owner(t), [Message(t, Stopping)];
    Completes(owner, m, id, c, b, r);
    CameOn(s, m, r, id, StopPublishing(c), Releasing(c), r.rows, r.locks, [], sent);
    assert r.rows == s.rows[t := Completed] && [] + sent == sent;
  }

  // ----- an echo that ends a running test -----

  /** A test is submitted and started, and the START_TEST its instance published comes back. */
  function EchoSteps(t: TestId, i: Instance): seq<Step> {
    [CreateRow(t), Begin(0, i, Start, t)] + Advances(0, Works(6)) + [Consume(1, i)]
  }

  /** Such a run exists, for every test: with the lock call failing on the echo, the running test is failed. */
  lemma EchoEndsRunningTest(owner: TestId -> Contestant, t: TestId, i: Instance)
    ensures var s := Run(owner, EchoSteps(t, i));
            && 1 in s.calls && s.calls[1].echo && s.calls[1].pc.Locking? && t in s.rows && s.rows[t] == Running
            && Ends(Run(owner, EchoSteps(t, i) + Advances(1, [false] + Works(9))), 1, s.rows[t := Failed])
  {
    var begun := [CreateRow(t), Begin(0, i, Start, t)];
    var s := Run(owner, begun);
    Begun(owner, t, i);
    var r := Run(owner, begun + Advances(0, Works(6)));
    RunThenFrom(owner, begun, Advances(0, Works(6)));
    AdvancesAlone(owner, s, 0, Works(6));
    Starts(owner, s, 0, r);
    OwnEventsAreEchoes(owner, begun + Advances(0, Works(6)), 1, i);
    EchoExactly(owner, EchoSteps(t, i), 1, [false] + Works(9));
  }

  lemma Begun(owner: TestId -> Contestant, t: TestId, i: Instance)
    ensures var s := Run(owner, [CreateRow(t), Begin(0, i, Start, t)]);
            && s.rows == map[t := Pending] && s.locks == map[] && s.topic == [] == s.published && s.consumed == 0
            && s.calls == map[0 := Call(i, t, Locking, false, false)]
  {
    assert [CreateRow(t)] + [Begin(0, i, Start, t)] == [CreateRow(t), Begin(0, i, Start, t)];
    RunSnoc(owner, [CreateRow(t)], Begin(0, i, Start, t));
    assert [CreateRow(t)] == [] + [CreateRow(t)];
    RunSnoc(owner, [], CreateRow(t));
  }

  // ----- a lock that expires under a pending delete -----

  /** Two tests of one contestant are submitted; the first is started and stopped, up to its delete. */
  function PendingDelete(t: TestId, u: TestId, i: Instance): seq<Step> {
    [CreateRow(t), Begin(0, i, Start, t)] + Advances(0, Works(6)) + [Begin(1, i, Stop, t)] + Advances(1, Works(7))
    + [CreateRow(u), Begin(2, i, Start, u)]
  }

  /** Why a lock must not run out while a call still has it to release: if it does, the second test takes the
      lock and starts, and the first one's delete frees it under the running test. */
  lemma ExpiryUnderDelete(owner: TestId -> Contestant, t: TestId, u: TestId, i: Instance)
    requires t != u && owner(t) == owner(u) != ""
    ensures var s, c := Run(owner, PendingDelete(t, u, i)), owner(t);
            && HasLock(owner, s, t) && t in s.rows && !Live(s.rows[t]) && !MayExpire(s, c)
            && var r := RunFrom(owner, s.(locks := s.locks - {c}), Advances(2, Works(3)) + [Advance(1, true)]);
               u in r.rows && r.rows[u] == Running && c !in r.locks
  {
    var begun := [CreateRow(t), Begin(0, i, Start, t)];
    Begun(owner, t, i);
    FirstStarted(owner, begun, t, i);
    FirstStopped(owner, begun + Advances(0, Works(6)), t, i);
    SecondBegun(owner, begun + Advances(0, Works(6)) + [Begin(1, i, Stop, t)] + Advances(1, Works(7)), t, u, i);
    FreedUnderTest(owner, Run(owner, PendingDelete(t, u, i)), t, u);
  }

  lemma FirstStarted(owner: TestId -> Contestant, steps: seq<Step>, t: TestId, i: Instance)
    requires var s := Run(owner, steps);
             && s.rows == map[t := Pending] && s.locks == map[]
             && s.calls == map[0 := Call(i, t, Locking, false, false)]
    ensures var r := Run(owner, steps + Advances(0, Works(6)));
            && r.rows == map[t := Running] && r.locks == map[owner(t) := t] && (i, t) in r.active && 1 !in r.calls
            && 2 !in r.calls
  {
    RunThenFrom(owner, steps, Advances(0, Works(6)));
    AdvancesAlone(owner, Run(owner, steps), 0, Works(6));
    Starts(owner, Run(owner, steps), 0, Run(owner, steps + Advances(0, Works(6))));
  }

  lemma FirstStopped(owner: TestId -> Contestant, steps: seq<Step>, t: TestId, i: Instance)
    requires var s := Run(owner, steps);
             && s.rows == map[t := Running] && s.locks == map[owner(t) := t] && (i, t) in s.active && 1 !in s.calls
             && 2 !in s.calls
    ensures var r := Run(owner, steps + [Begin(1, i, Stop, t)] + Advances(1, Works(7)));
            && r.rows == map[t := Completed] && r.locks == map[owner(t) := t]
            && 1 in r.calls && r.calls[1].test == t && r.calls[1].pc == Releasing(owner(t)) && 2 !in r.calls
  {
    var d, r := steps + [Begin(1, i, Stop, t)], Run(owner, steps + [Begin(1, i, Stop, t)] + Advances(1, Works(7)));
    assert AloneTo(owner, Run(owner, d), 1, Works(7), r) by {
      RunSnoc(owner, steps, Begin(1, i, Stop, t));
      RunThenFrom(owner, d, Advances(1, Works(7)));
      AdvancesAlone(owner, Run(owner, d), 1, Works(7));
    }
    RunSnoc(owner, steps, Begin(1, i, Stop, t));
    StopsFirst(owner, Run(owner, d), t, i, r);
  }

  lemma StopsFirst(owner: TestId -> Contestant, s: State, t: TestId, i: Instance, r: State)
    requires s.rows == map[t := Running] && s.locks == map[owner(t) := t] && (i, t) in s.active && 2 !in s.calls
    requires 1 in s.calls && s.calls[1].instance == i && s.calls[1].test == t && s.calls[1].pc == StopReading
    requires AloneTo(owner, s, 1, Works(7), r)
    ensures r.rows == map[t := Completed] && r.locks == map[owner(t) := t]
    ensures 1 in r.calls && r.calls[1].test == t && r.calls[1].pc == Releasing(owner(t)) && 2 !in r.calls
  {
    WorksSplits(3, 4);
    Stops(owner, s, 1, Works(3), Works(4), r);
  }

  lemma SecondBegun(owner: TestId -> Contestant, e: seq<Step>, t: TestId, u: TestId, i: Instance)
    requires var s := Run(owner, e);
             && t != u && s.rows == map[t := Completed] && s.locks == map[owner(t) := t]
             && 1 in s.calls && s.calls[1].test == t && s.calls[1].pc == Releasing(owner(t)) && 2 !in s.calls
    ensures var s := Run(owner, e + [CreateRow(u), Begin(2, i, Start, u)]);
            && s.rows == map[t := Completed, u := Pending] && s.locks == map[owner(t) := t]
            && 1 in s.calls && s.calls[1].test == t && s.calls[1].pc == Releasing(owner(t))
            && 2 in s.calls && s.calls[2].test == u && s.calls[2].pc == Locking
  {
    assert e + [CreateRow(u), Begin(2, i, Start, u)] == e + [CreateRow(u)] + [Begin(2, i, Start, u)];
    RunSnoc(owner, e + [CreateRow(u)], Begin(2, i, Start, u));
    RunSnoc(owner, e, CreateRow(u));
  }

  lemma FreedUnderTest(owner: TestId -> Contestant, s: State, t: TestId, u: TestId)
    requires t != u && owner(t) == owner(u) != ""
    requires s.rows == map[t := Completed, u := Pending] && s.locks == map[owner(t) := t]
    requires 1 in s.calls && s.calls[1].test == t && s.calls[1].pc == Releasing(owner(t))
    requires 2 in s.calls && s.calls[2].test == u && s.calls[2].pc == Locking
    ensures var r := RunFrom(owner, s.(locks := s.locks - {owner(t)}), Advances(2, Works(3)) + [Advance(1, true)]);
            u in r.rows && r.rows[u] == Running && owner(t) !in r.locks
  {
    var s' := s.(locks := s.locks - {owner(t)});
    var m := RunFrom(owner, s', Advances(2, Works(3)));
    AdvancesAlone(owner, s', 2, Works(3));
    Claims(owner, s', 2, Works(3), m);
    RunFromAppend(owner, s', Advances(2, Works(3)), [Advance(1, true)]);
    assert [Advance(1, true)][1..] == [];
    assert RunFrom(owner, m, [Advance(1, true)]) == Operate(owner, m, 1, true);
  }
}
