/** Every step of every instance keeps the orchestrators' invariant, and so no contestant ever has two live
    tests, and no lock is deleted but its own test's. */
module Exclusion {
  import opened Orchestrator

  /** Whether a plan leaves rows and locks alone and makes its call neither holding nor ending. */
  predicate Quiet(c: Call, plan: Plan) {
    var c' := c.(pc := plan.pc);
    && !plan.effect.Take? && !plan.effect.Free? && !plan.effect.Swap?
    && (Holding(c') ==> Holding(c)) && (Ending(c') ==> Ending(c) && c'.pc.named == c.pc.named)
  }

  lemma QuietStep(owner: TestId -> Contestant, s: State, id: CallId, plan: Plan)
    requires Inv(owner, s) && id in s.calls && Quiet(s.calls[id], plan)
    requires CallOk(owner, Do(s, id, plan), id)
    requires plan.effect.Record? || plan.effect.Enlist? ==> Reached(s, s.calls[id].test, 1)
    ensures Inv(owner, Do(s, id, plan))
  {
    var s', c := Do(s, id, plan), s.calls[id];
    var s1 := s.(calls := s'.calls);
    assert s'.calls == s.calls[id := c.(pc := plan.pc, fault := s'.calls[id].fault)];
    MoveStep(owner, s, id, plan.pc, s'.calls[id].fault);
    SameButSets(owner, s1, s', (c.instance, c.test));
  }

  lemma MoveStep(owner: TestId -> Contestant, s: State, id: CallId, pc: Pc, fault: bool)
    requires Inv(owner, s) && id in s.calls && Quiet(s.calls[id], Plan(pc, Nothing))
    requires CallOk(owner, s.(calls := s.calls[id := s.calls[id].(pc := pc, fault := fault)]), id)
    ensures Inv(owner, s.(calls := s.calls[id := s.calls[id].(pc := pc, fault := fault)]))
  {
    var s' := s.(calls := s.calls[id := s.calls[id].(pc := pc, fault := fault)]);
    forall j ensures CallOk(owner, s', j) { assert CallOk(owner, s, j); }
    forall i, j ensures PairOk(s', i, j) { assert PairOk(s, i, j); }
    forall t ensures TestOk(owner, s', t) { assert TestOk(owner, s, t); }
    forall p ensures ActiveOk(s', p) { assert ActiveOk(s, p); }
  }

  /** Recording or enlisting a test that has started. */
  lemma SameButSets(owner: TestId -> Contestant, s: State, s': State, q: (Instance, TestId))
    requires Inv(owner, s)
    requires s'.rows == s.rows && s'.locks == s.locks && s'.calls == s.calls
    requires s'.recorded <= s.recorded + {q.1} && s'.active <= s.active + {q} && s'.orphans == s.orphans
    requires (s'.recorded <= s.recorded && s'.active <= s.active) || Reached(s, q.1, 1)
    ensures Inv(owner, s')
  {
    forall j ensures CallOk(owner, s', j) { assert CallOk(owner, s, j); }
    forall i, j ensures PairOk(s', i, j) { assert PairOk(s, i, j); }
    forall t ensures TestOk(owner, s', t) { assert TestOk(owner, s, t); }
    forall p ensures ActiveOk(s', p) { assert ActiveOk(s, p); }
  }

  /** Taking a free lock. */
  lemma LockStep(owner: TestId -> Contestant, s: State, id: CallId)
    requires Inv(owner, s) && id in s.calls && s.calls[id].pc.Locking? && owner(s.calls[id].test) !in s.locks
    ensures Inv(owner, Operate(owner, s, id, true))
  {
    var s', t := Operate(owner, s, id, true), s.calls[id].test;
    assert TestOk(owner, s, t);
    forall j ensures CallOk(owner, s', j) { assert CallOk(owner, s, j); }
    forall i, j ensures PairOk(s', i, j) {
      assert PairOk(s, i, j) && CallOk(owner, s, i) && CallOk(owner, s, j);
    }
    forall u ensures TestOk(owner, s', u) { assert TestOk(owner, s, u); }
    forall p ensures ActiveOk(s', p) { assert ActiveOk(s, p); }
  }

  /** Whether a call needs the lock its test's contestant has. */
  predicate Needs(c: Call, t: TestId) {
    c.test == t && (Holding(c) || (Ending(c) && c.pc.named != ""))
  }

  /** A lock may go once its test is not live and no call needs it. */
  lemma FreeLock(owner: TestId -> Contestant, s: State, contestant: Contestant)
    requires Inv(owner, s)
    requires contestant in s.locks ==>
               var t := s.locks[contestant];
               (t in s.rows ==> !Live(s.rows[t])) && forall id :: id in s.calls ==> !Needs(s.calls[id], t)
    ensures Inv(owner, s.(locks := s.locks - {contestant}))
  {
    var s' := s.(locks := s.locks - {contestant});
    forall j ensures CallOk(owner, s', j) { assert CallOk(owner, s, j); }
    forall i, j ensures PairOk(s', i, j) { assert PairOk(s, i, j); }
    forall u ensures TestOk(owner, s', u) { assert TestOk(owner, s, u); }
    forall p ensures ActiveOk(s', p) { assert ActiveOk(s, p); }
  }

  /** The lock a releasing call deletes is its own test's, and nobody else needs it. */
  lemma OwnLock(owner: TestId -> Contestant, s: State, id: CallId)
    requires Inv(owner, s) && id in s.calls
    requires s.calls[id].pc.StartReleasing? || (s.calls[id].pc.Releasing? && s.calls[id].pc.named != "")
    ensures var t := s.calls[id].test;
            && HasLock(owner, s, t) && (t in s.rows ==> !Live(s.rows[t]))
            && (s.calls[id].pc.Releasing? ==> s.calls[id].pc.named == owner(t))
            && forall j :: j in s.calls && j != id ==> !Needs(s.calls[j], t)
  {
    assert CallOk(owner, s, id);
    forall j | j in s.calls && j != id ensures !Needs(s.calls[j], s.calls[id].test) {
      assert PairOk(s, id, j) && PairOk(s, j, id);
    }
  }

  /** Moving a call out of its hold, and deleting the lock if it has a name for it. */
  lemma UnlockStep(owner: TestId -> Contestant, s: State, id: CallId, ok: bool)
    requires Inv(owner, s) && id in s.calls && (s.calls[id].pc.StartReleasing? || s.calls[id].pc.Releasing?)
    ensures Inv(owner, Operate(owner, s, id, ok))
  {
    var c := s.calls[id];
    var plan := PlanOf(owner, s, c, ok);
    var s1 := Do(s, id, plan.(effect := Nothing));
    QuietStep(owner, s, id, plan.(effect := Nothing));
    if plan.effect.Free? {
      OwnLock(owner, s, id);
      FreeLock(owner, s1, plan.effect.contestant);
    }
  }

  /** A committed change of status, always a legal one. */
  lemma CommitStep(owner: TestId -> Contestant, s: State, id: CallId, to: Status, pc: Pc)
    requires Inv(owner, s) && id in s.calls && s.calls[id].test in s.rows && Legal(s.rows[s.calls[id].test], to)
    requires (Holding(s.calls[id]) <==> to == Running) && !Ending(s.calls[id])
    requires var c' := s.calls[id].(pc := pc);
             && !Holding(c') && (Ending(c') ==> Rank(to) == 3 && NameOk(owner, s, c'.test, pc.named))
    requires CallOk(owner, Do(s, id, Plan(pc, Swap(to))), id)
    ensures Inv(owner, Do(s, id, Plan(pc, Swap(to))))
  {
    var s', t := Do(s, id, Plan(pc, Swap(to))), s.calls[id].test;
    assert CallOk(owner, s, id) && TestOk(owner, s, t);
    forall j ensures CallOk(owner, s', j) {
      assert CallOk(owner, s, j) && PairOk(s, id, j) && PairOk(s, j, id);
    }
    forall i, j ensures PairOk(s', i, j) {
      assert PairOk(s, i, j) && CallOk(owner, s, i) && CallOk(owner, s, j);
    }
    forall u ensures TestOk(owner, s', u) { assert TestOk(owner, s, u); }
    forall p ensures ActiveOk(s', p) { assert ActiveOk(s, p); }
  }

  lemma NameGood(owner: TestId -> Contestant, s: State, c: Call, ok: bool)
    requires Inv(owner, s)
    ensures NameOk(owner, s, c.test, NameOf(owner, s, c, ok))
  {
    assert TestOk(owner, s, c.test) && ActiveOk(s, (c.instance, c.test));
  }

  lemma StartSwapStep(owner: TestId -> Contestant, s: State, id: CallId, ok: bool)
    requires Inv(owner, s) && id in s.calls && s.calls[id].pc.StartSwapping?
    ensures Inv(owner, Operate(owner, s, id, ok))
  {
    var c := s.calls[id];
    assert CallOk(owner, s, id);
    if ok && c.test in s.rows && s.rows[c.test] == c.pc.seen {
      assert TestOk(owner, s, c.test);
      CommitStep(owner, s, id, Running, StartRecording);
    } else {
      QuietStep(owner, s, id, PlanOf(owner, s, s.calls[id], ok));
    }
  }

  lemma StopSwapStep(owner: TestId -> Contestant, s: State, id: CallId, ok: bool)
    requires Inv(owner, s) && id in s.calls && s.calls[id].pc.StopSwapping?
    ensures Inv(owner, Operate(owner, s, id, ok))
  {
    var c := s.calls[id];
    assert CallOk(owner, s, id);
    if ok && c.test in s.rows && s.rows[c.test] == c.pc.seen {
      assert TestOk(owner, s, c.test);
      CommitStep(owner, s, id, Stopping, StopNaming);
    } else {
      QuietStep(owner, s, id, PlanOf(owner, s, s.calls[id], ok));
    }
  }

  lemma CompleteSwapStep(owner: TestId -> Contestant, s: State, id: CallId, ok: bool)
    requires Inv(owner, s) && id in s.calls && s.calls[id].pc.CompleteSwapping?
    ensures Inv(owner, Operate(owner, s, id, ok))
  {
    var c := s.calls[id];
    assert CallOk(owner, s, id);
    if ok && c.test in s.rows && s.rows[c.test] == c.pc.seen {
      assert TestOk(owner, s, c.test);
      CommitStep(owner, s, id, Completed, Finishing(c.pc.named));
    } else {
      QuietStep(owner, s, id, PlanOf(owner, s, s.calls[id], ok));
    }
  }

  lemma FailSwapStep(owner: TestId -> Contestant, s: State, id: CallId, ok: bool)
    requires Inv(owner, s) && id in s.calls && s.calls[id].pc.FailSwapping?
    ensures Inv(owner, Operate(owner, s, id, ok))
  {
    var c := s.calls[id];
    assert CallOk(owner, s, id);
    if ok && c.test in s.rows && s.rows[c.test] == c.pc.seen {
      assert TestOk(owner, s, c.test);
      CommitStep(owner, s, id, Failed, FailPublishing(c.pc.named));
    } else {
      QuietStep(owner, s, id, PlanOf(owner, s, s.calls[id], ok));
    }
  }

  // The operations that change neither rows nor locks.

  lemma PlainStart(owner: TestId -> Contestant, s: State, id: CallId, ok: bool)
    requires Inv(owner, s) && id in s.calls
    requires var pc := s.calls[id].pc;
             pc.StartReading? || pc.StartRecording? || pc.StartPublishing? || pc.StartRegistering?
    ensures Inv(owner, Operate(owner, s, id, ok))
  {
    assert CallOk(owner, s, id);
    NameGood(owner, s, s.calls[id], ok);
    QuietStep(owner, s, id, PlanOf(owner, s, s.calls[id], ok));
  }

  lemma PlainStop(owner: TestId -> Contestant, s: State, id: CallId, ok: bool)
    requires Inv(owner, s) && id in s.calls
    requires var pc := s.calls[id].pc; pc.StopReading? || pc.StopNaming? || pc.StopPublishing? || pc.CompleteReading?
    ensures Inv(owner, Operate(owner, s, id, ok))
  {
    assert CallOk(owner, s, id);
    NameGood(owner, s, s.calls[id], ok);
    QuietStep(owner, s, id, PlanOf(owner, s, s.calls[id], ok));
  }

  lemma PlainFail(owner: TestId -> Contestant, s: State, id: CallId, ok: bool)
    requires Inv(owner, s) && id in s.calls
    requires var pc := s.calls[id].pc;
             pc.FailNaming? || pc.FailReading? || pc.FailPublishing? || pc.Finishing? || pc.Returned?
    ensures Inv(owner, Operate(owner, s, id, ok))
  {
    assert CallOk(owner, s, id);
    NameGood(owner, s, s.calls[id], ok);
    QuietStep(owner, s, id, PlanOf(owner, s, s.calls[id], ok));
  }

  lemma OperateKeeps(owner: TestId -> Contestant, s: State, id: CallId, ok: bool)
    requires Inv(owner, s) && id in s.calls
    ensures Inv(owner, Operate(owner, s, id, ok))
  {
    match s.calls[id].pc
    case Locking =>
      if ok && owner(s.calls[id].test) !in s.locks {
        LockStep(owner, s, id);
      } else {
        assert CallOk(owner, s, id);
        QuietStep(owner, s, id, PlanOf(owner, s, s.calls[id], ok));
      }
    case StartSwapping(_) => StartSwapStep(owner, s, id, ok);
    case StopSwapping(_) => StopSwapStep(owner, s, id, ok);
    case CompleteSwapping(_, _) => CompleteSwapStep(owner, s, id, ok);
    case FailSwapping(_, _) => FailSwapStep(owner, s, id, ok);
    case StartReleasing(_) => UnlockStep(owner, s, id, ok);
    case Releasing(_) => UnlockStep(owner, s, id, ok);
    case StartReading => PlainStart(owner, s, id, ok);
    case StartRecording => PlainStart(owner, s, id, ok);
    case StartPublishing => PlainStart(owner, s, id, ok);
    case StartRegistering => PlainStart(owner, s, id, ok);
    case StopReading => PlainStop(owner, s, id, ok);
    case StopNaming => PlainStop(owner, s, id, ok);
    case StopPublishing(_) => PlainStop(owner, s, id, ok);
    case CompleteReading(_) => PlainStop(owner, s, id, ok);
    case FailNaming => PlainFail(owner, s, id, ok);
    case FailReading(_) => PlainFail(owner, s, id, ok);
    case FailPublishing(_) => PlainFail(owner, s, id, ok);
    case Finishing(_) => PlainFail(owner, s, id, ok);
    case Returned => PlainFail(owner, s, id, ok);
  }

  lemma EnterKeeps(owner: TestId -> Contestant, s: State, id: CallId, instance: Instance, kind: Kind, test: TestId)
    requires Inv(owner, s) && id !in s.calls
    ensures Inv(owner, Enter(s, id, instance, kind, test))
  {
    var s' := Enter(s, id, instance, kind, test);
    forall j ensures CallOk(owner, s', j) { assert CallOk(owner, s, j); }
    forall i, j ensures PairOk(s', i, j) { assert PairOk(s, i, j); }
    forall u ensures TestOk(owner, s', u) { assert TestOk(owner, s, u); }
    forall p ensures ActiveOk(s', p) { assert ActiveOk(s, p); }
  }

  /** Every step of every instance keeps the invariant. */
  lemma NextKeeps(owner: TestId -> Contestant, s: State, step: Step)
    requires Inv(owner, s)
    ensures Inv(owner, Next(owner, s, step))
  {
    var s' := Next(owner, s, step);
    match step
    case Advance(id, ok) => if id in s.calls { OperateKeeps(owner, s, id, ok); }
    case Begin(id, instance, kind, t) => if id !in s.calls { EnterKeeps(owner, s, id, instance, kind, t); }
    case Consume(id, instance) =>
      if id !in s.calls && s.consumed < |s.topic| {
        var s1, m := s.(consumed := s.consumed + 1), s.topic[s.consumed];
        SameState(owner, s, s1);
        EnterKeeps(owner, s1, id, instance, if m.cause == Running then Start else Stop, m.test);
      }
    case Expire(c) => if MayExpire(s, c) { FreeLock(owner, s, c); }
    case Inject(m) => SameState(owner, s, s');
    case CreateRow(t) => RowKeeps(owner, s, t);
    case FindOrphan(_, _) => RecoveryKeeps(owner, s, step);
    case Reclaim(_, _) => RecoveryKeeps(owner, s, step);
    case Crash(i) => CrashKeeps(owner, s, i);
  }

  lemma RowKeeps(owner: TestId -> Contestant, s: State, t: TestId)
    requires Inv(owner, s)
    ensures Inv(owner, Next(owner, s, CreateRow(t)))
  {
    var s' := Next(owner, s, CreateRow(t));
    forall j ensures CallOk(owner, s', j) { assert CallOk(owner, s, j); }
    forall i, j ensures PairOk(s', i, j) { assert PairOk(s, i, j); }
    forall u ensures TestOk(owner, s', u) { assert TestOk(owner, s, u); }
    forall p ensures ActiveOk(s', p) { assert ActiveOk(s, p); }
  }

  lemma RecoveryKeeps(owner: TestId -> Contestant, s: State, step: Step)
    requires Inv(owner, s) && (step.FindOrphan? || step.Reclaim?)
    ensures Inv(owner, Next(owner, s, step))
  {
    var s' := Next(owner, s, step);
    forall j ensures CallOk(owner, s', j) { assert CallOk(owner, s, j); }
    forall i, j ensures PairOk(s', i, j) { assert PairOk(s, i, j); }
    forall u ensures TestOk(owner, s', u) { assert TestOk(owner, s, u); }
    forall p ensures ActiveOk(s', p) { assert ActiveOk(s, p); assert ActiveOk(s, (step.instance, step.test)); }
  }

  lemma CrashKeeps(owner: TestId -> Contestant, s: State, i: Instance)
    requires Inv(owner, s)
    ensures Inv(owner, Next(owner, s, Crash(i)))
  {
    var s' := Next(owner, s, Crash(i));
    forall j ensures CallOk(owner, s', j) { assert CallOk(owner, s, j); }
    forall i, j ensures PairOk(s', i, j) { assert PairOk(s, i, j); }
    forall u ensures TestOk(owner, s', u) { assert TestOk(owner, s, u); }
    forall p ensures ActiveOk(s', p) { assert ActiveOk(s, p); }
  }

  /** The invariant speaks of rows, locks, records, running sets and calls only. */
  lemma SameState(owner: TestId -> Contestant, s: State, s': State)
    requires Inv(owner, s)
    requires s'.rows == s.rows && s'.locks == s.locks && s'.calls == s.calls
    requires s'.recorded == s.recorded && s'.active == s.active && s'.orphans == s.orphans
    ensures Inv(owner, s')
  {
    forall j ensures CallOk(owner, s', j) { assert CallOk(owner, s, j); }
    forall i, j ensures PairOk(s', i, j) { assert PairOk(s, i, j); }
    forall u ensures TestOk(owner, s', u) { assert TestOk(owner, s, u); }
    forall p ensures ActiveOk(s', p) { assert ActiveOk(s, p); }
  }

  lemma {:induction false} RunKeeps(owner: TestId -> Contestant, steps: seq<Step>)
    ensures Inv(owner, Run(owner, steps))
  {
    if steps == [] {
    } else {
      RunKeeps(owner, steps[..|steps| - 1]);
      NextKeeps(owner, Run(owner, steps[..|steps| - 1]), steps[|steps| - 1]);
    }
  }

  // ----- mutual exclusion -----

  /** In every reachable state a contestant has at most one test running or stopping, and that test is
      the value in the contestant's lock. */
  lemma MutualExclusion(owner: TestId -> Contestant, steps: seq<Step>, t: TestId, u: TestId)
    requires var s := Run(owner, steps);
             t in s.rows && u in s.rows && s.rows[t] in {Running, Stopping} && s.rows[u] in {Running, Stopping}
    requires owner(t) == owner(u)
    ensures var s := Run(owner, steps); t == u && owner(t) in s.locks && s.locks[owner(t)] == t
  {
    RunKeeps(owner, steps);
    assert TestOk(owner, Run(owner, steps), t) && TestOk(owner, Run(owner, steps), u);
  }

  /** However calls interleave, the unconditional delete of releaseLock takes away no lock but the one
      its own test holds, and only when that test is not live. */
  lemma ReleaseIsOwn(owner: TestId -> Contestant, steps: seq<Step>, id: CallId, ok: bool, c: Contestant)
    requires var s := Run(owner, steps);
             id in s.calls && c in s.locks && c !in Next(owner, s, Advance(id, ok)).locks
    ensures var s := Run(owner, steps);
            var t := s.calls[id].test;
            s.locks[c] == t && c == owner(t) && (t in s.rows ==> !Live(s.rows[t]))
  {
    var s := Run(owner, steps);
    RunKeeps(owner, steps);
    OnlyReleases(owner, s, id, ok, c);
    OwnLock(owner, s, id);
  }

  /** Only the two releasing operations take a lock away, each the one it names. */
  lemma OnlyReleases(owner: TestId -> Contestant, s: State, id: CallId, ok: bool, c: Contestant)
    requires id in s.calls && c in s.locks && c !in Operate(owner, s, id, ok).locks
    ensures var call := s.calls[id];
            || (call.pc.StartReleasing? && c == owner(call.test))
            || (call.pc.Releasing? && call.pc.named != "" && c == call.pc.named)
  {
  }
}
