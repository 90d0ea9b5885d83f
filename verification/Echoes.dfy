/** What an event does that comes back to the orchestrators after its test is past the point it leads to, as
    every event they publish themselves does. */
module Echoes {
  import opened Orchestrator
  import opened Exclusion
  import opened Lifecycle
  import opened SharedTopic
  import opened Alone
  import opened Outcomes

  // ----- in any interleaving -----

  /** A call made for an event that came too late, as far as it can get while taking the lock works. */
  predicate EchoOk(s: State, id: CallId) {
    id in s.calls && s.calls[id].echo && !s.calls[id].fault ==>
      var t := s.calls[id].test;
      match s.calls[id].pc
      case Locking => Reached(s, t, 1)
      case StartReading => Reached(s, t, 3)
      case StartReleasing(_) => Reached(s, t, 3)
      case FailNaming => Reached(s, t, 3)
      case FailReading(_) => Reached(s, t, 3)
      case StopReading => Reached(s, t, 2)
      case Returned => true
      case _ => false
  }

  lemma EchoMoves(owner: TestId -> Contestant, s: State, id: CallId, ok: bool)
    requires Inv(owner, s) && id in s.calls && EchoOk(s, id)
    ensures EchoOk(Operate(owner, s, id, ok), id)
  {
    assert CallOk(owner, s, id) && TestOk(owner, s, s.calls[id].test);
  }

  lemma EchoStep(owner: TestId -> Contestant, s: State, id: CallId, ok: bool, j: CallId)
    requires Inv(owner, s) && id in s.calls && EchoOk(s, j) && EchoOk(s, id)
    ensures EchoOk(Operate(owner, s, id, ok), j)
  {
    if j == id {
      EchoMoves(owner, s, id, ok);
    } else {
      assert CallOk(owner, s, id);
      SwapsAreLegal(owner, s, id, ok);
      DoKeepsEcho(s, id, PlanOf(owner, s, s.calls[id], ok), j);
    }
  }

  lemma DoKeepsEcho(s: State, id: CallId, plan: Plan, j: CallId)
    requires id in s.calls && j != id && EchoOk(s, j)
    requires plan.effect.Swap? ==> s.calls[id].test in s.rows && Legal(s.rows[s.calls[id].test], plan.effect.to)
    ensures EchoOk(Do(s, id, plan), j)
  {
  }

  ghost predicate EchoInv(s: State) {
    forall id {:trigger EchoOk(s, id)} :: EchoOk(s, id)
  }

  lemma NextEcho(owner: TestId -> Contestant, s: State, step: Step)
    requires Inv(owner, s) && EchoInv(s)
    ensures EchoInv(Next(owner, s, step))
  {
    var s' := Next(owner, s, step);
    forall j ensures EchoOk(s', j) {
      assert EchoOk(s, j);
      if step.Advance? && step.id in s.calls {
        assert EchoOk(s, step.id);
        EchoStep(owner, s, step.id, step.ok, j);
      }
    }
  }

  lemma {:induction false} EchoRun(owner: TestId -> Contestant, steps: seq<Step>)
    ensures EchoInv(Run(owner, steps))
  {
    if steps == [] {
      forall j ensures EchoOk(INIT, j) { }
    } else {
      var front := steps[..|steps| - 1];
      RunKeeps(owner, front);
      EchoRun(owner, front);
      NextEcho(owner, Run(owner, front), steps[|steps| - 1]);
    }
  }

  /** A START_TEST for a test that has started, or a STOP_TEST for one that is stopping or over, changes
      no status, as long as taking the lock returned no error. */
  lemma EchoChangesNothing(owner: TestId -> Contestant, steps: seq<Step>, id: CallId, ok: bool)
    requires var s := Run(owner, steps); id in s.calls && s.calls[id].echo && !s.calls[id].fault
    ensures Operate(owner, Run(owner, steps), id, ok).rows == Run(owner, steps).rows
  {
    EchoRun(owner, steps);
    assert EchoOk(Run(owner, steps), id);
  }

  // ----- exactly -----

  /** The call has returned, and these are the rows. */
  predicate Ends(s: State, id: CallId, rows: map<TestId, Status>) {
    id in s.calls && s.calls[id].pc == Returned && s.rows == rows
  }

  /** An echo alone, exactly. It changes a status if and only if it is a START_TEST, taking the lock returns an
      error, the test is live, and reading and swapping its row work; then it fails that test. */
  lemma EchoExactly(owner: TestId -> Contestant, steps: seq<Step>, id: CallId, oks: seq<bool>)
    requires var s := Run(owner, steps);
             && id in s.calls && s.calls[id].echo && !s.calls[id].fault
             && (s.calls[id].pc.Locking? || s.calls[id].pc.StopReading?)
    requires |oks| >= 10
    ensures var s := Run(owner, steps);
            var t := s.calls[id].test;
            && t in s.rows
            && Ends(Run(owner, steps + Advances(id, oks)), id,
                    if s.calls[id].pc.Locking? && !oks[0] && Live(s.rows[t]) && oks[2] && oks[3]
                    then s.rows[t := Failed] else s.rows)
  {
    var s, c := Run(owner, steps), Run(owner, steps).calls[id];
    RunKeeps(owner, steps);
    EchoRun(owner, steps);
    assert EchoOk(s, id) && TestOk(owner, s, c.test);
    RunThenFrom(owner, steps, Advances(id, oks));
    CallAlone(owner, s, id, if c.pc.Locking? then Start else Stop, oks);
  }

  /** Every event an instance published itself comes back as an echo. */
  lemma OwnEventsAreEchoes(owner: TestId -> Contestant, steps: seq<Step>, id: CallId, instance: Instance)
    requires var s := Run(owner, steps);
             id !in s.calls && s.consumed < |s.topic| && s.topic[s.consumed] in s.published
    ensures var s, t := Run(owner, steps), Run(owner, steps + [Consume(id, instance)]);
            var m := s.topic[s.consumed];
            && id in t.calls && t.rows == s.rows
            && t.calls[id] ==
               Call(instance, m.test, if m.cause == Running then Locking else StopReading, true, false)
  {
    var s := Run(owner, steps);
    TopicRun(owner, steps);
    assert SentOk(s, s.topic[s.consumed]);
    RunSnoc(owner, steps, Consume(id, instance));
  }

  /** So consuming one of their own events changes no status unless taking the lock returns an error, and then
      exactly when the test it announced is still live. */
  lemma OwnEventExactly(owner: TestId -> Contestant, steps: seq<Step>, id: CallId, instance: Instance, oks: seq<bool>)
    requires var s := Run(owner, steps);
             id !in s.calls && s.consumed < |s.topic| && s.topic[s.consumed] in s.published
    requires |oks| >= 10
    ensures var s := Run(owner, steps);
            var m := s.topic[s.consumed];
            && m.test in s.rows
            && Ends(Run(owner, steps + [Consume(id, instance)] + Advances(id, oks)), id,
                    if m.cause == Running && !oks[0] && Live(s.rows[m.test]) && oks[2] && oks[3]
                    then s.rows[m.test := Failed] else s.rows)
  {
    OwnEventsAreEchoes(owner, steps, id, instance);
    EchoExactly(owner, steps + [Consume(id, instance)], id, oks);
  }
}
