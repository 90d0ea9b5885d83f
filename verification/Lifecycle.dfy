/** What the lifecycle machine's history is like: every committed change is legal, and at most one call reaches
    finish for a test. */
module Lifecycle {
  import opened Common
  import opened Orchestrator
  import opened Exclusion

  // ----- committed changes -----

  /** The committed changes of t, in order, lead from pending to this status, each by a legal step. */
  predicate Follows(commits: seq<Commit>, t: TestId, status: Status)
  {
    if commits == [] then status == Pending
    else
      var c, front := commits[|commits| - 1], commits[..|commits| - 1];
      if c.test != t then Follows(front, t, status)
      else c.to == status && Legal(c.from, c.to) && Follows(front, t, c.from)
  }

  /** How many changes of t were committed, and how many of them ended it. */
  function Changes(commits: seq<Commit>, t: TestId): nat {
    if commits == [] then 0
    else Changes(commits[..|commits| - 1], t) + if commits[|commits| - 1].test == t then 1 else 0
  }

  function Endings(commits: seq<Commit>, t: TestId): nat {
    if commits == [] then 0
    else
      var c := commits[|commits| - 1];
      Endings(commits[..|commits| - 1], t) + if c.test == t && Rank(c.to) == 3 then 1 else 0
  }

  /** A legal history makes at most as many changes as the status has rank, and ends the test once if
      it is over, otherwise not at all. */
  lemma {:induction false} FollowsBounds(commits: seq<Commit>, t: TestId, status: Status)
    requires Follows(commits, t, status)
    ensures Changes(commits, t) <= Rank(status)
    ensures Endings(commits, t) == if Rank(status) == 3 then 1 else 0
  {
    if commits == [] {
    } else {
      var c, front := commits[|commits| - 1], commits[..|commits| - 1];
      FollowsBounds(front, t, if c.test == t then c.from else status);
    }
  }

  function StatusOf(s: State, t: TestId): Status {
    if t in s.rows then s.rows[t] else Pending
  }

  predicate HistoryOk(s: State, t: TestId) {
    Follows(s.commits, t, StatusOf(s, t))
  }

  /** Where a swap succeeds, the change is legal: the status read was checked, and it is still there. */
  lemma SwapsAreLegal(owner: TestId -> Contestant, s: State, id: CallId, ok: bool)
    requires id in s.calls && CallOk(owner, s, id)
    ensures var c := s.calls[id];
            var effect := PlanOf(owner, s, c, ok).effect;
            effect.Swap? ==> c.test in s.rows && Legal(s.rows[c.test], effect.to)
  {
  }

  lemma DoHistory(s: State, id: CallId, plan: Plan, t: TestId)
    requires id in s.calls && HistoryOk(s, t)
    requires plan.effect.Swap? ==> s.calls[id].test in s.rows && Legal(s.rows[s.calls[id].test], plan.effect.to)
    ensures HistoryOk(Do(s, id, plan), t)
  {
    if plan.effect.Swap? {
      var c := Commit(s.calls[id].test, s.rows[s.calls[id].test], plan.effect.to);
      assert (s.commits + [c])[..|s.commits|] == s.commits;
    }
  }

  lemma NextHistory(owner: TestId -> Contestant, s: State, step: Step, t: TestId)
    requires Inv(owner, s) && HistoryOk(s, t)
    ensures HistoryOk(Next(owner, s, step), t)
  {
    if step.Advance? && step.id in s.calls {
      assert CallOk(owner, s, step.id);
      SwapsAreLegal(owner, s, step.id, step.ok);
      DoHistory(s, step.id, PlanOf(owner, s, s.calls[step.id], step.ok), t);
    }
  }

  /** In every run, the committed changes of a test are a legal path from pending to its status: there
      are at most three of them, and exactly one ends it once it is over. */
  lemma {:induction false} LegalHistory(owner: TestId -> Contestant, steps: seq<Step>, t: TestId)
    ensures var s := Run(owner, steps);
            && Follows(s.commits, t, StatusOf(s, t))
            && Changes(s.commits, t) <= 3
            && Endings(s.commits, t) == (if Rank(StatusOf(s, t)) == 3 then 1 else 0)
  {
    HistoryRun(owner, steps, t);
    var s := Run(owner, steps);
    FollowsBounds(s.commits, t, StatusOf(s, t));
  }

  lemma {:induction false} HistoryRun(owner: TestId -> Contestant, steps: seq<Step>, t: TestId)
    ensures HistoryOk(Run(owner, steps), t)
  {
    if steps == [] {
    } else {
      var front := steps[..|steps| - 1];
      RunKeeps(owner, front);
      HistoryRun(owner, front, t);
      NextHistory(owner, Run(owner, front), steps[|steps| - 1], t);
    }
  }

  // ----- one finish -----

  /** On its way to finish: the status is final, and finish has still to be entered. */
  predicate Finishes(pc: Pc) {
    pc.FailPublishing? || pc.Finishing?
  }

  /** A call on its way to finish is the first to get there, and a finished test is over. */
  predicate FinishOk(s: State, id: CallId) {
    id in s.calls && Finishes(s.calls[id].pc) ==> s.calls[id].test !in s.finished
  }

  predicate OverOk(s: State, t: TestId) {
    t in s.finished ==> Reached(s, t, 3)
  }

  ghost predicate FinishInv(s: State) {
    && Once(s.finished)
    && (forall id {:trigger FinishOk(s, id)} :: FinishOk(s, id))
    && (forall t {:trigger OverOk(s, t)} :: OverOk(s, t))
  }

  /** A plan that brings a call onto the way to finish only by ending its test, and off it only by finishing it. */
  predicate FinishPlanned(s: State, c: Call, plan: Plan) {
    && (plan.effect.Finish? ==> c.pc.Finishing? && !Finishes(plan.pc))
    && (Finishes(plan.pc) ==> Finishes(c.pc) || (plan.effect.Swap? && !Reached(s, c.test, 3)))
    && (plan.effect.Swap? ==> c.test in s.rows && Legal(s.rows[c.test], plan.effect.to))
  }

  lemma FinishPlan(owner: TestId -> Contestant, s: State, id: CallId, ok: bool)
    requires id in s.calls && CallOk(owner, s, id)
    ensures FinishPlanned(s, s.calls[id], PlanOf(owner, s, s.calls[id], ok))
  {
  }

  lemma DoFinishOk(s: State, id: CallId, plan: Plan, j: CallId)
    requires id in s.calls && FinishPlanned(s, s.calls[id], plan)
    requires FinishOk(s, id) && FinishOk(s, j) && PairOk(s, id, j) && OverOk(s, s.calls[id].test)
    ensures FinishOk(Do(s, id, plan), j)
  {
  }

  lemma DoOverOk(owner: TestId -> Contestant, s: State, id: CallId, plan: Plan, t: TestId)
    requires id in s.calls && FinishPlanned(s, s.calls[id], plan) && CallOk(owner, s, id) && OverOk(s, t)
    ensures OverOk(Do(s, id, plan), t)
  {
  }

  lemma DoOnce(s: State, id: CallId, plan: Plan)
    requires id in s.calls && FinishPlanned(s, s.calls[id], plan) && FinishOk(s, id) && Once(s.finished)
    ensures Once(Do(s, id, plan).finished)
  {
    if plan.effect.Finish? {
      OnceMore(s.finished, s.calls[id].test);
    }
  }

  lemma DoFinishAt(owner: TestId -> Contestant, s: State, id: CallId, plan: Plan, j: CallId, t: TestId)
    requires Inv(owner, s) && FinishInv(s) && id in s.calls && FinishPlanned(s, s.calls[id], plan)
    ensures FinishOk(Do(s, id, plan), j) && OverOk(Do(s, id, plan), t)
  {
    assert CallOk(owner, s, id) && PairOk(s, id, j);
    assert FinishOk(s, id) && FinishOk(s, j) && OverOk(s, s.calls[id].test) && OverOk(s, t);
    DoFinishOk(s, id, plan, j);
    DoOverOk(owner, s, id, plan, t);
  }

  lemma DoFinish(owner: TestId -> Contestant, s: State, id: CallId, plan: Plan)
    requires Inv(owner, s) && FinishInv(s) && id in s.calls && FinishPlanned(s, s.calls[id], plan)
    ensures FinishInv(Do(s, id, plan))
  {
    assert FinishOk(s, id);
    DoOnce(s, id, plan);
    forall j ensures FinishOk(Do(s, id, plan), j) { DoFinishAt(owner, s, id, plan, j, ""); }
    forall t ensures OverOk(Do(s, id, plan), t) { DoFinishAt(owner, s, id, plan, id, t); }
  }

  lemma NextFinish(owner: TestId -> Contestant, s: State, step: Step)
    requires Inv(owner, s) && FinishInv(s)
    ensures FinishInv(Next(owner, s, step))
  {
    var s' := Next(owner, s, step);
    if step.Advance? && step.id in s.calls {
      assert CallOk(owner, s, step.id);
      FinishPlan(owner, s, step.id, step.ok);
      DoFinish(owner, s, step.id, PlanOf(owner, s, s.calls[step.id], step.ok));
    } else {
      forall j ensures FinishOk(s', j) { assert FinishOk(s, j); }
      forall t ensures OverOk(s', t) { assert OverOk(s, t); }
    }
  }

  /** However timers, recovered timers, crash events and stops race, at most one call in the whole
      system reaches finish for a test, and only once the test is over. */
  lemma {:induction false} FinishedOnce(owner: TestId -> Contestant, steps: seq<Step>)
    ensures FinishInv(Run(owner, steps))
  {
    if steps == [] {
      forall j ensures FinishOk(INIT, j) { }
      forall t ensures OverOk(INIT, t) { }
    } else {
      var front := steps[..|steps| - 1];
      RunKeeps(owner, front);
      FinishedOnce(owner, front);
      NextFinish(owner, Run(owner, front), steps[|steps| - 1]);
    }
  }
}
