/** Each instance also consumes what it publishes. No event is published twice, and the stream of own events is
    bounded by the tests' ranks. */
module SharedTopic {
  import opened Common
  import opened Orchestrator
  import opened Exclusion
  import opened Lifecycle

  // ----- each message once -----

  datatype Debt = Nothing | Due(cause: Status)

  /** The message a call has still to publish for the change it committed. */
  function Owed(pc: Pc): Debt {
    match pc
    case StartRecording => Due(Running)
    case StartPublishing => Due(Running)
    case StopNaming => Due(Stopping)
    case StopPublishing(_) => Due(Stopping)
    case FailPublishing(_) => Due(Failed)
    case _ => Debt.Nothing
  }

  /** The test has been through the change this message announces. */
  predicate Announces(s: State, m: Message) {
    match m.cause
    case Running => Reached(s, m.test, 1)
    case Stopping => Reached(s, m.test, 2)
    case Failed => m.test in s.rows && s.rows[m.test] == Failed
    case _ => false
  }

  predicate DebtOk(s: State, id: CallId) {
    id in s.calls && Owed(s.calls[id].pc).Due? ==>
      var m := Message(s.calls[id].test, Owed(s.calls[id].pc).cause);
      m !in s.published && Announces(s, m)
  }

  predicate DebtsApart(s: State, i: CallId, j: CallId) {
    i in s.calls && j in s.calls && i != j && s.calls[i].test == s.calls[j].test && Owed(s.calls[i].pc).Due? ==>
      Owed(s.calls[i].pc) != Owed(s.calls[j].pc)
  }

  predicate SentOk(s: State, m: Message) {
    m in s.published ==> Announces(s, m)
  }

  /** Nothing was published twice, and what a call has still to publish was not published yet. */
  ghost predicate TopicInv(s: State) {
    && Once(s.published)
    && (forall id {:trigger DebtOk(s, id)} :: DebtOk(s, id))
    && (forall i, j {:trigger DebtsApart(s, i, j)} :: DebtsApart(s, i, j))
    && (forall m {:trigger SentOk(s, m)} :: SentOk(s, m))
  }

  /** What a plan does to the debt of its call. */
  predicate PlanPays(s: State, c: Call, plan: Plan) {
    && (plan.effect.Publish? ==> Owed(c.pc) == Due(plan.effect.cause) && Owed(plan.pc).Nothing?)
    && (plan.effect.Swap? ==> c.test in s.rows && Legal(s.rows[c.test], plan.effect.to) && Owed(c.pc).Nothing?)
    && (Owed(plan.pc).Due? ==> Owed(plan.pc) == Owed(c.pc) || plan.effect == Swap(Owed(plan.pc).cause))
  }

  lemma PlansPay(owner: TestId -> Contestant, s: State, id: CallId, ok: bool)
    requires id in s.calls && CallOk(owner, s, id)
    ensures PlanPays(s, s.calls[id], PlanOf(owner, s, s.calls[id], ok))
  {
  }

  lemma AnnouncesStays(s: State, id: CallId, plan: Plan, m: Message)
    requires id in s.calls && PlanPays(s, s.calls[id], plan) && Announces(s, m)
    ensures Announces(Do(s, id, plan), m)
  {
  }

  /** Before a swap nobody can have announced it, or be about to. */
  lemma SwapIsNews(s: State, c: Call, to: Status)
    requires c.test in s.rows && Legal(s.rows[c.test], to)
    ensures !Announces(s, Message(c.test, to))
  {
  }

  lemma DoTopic(s: State, id: CallId, plan: Plan)
    requires TopicInv(s) && id in s.calls && PlanPays(s, s.calls[id], plan)
    ensures TopicInv(Do(s, id, plan))
  {
    var s', c := Do(s, id, plan), s.calls[id];
    assert DebtOk(s, id);
    if plan.effect.Publish? {
      OnceMore(s.published, Message(c.test, plan.effect.cause));
    }
    forall j ensures DebtOk(s', j) { DoDebt(s, id, plan, j); }
    forall i, j ensures DebtsApart(s', i, j) { DoApart(s, id, plan, i, j); }
    forall m ensures SentOk(s', m) {
      assert SentOk(s, m);
      if Announces(s, m) { AnnouncesStays(s, id, plan, m); }
    }
  }

  lemma DoDebt(s: State, id: CallId, plan: Plan, j: CallId)
    requires TopicInv(s) && id in s.calls && PlanPays(s, s.calls[id], plan)
    ensures DebtOk(Do(s, id, plan), j)
  {
    var s', c := Do(s, id, plan), s.calls[id];
    assert DebtOk(s, j) && DebtsApart(s, id, j);
    if plan.effect.Swap? {
      SwapIsNews(s, c, plan.effect.to);
      assert SentOk(s, Message(c.test, plan.effect.to));
    }
    if j in s.calls && Owed(s.calls[j].pc).Due? {
      AnnouncesStays(s, id, plan, Message(s.calls[j].test, Owed(s.calls[j].pc).cause));
    }
  }

  lemma DoApart(s: State, id: CallId, plan: Plan, i: CallId, j: CallId)
    requires TopicInv(s) && id in s.calls && PlanPays(s, s.calls[id], plan)
    ensures DebtsApart(Do(s, id, plan), i, j)
  {
    assert DebtsApart(s, i, j) && DebtOk(s, i) && DebtOk(s, j);
    if plan.effect.Swap? {
      SwapIsNews(s, s.calls[id], plan.effect.to);
    }
  }

  /** Steps that are not a call's operation publish nothing and give no call anything to publish. */
  lemma OtherTopic(owner: TestId -> Contestant, s: State, step: Step)
    requires TopicInv(s) && !(step.Advance? && step.id in s.calls)
    ensures TopicInv(Next(owner, s, step))
  {
    var s' := Next(owner, s, step);
    assert s'.published == s.published;
    forall m ensures SentOk(s', m) { assert SentOk(s, m); }
    forall j ensures DebtOk(s', j) { assert DebtOk(s, j); }
    forall i, j ensures DebtsApart(s', i, j) { assert DebtsApart(s, i, j); }
  }

  lemma NextTopic(owner: TestId -> Contestant, s: State, step: Step)
    requires Inv(owner, s) && TopicInv(s)
    ensures TopicInv(Next(owner, s, step))
  {
    if step.Advance? && step.id in s.calls {
      assert CallOk(owner, s, step.id);
      PlansPay(owner, s, step.id, step.ok);
      DoTopic(s, step.id, PlanOf(owner, s, s.calls[step.id], step.ok));
    } else {
      OtherTopic(owner, s, step);
    }
  }

  lemma {:induction false} TopicRun(owner: TestId -> Contestant, steps: seq<Step>)
    ensures TopicInv(Run(owner, steps))
  {
    if steps == [] {
      forall j ensures DebtOk(INIT, j) { }
      forall i, j ensures DebtsApart(INIT, i, j) { }
      forall m ensures SentOk(INIT, m) { }
    } else {
      var front := steps[..|steps| - 1];
      RunKeeps(owner, front);
      TopicRun(owner, front);
      NextTopic(owner, Run(owner, front), steps[|steps| - 1]);
    }
  }

  function Count<T(==)>(s: seq<T>, x: T): nat {
    if s == [] then 0 else Count(s[..|s| - 1], x) + if s[|s| - 1] == x then 1 else 0
  }

  lemma {:induction false} OnceCounts<T>(s: seq<T>, x: T)
    requires Once(s)
    ensures Count(s, x) == if x in s then 1 else 0
  {
    if s == [] {
    } else {
      OnceCounts(s[..|s| - 1], x);
      assert s == s[..|s| - 1] + [s[|s| - 1]];
    }
  }

  /** In every run each test has at most one START_TEST published and at most two STOP_TESTs, one for
      stopping and one for having failed, and nothing else is published for it. */
  lemma PublishedOnce(owner: TestId -> Contestant, steps: seq<Step>, t: TestId)
    ensures var p := Run(owner, steps).published;
            && Count(p, Message(t, Running)) <= 1
            && Count(p, Message(t, Stopping)) + Count(p, Message(t, Failed)) <= 2
            && Message(t, Pending) !in p && Message(t, Completed) !in p
  {
    TopicRun(owner, steps);
    var s := Run(owner, steps);
    OnceCounts(s.published, Message(t, Running));
    OnceCounts(s.published, Message(t, Stopping));
    OnceCounts(s.published, Message(t, Failed));
    assert SentOk(s, Message(t, Pending)) && SentOk(s, Message(t, Completed));
  }

  // ----- the ranks bound the stream -----

  /** The sum of the tests' ranks. */
  ghost function Total(rows: map<TestId, Status>): nat
    decreases |rows|
  {
    if rows == map[] then 0 else var t :| t in rows; Rank(rows[t]) + Total(rows - {t})
  }

  lemma {:induction false} TotalAt(rows: map<TestId, Status>, t: TestId)
    requires t in rows
    ensures Total(rows) == Rank(rows[t]) + Total(rows - {t})
    decreases |rows|
  {
    var u :| u in rows && Total(rows) == Rank(rows[u]) + Total(rows - {u});
    if u != t {
      TotalAt(rows - {u}, t);
      TotalAt(rows - {t}, u);
      assert rows - {u} - {t} == rows - {t} - {u};
    }
  }

  lemma TotalSet(rows: map<TestId, Status>, t: TestId, to: Status)
    ensures Total(rows[t := to]) == Rank(to) + Total(rows - {t})
  {
    TotalAt(rows[t := to], t);
    assert rows[t := to] - {t} == rows - {t};
  }

  lemma {:induction false} TotalBound(rows: map<TestId, Status>)
    ensures Total(rows) <= 3 * |rows|
    decreases |rows|
  {
    if rows == map[] {
    } else {
      var u :| u in rows && Total(rows) == Rank(rows[u]) + Total(rows - {u});
      var rest := rows - {u};
      assert rest.Keys == rows.Keys - {u} && |rest| == |rest.Keys| == |rows| - 1;
      assert Rank(rows[u]) <= 3;
      TotalBound(rest);
    }
  }

  /** The calls that have still to publish. */
  ghost function Debtors(s: State): set<CallId> {
    set id | id in s.calls && Owed(s.calls[id].pc).Due?
  }

  /** Every publication, made or due, answers a committed change, and every change raises a rank. */
  ghost predicate BudgetOk(s: State) {
    |s.published| + |Debtors(s)| <= |s.commits| <= Total(s.rows)
  }

  lemma DoDebtors(s: State, id: CallId, plan: Plan)
    requires id in s.calls
    ensures Debtors(Do(s, id, plan)) == if Owed(plan.pc).Due? then Debtors(s) + {id} else Debtors(s) - {id}
  {
    var s' := Do(s, id, plan);
    assert s'.calls == s.calls[id := s'.calls[id]] && s'.calls[id].pc == plan.pc;
  }

  lemma DoTotal(s: State, id: CallId, plan: Plan)
    requires id in s.calls && PlanPays(s, s.calls[id], plan) && |s.commits| <= Total(s.rows)
    ensures var s' := Do(s, id, plan);
            |s'.commits| == |s.commits| + (if plan.effect.Swap? then 1 else 0) && |s'.commits| <= Total(s'.rows)
  {
    if plan.effect.Swap? {
      TotalAt(s.rows, s.calls[id].test);
      TotalSet(s.rows, s.calls[id].test, plan.effect.to);
    }
  }

  lemma DoBudget(s: State, id: CallId, plan: Plan)
    requires BudgetOk(s) && id in s.calls && PlanPays(s, s.calls[id], plan)
    ensures BudgetOk(Do(s, id, plan))
  {
    DoDebtors(s, id, plan);
    DoTotal(s, id, plan);
    assert |Do(s, id, plan).published| == |s.published| + if plan.effect.Publish? then 1 else 0;
    assert id in Debtors(s) <==> Owed(s.calls[id].pc).Due?;
  }

  lemma NextBudget(owner: TestId -> Contestant, s: State, step: Step)
    requires Inv(owner, s) && BudgetOk(s)
    ensures BudgetOk(Next(owner, s, step))
  {
    var s' := Next(owner, s, step);
    if step.Advance? && step.id in s.calls {
      assert CallOk(owner, s, step.id);
      PlansPay(owner, s, step.id, step.ok);
      DoBudget(s, step.id, PlanOf(owner, s, s.calls[step.id], step.ok));
    } else {
      assert Debtors(s') <= Debtors(s);
      SubsetSize(Debtors(s'), Debtors(s));
      if step.CreateRow? && step.test !in s.rows {
        TotalSet(s.rows, step.test, Pending);
        assert s.rows - {step.test} == s.rows;
      }
    }
  }

  lemma SubsetSize<T>(a: set<T>, b: set<T>)
    requires a <= b
    ensures |a| <= |b|
  {
    assert b == a + (b - a);
  }

  function Injected(steps: seq<Step>): nat {
    if steps == [] then 0 else Injected(steps[..|steps| - 1]) + if steps[|steps| - 1].Inject? then 1 else 0
  }

  /** The topic quiesces: in every run, the instances consume at most the events others injected plus
      the sum of the ranks, so at most three events per test come from themselves. */
  lemma {:induction false} TopicQuiesces(owner: TestId -> Contestant, steps: seq<Step>)
    ensures var s := Run(owner, steps);
            && BudgetOk(s) && |s.topic| == Injected(steps) + |s.published|
            && s.consumed <= Injected(steps) + Total(s.rows) <= Injected(steps) + 3 * |s.rows|
  {
    if steps == [] {
      assert Debtors(INIT) == {};
    } else {
      var front, step := steps[..|steps| - 1], steps[|steps| - 1];
      RunKeeps(owner, front);
      TopicQuiesces(owner, front);
      NextBudget(owner, Run(owner, front), step);
      TopicGrows(owner, Run(owner, front), step);
    }
    ConsumedBound(owner, steps);
    TotalBound(Run(owner, steps).rows);
  }

  lemma TopicGrows(owner: TestId -> Contestant, s: State, step: Step)
    ensures var s' := Next(owner, s, step);
            |s'.topic| - |s'.published| == |s.topic| - |s.published| + if step.Inject? then 1 else 0
    ensures s.consumed <= |s.topic| ==> Next(owner, s, step).consumed <= |Next(owner, s, step).topic|
  {
  }

  lemma {:induction false} ConsumedBound(owner: TestId -> Contestant, steps: seq<Step>)
    ensures Run(owner, steps).consumed <= |Run(owner, steps).topic|
  {
    if steps == [] {
    } else {
      ConsumedBound(owner, steps[..|steps| - 1]);
      TopicGrows(owner, Run(owner, steps[..|steps| - 1]), steps[|steps| - 1]);
    }
  }
}
