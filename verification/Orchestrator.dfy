/** The test lifecycle across orchestrator instances (`services/orchestrator`): a shared status row per
    test, changed by read-then-compare-and-set, a shared lock per contestant, and any number of
    StartTest, StopTest and FailTest calls in flight. Every database, Redis or Kafka operation is one
    atomic step, and every one of them may instead return an error and do nothing. */
module Orchestrator {
  type TestId = string
  type Contestant = string
  type Instance = string
  type CallId = nat

  datatype Status = Pending | Running | Stopping | Completed | Failed

  predicate Legal(from: Status, to: Status) {
    match from
    case Pending => to == Running || to == Failed
    case Running => to == Stopping || to == Failed
    case Stopping => to == Completed || to == Failed
    case Completed => false
    case Failed => false
  }

  function Rank(s: Status): nat {
    match s
    case Pending => 0
    case Running => 1
    case Stopping => 2
    case Completed => 3
    case Failed => 3
  }

  predicate Live(s: Status) {
    s == Running || s == Stopping
  }

  /** Where a call stands: the operation it performs next. `named` is what contestantFor returned. */
  datatype Pc =
    // StartTest
    | Locking
    | StartReading
    | StartSwapping(seen: Status)
    | StartReleasing(failNext: bool)
    | StartRecording
    | StartPublishing
    | StartRegistering
    // StopTest
    | StopReading
    | StopSwapping(seen: Status)
    | StopNaming
    | StopPublishing(named: Contestant)
    | CompleteReading(named: Contestant)
    | CompleteSwapping(named: Contestant, seen: Status)
    // FailTest
    | FailNaming
    | FailReading(named: Contestant)
    | FailSwapping(named: Contestant, seen: Status)
    | FailPublishing(named: Contestant)
    // finish
    | Finishing(named: Contestant)
    | Releasing(named: Contestant)
    | Returned

  /** A call in flight. `echo` remembers that it was asked for when its test was already past the
      point it leads to, `fault` that taking the lock returned an error. */
  datatype Call = Call(instance: Instance, test: TestId, pc: Pc, echo: bool, fault: bool)

  /** What instances publish to the topic they also consume: START_TEST when a test is running,
      STOP_TEST when it is stopping or has failed. */
  datatype Message = Message(test: TestId, cause: Status)

  datatype Commit = Commit(test: TestId, from: Status, to: Status)

  datatype State = State(
    rows: map<TestId, Status>,            // Postgres: tests
    locks: map<Contestant, TestId>,       // Redis: lock:test:<contestant>
    recorded: set<TestId>,                // Redis: test:<id> holds the contestant
    active: set<(Instance, TestId)>,      // each instance's running set
    orphans: set<(Instance, TestId)>,     // rows an instance's recovery has found
    calls: map<CallId, Call>,
    topic: seq<Message>, consumed: nat,   // Kafka: orchestrator-events
    published: seq<Message>,              // history: what instances put there
    commits: seq<Commit>,                 // history: status changes
    finished: seq<TestId>)                // history: calls that reached finish

  const INIT := State(map[], map[], {}, {}, {}, map[], [], 0, [], [], [])

  datatype Kind = Start | Stop | Fail

  datatype Step =
    | CreateRow(test: TestId)                                        // a test is submitted
    | Inject(message: Message)                                       // someone else publishes an event
    | Consume(id: CallId, instance: Instance)                        // an instance takes the next event
    | Begin(id: CallId, instance: Instance, kind: Kind, test: TestId) // a timer, crash or recovery makes a call
    | Advance(id: CallId, ok: bool)                                  // a call's next operation, or its error
    | FindOrphan(instance: Instance, test: TestId)
    | Reclaim(instance: Instance, test: TestId)                      // recovery reinstalls a timer
    | Expire(contestant: Contestant)                                 // a lock's TTL runs out
    | Crash(instance: Instance)

  /** Whether a call of this kind comes too late to lead anywhere. */
  predicate Past(s: State, kind: Kind, test: TestId) {
    test in s.rows &&
    match kind
    case Start => Rank(s.rows[test]) >= 1
    case Stop => Rank(s.rows[test]) >= 2
    case Fail => false
  }

  function Enter(s: State, id: CallId, instance: Instance, kind: Kind, test: TestId): State {
    var pc := match kind case Start => Locking case Stop => StopReading case Fail => FailNaming;
    s.(calls := s.calls[id := Call(instance, test, pc, Past(s, kind, test), false)])
  }

  /** What an operation does besides moving its call on. */
  datatype Effect =
    | Nothing
    | Faulted                   // taking the lock returned an error
    | Take(contestant: Contestant)
    | Free(contestant: Contestant)
    | Swap(to: Status)          // the compare-and-set took effect
    | Record
    | Enlist
    | Finish
    | Publish(cause: Status)

  datatype Plan = Plan(pc: Pc, effect: Effect)

  function Do(s: State, id: CallId, plan: Plan): State
    requires id in s.calls
  {
    var c := s.calls[id];
    var t := c.test;
    var s' := s.(calls := s.calls[id := c.(pc := plan.pc)]);
    match plan.effect
    case Nothing => s'
    case Faulted => s.(calls := s.calls[id := c.(pc := plan.pc, fault := true)])
    case Take(contestant) => s'.(locks := s.locks[contestant := t])
    case Free(contestant) => s'.(locks := s.locks - {contestant})
    case Swap(to) =>
      if t in s.rows then s'.(rows := s.rows[t := to], commits := s.commits + [Commit(t, s.rows[t], to)]) else s'
    case Record => s'.(recorded := s.recorded + {t})
    case Enlist => s'.(active := s.active + {(c.instance, t)})
    case Finish => s'.(active := s.active - {(c.instance, t)}, finished := s.finished + [t])
    case Publish(cause) => s'.(topic := s.topic + [Message(t, cause)], published := s.published + [Message(t, cause)])
  }

  function If(ok: bool, e: Effect): Effect {
    if ok then e else Nothing
  }

  /** contestantFor: the local running set, then Redis, then nothing. */
  function NameOf(owner: TestId -> Contestant, s: State, c: Call, ok: bool): Contestant {
    if (c.instance, c.test) in s.active || (ok && c.test in s.recorded) then owner(c.test) else ""
  }

  /** releaseLock: an unconditional delete, skipped for an unknown contestant. */
  function Unlock(ok: bool, contestant: Contestant): Effect {
    If(ok && contestant != "", Free(contestant))
  }

  /** The first half of TransitionTo: reads the row, and goes on only to a legal change. */
  function ReadRow(s: State, c: Call, ok: bool, to: Status, swap: Pc, err: Pc): Plan {
    if ok && c.test in s.rows && Legal(s.rows[c.test], to) then Plan(swap, Nothing) else Plan(err, Nothing)
  }

  function SeenIn(s: State, c: Call): Status {
    if c.test in s.rows then s.rows[c.test] else Pending
  }

  /** The second half: swaps if the row still has the status that was read. */
  function SwapRow(s: State, c: Call, ok: bool, seen: Status, to: Status, done: Pc, lost: Pc, err: Pc): Plan {
    if !ok then Plan(err, Nothing)
    else if c.test in s.rows && s.rows[c.test] == seen then Plan(done, Swap(to))
    else Plan(lost, Nothing)
  }

  /** The next operation of a call; `ok` is false when it returns an error. */
  function PlanOf(owner: TestId -> Contestant, s: State, c: Call, ok: bool): Plan {
    match c.pc
    case Locking =>
      if !ok then Plan(FailNaming, Faulted)
      else if owner(c.test) in s.locks then Plan(Returned, Nothing)
      else Plan(StartReading, Take(owner(c.test)))
    case StartReading => ReadRow(s, c, ok, Running, StartSwapping(SeenIn(s, c)), StartReleasing(true))
    case StartSwapping(seen) =>
      SwapRow(s, c, ok, seen, Running, StartRecording, StartReleasing(false), StartReleasing(true))
    case StartReleasing(failNext) => Plan(if failNext then FailNaming else Returned, Unlock(ok, owner(c.test)))
    case StartRecording => Plan(StartPublishing, If(ok, Record))
    case StartPublishing => Plan(StartRegistering, If(ok, Publish(Running)))
    case StartRegistering => Plan(Returned, Enlist)
    case StopReading => ReadRow(s, c, ok, Stopping, StopSwapping(SeenIn(s, c)), Returned)
    case StopSwapping(seen) => SwapRow(s, c, ok, seen, Stopping, StopNaming, Returned, Returned)
    case StopNaming => Plan(StopPublishing(NameOf(owner, s, c, ok)), Nothing)
    case StopPublishing(named) => Plan(CompleteReading(named), If(ok, Publish(Stopping)))
    case CompleteReading(named) => ReadRow(s, c, ok, Completed, CompleteSwapping(named, SeenIn(s, c)), Returned)
    case CompleteSwapping(named, seen) => SwapRow(s, c, ok, seen, Completed, Finishing(named), Returned, Returned)
    case FailNaming => Plan(FailReading(NameOf(owner, s, c, ok)), Nothing)
    case FailReading(named) => ReadRow(s, c, ok, Failed, FailSwapping(named, SeenIn(s, c)), Returned)
    case FailSwapping(named, seen) => SwapRow(s, c, ok, seen, Failed, FailPublishing(named), Returned, Returned)
    case FailPublishing(named) => Plan(Finishing(named), If(ok, Publish(Failed)))
    case Finishing(named) => Plan(Releasing(named), Finish)
    case Releasing(named) => Plan(Returned, Unlock(ok, named))
    case Returned => Plan(Returned, Nothing)
  }

  function Operate(owner: TestId -> Contestant, s: State, id: CallId, ok: bool): State
    requires id in s.calls
  {
    Do(s, id, PlanOf(owner, s, s.calls[id], ok))
  }

  /** A call that took its contestant's lock in StartTest and has neither started the test nor released. */
  predicate Holding(c: Call) {
    c.pc.StartReading? || c.pc.StartSwapping? || c.pc.StartReleasing?
  }

  /** A call that ended its test and has still to run `finish` to its end. */
  predicate Ending(c: Call) {
    c.pc.FailPublishing? || c.pc.Finishing? || c.pc.Releasing?
  }

  /** A lock does not run out while its test is live, nor under a call that still has it to release. */
  predicate MayExpire(s: State, contestant: Contestant) {
    && contestant in s.locks
    && var t := s.locks[contestant];
       && (t in s.rows ==> !Live(s.rows[t]))
       && forall id :: id in s.calls && s.calls[id].test == t ==> !Holding(s.calls[id]) && !Ending(s.calls[id])
  }

  /** One step; a step that is not possible changes nothing. */
  ghost function Next(owner: TestId -> Contestant, s: State, step: Step): State {
    match step
    case CreateRow(t) => if t in s.rows then s else s.(rows := s.rows[t := Pending])
    case Inject(m) => s.(topic := s.topic + [m])
    case Consume(id, instance) =>
      if id in s.calls || s.consumed >= |s.topic| then s
      else
        var m := s.topic[s.consumed];
        Enter(s.(consumed := s.consumed + 1), id, instance, if m.cause == Running then Start else Stop, m.test)
    case Begin(id, instance, kind, t) => if id in s.calls then s else Enter(s, id, instance, kind, t)
    case Advance(id, ok) => if id in s.calls then Operate(owner, s, id, ok) else s
    case FindOrphan(i, t) => if t in s.rows && Live(s.rows[t]) then s.(orphans := s.orphans + {(i, t)}) else s
    case Reclaim(i, t) => if (i, t) in s.orphans then s.(active := s.active + {(i, t)}) else s
    case Expire(c) => if MayExpire(s, c) then s.(locks := s.locks - {c}) else s
    case Crash(i) =>
      s.(calls := map id | id in s.calls && s.calls[id].instance != i :: s.calls[id],
         active := (set p | p in s.active && p.0 != i), orphans := (set p | p in s.orphans && p.0 != i))
  }

  ghost function Run(owner: TestId -> Contestant, steps: seq<Step>): State {
    if steps == [] then INIT else Next(owner, Run(owner, steps[..|steps| - 1]), steps[|steps| - 1])
  }

  /** The same from any state. */
  ghost function RunFrom(owner: TestId -> Contestant, s: State, steps: seq<Step>): State
    decreases |steps|
  {
    if steps == [] then s else RunFrom(owner, Next(owner, s, steps[0]), steps[1..])
  }

  /** One call performing its next operations alone, each of them working or returning an error. */
  function Advances(id: CallId, oks: seq<bool>): (steps: seq<Step>)
    ensures |steps| == |oks|
  {
    if oks == [] then [] else [Advance(id, oks[0])] + Advances(id, oks[1..])
  }

  lemma RunSnoc(owner: TestId -> Contestant, steps: seq<Step>, e: Step)
    ensures Run(owner, steps + [e]) == Next(owner, Run(owner, steps), e)
  {
    assert (steps + [e])[..|steps|] == steps;
  }

  lemma {:induction false} RunThenFrom(owner: TestId -> Contestant, a: seq<Step>, b: seq<Step>)
    ensures Run(owner, a + b) == RunFrom(owner, Run(owner, a), b)
    decreases |b|
  {
    if b == [] {
      assert a + b == a;
    } else {
      RunSnoc(owner, a, b[0]);
      RunThenFrom(owner, a + [b[0]], b[1..]);
      assert a + b == (a + [b[0]]) + b[1..];
    }
  }

  lemma {:induction false} RunFromAppend(owner: TestId -> Contestant, s: State, a: seq<Step>, b: seq<Step>)
    ensures RunFrom(owner, s, a + b) == RunFrom(owner, RunFrom(owner, s, a), b)
    decreases |a|
  {
    if a == [] {
      assert a + b == b;
    } else {
      assert (a + b)[1..] == a[1..] + b;
      RunFromAppend(owner, Next(owner, s, a[0]), a[1..], b);
    }
  }

  // ----- the invariant -----

  /** The test has a row of at least this rank. */
  predicate Reached(s: State, t: TestId, rank: nat) {
    t in s.rows && Rank(s.rows[t]) >= rank
  }

  /** A name came from a record of a test that had started, so it is the test's own contestant. */
  predicate NameOk(owner: TestId -> Contestant, s: State, t: TestId, named: Contestant) {
    named != "" ==> named == owner(t) && Reached(s, t, 1)
  }

  predicate HasLock(owner: TestId -> Contestant, s: State, t: TestId) {
    owner(t) in s.locks && s.locks[owner(t)] == t
  }

  /** What is true of a call, by where it stands. */
  predicate CallOk(owner: TestId -> Contestant, s: State, id: CallId) {
    id in s.calls ==>
      var c := s.calls[id];
      && (Holding(c) ==> HasLock(owner, s, c.test) && (c.test in s.rows ==> !Live(s.rows[c.test])))
      && (Ending(c) ==> Reached(s, c.test, 3) && NameOk(owner, s, c.test, c.pc.named)
                        && (c.pc.named != "" ==> HasLock(owner, s, c.test)))
      && match c.pc
         case StartSwapping(seen) => seen == Pending
         case StartRecording => Reached(s, c.test, 1)
         case StartPublishing => Reached(s, c.test, 1)
         case StartRegistering => Reached(s, c.test, 1)
         case StopSwapping(seen) => seen == Running
         case StopNaming => Reached(s, c.test, 2)
         case StopPublishing(named) => Reached(s, c.test, 2) && NameOk(owner, s, c.test, named)
         case CompleteReading(named) => Reached(s, c.test, 2) && NameOk(owner, s, c.test, named)
         case CompleteSwapping(named, seen) => seen == Stopping && NameOk(owner, s, c.test, named)
         case FailReading(named) => NameOk(owner, s, c.test, named)
         case FailSwapping(named, seen) => NameOk(owner, s, c.test, named) && Rank(seen) < 3
         case FailPublishing(named) => s.rows[c.test] == Failed
         case _ => true
  }

  /** No two calls hold for, or end, the same test, and none holds for a test whose lock another is
      still to release. */
  predicate PairOk(s: State, i: CallId, j: CallId) {
    i in s.calls && j in s.calls && i != j && s.calls[i].test == s.calls[j].test ==>
      && !(Holding(s.calls[i]) && Holding(s.calls[j]))
      && !(Ending(s.calls[i]) && Ending(s.calls[j]))
      && !(Holding(s.calls[i]) && Ending(s.calls[j]) && s.calls[j].pc.named != "")
  }

  /** A live test has its contestant's lock; only tests that started are recorded or in running sets. */
  predicate TestOk(owner: TestId -> Contestant, s: State, t: TestId) {
    && (t in s.rows && Live(s.rows[t]) ==> HasLock(owner, s, t))
    && (t in s.recorded ==> Reached(s, t, 1))
  }

  predicate ActiveOk(s: State, p: (Instance, TestId)) {
    p in s.active || p in s.orphans ==> Reached(s, p.1, 1)
  }

  ghost predicate Inv(owner: TestId -> Contestant, s: State) {
    && (forall id {:trigger CallOk(owner, s, id)} :: CallOk(owner, s, id))
    && (forall i, j {:trigger PairOk(s, i, j)} :: PairOk(s, i, j))
    && (forall t {:trigger TestOk(owner, s, t)} :: TestOk(owner, s, t))
    && (forall p {:trigger ActiveOk(s, p)} :: ActiveOk(s, p))
  }
}
