/** What StartTest, StopTest and FailTest come to when they run alone: each as one sequential program over the
    shared state, proved to be what its single operations add up to, whichever of them return an error. */
module Alone {
  import opened Orchestrator

  // ----- what single statements do -----

  function Changed(s: State, t: TestId, to: Status): State
    requires t in s.rows
  {
    s.(rows := s.rows[t := to], commits := s.commits + [Commit(t, s.rows[t], to)])
  }

  function Said(s: State, m: Message, ok: bool): State {
    if ok then s.(topic := s.topic + [m], published := s.published + [m]) else s
  }

  function Recorded(s: State, t: TestId, ok: bool): State {
    if ok then s.(recorded := s.recorded + {t}) else s
  }

  function Released(s: State, contestant: Contestant, ok: bool): State {
    if ok && contestant != "" then s.(locks := s.locks - {contestant}) else s
  }

  /** The contestant, if this instance runs the test or Redis can say whose it is. */
  function KnownAs(owner: TestId -> Contestant, s: State, i: Instance, t: TestId, ok: bool): Contestant {
    if (i, t) in s.active || (ok && t in s.recorded) then owner(t) else ""
  }

  function Enlisted(s: State, i: Instance, t: TestId): State {
    s.(active := s.active + {(i, t)})
  }

  function Retired(s: State, i: Instance, t: TestId): State {
    s.(active := s.active - {(i, t)}, finished := s.finished + [t])
  }

  /** The last lines of StopTest and FailTest: out of the running set, and the lock released. */
  function Finished(s: State, i: Instance, t: TestId, named: Contestant, ok: bool): State {
    Released(Retired(s, i, t), named, ok)
  }

  // ----- the calls; `oks` says of each operation in turn whether it works -----

  /** Only a test that is not over fails. */
  function FailTest(owner: TestId -> Contestant, s: State, i: Instance, t: TestId, oks: seq<bool>): State
    requires |oks| >= 6
  {
    if t in s.rows && s.rows[t] in {Pending, Running, Stopping} && oks[1] && oks[2]
    then Finished(Said(Changed(s, t, Failed), Message(t, Failed), oks[3]), i, t, KnownAs(owner, s, i, t, oks[0]),
                  oks[5])
    else s
  }

  /** Only a running test stops; it stays stopping when completing it returns an error. */
  function StopTest(owner: TestId -> Contestant, s: State, i: Instance, t: TestId, oks: seq<bool>): State
    requires |oks| >= 8
  {
    if t in s.rows && s.rows[t] == Running && oks[0] && oks[1] then
      var stopping := Said(Changed(s, t, Stopping), Message(t, Stopping), oks[3]);
      if oks[4] && oks[5]
      then Finished(Changed(stopping, t, Completed), i, t, KnownAs(owner, s, i, t, oks[2]), oks[7])
      else stopping
    else s
  }

  /** A pending test starts; any other is refused. If it cannot start, the lock is given back, and the consumer
      fails the test, which does something only if it is pending still. */
  function StartLocked(owner: TestId -> Contestant, s: State, i: Instance, t: TestId, oks: seq<bool>): State
    requires |oks| >= 9
  {
    if !(t in s.rows && s.rows[t] == Pending && oks[0]) then
      FailTest(owner, Released(s, owner(t), oks[1]), i, t, oks[2..])
    else if !oks[1] then FailTest(owner, Released(s, owner(t), oks[2]), i, t, oks[3..])
    else Enlisted(Said(Recorded(Changed(s, t, Running), t, oks[2]), Message(t, Running), oks[3]), i, t)
  }

  /** Nothing happens while the contestant's lock is taken; an error in taking it fails the test. */
  function StartTest(owner: TestId -> Contestant, s: State, i: Instance, t: TestId, oks: seq<bool>): State
    requires |oks| >= 10
  {
    var c := owner(t);
    if !oks[0] then FailTest(owner, s, i, t, oks[1..])
    else if c in s.locks then s
    else StartLocked(owner, s.(locks := s.locks[c := t]), i, t, oks[1..])
  }

  // ----- one call alone -----

  /** One call alone leads from s to r, its operations working or returning an error in turn. */
  predicate AloneTo(owner: TestId -> Contestant, s: State, id: CallId, oks: seq<bool>, r: State)
    decreases |oks|
  {
    if oks == [] then r == s
    else id in s.calls && AloneTo(owner, Operate(owner, s, id, oks[0]), id, oks[1..], r)
  }

  lemma {:induction false} AdvancesAlone(owner: TestId -> Contestant, s: State, id: CallId, oks: seq<bool>)
    requires id in s.calls
    ensures AloneTo(owner, s, id, oks, RunFrom(owner, s, Advances(id, oks)))
    decreases |oks|
  {
    if oks == [] {
    } else {
      AdvancesAlone(owner, Operate(owner, s, id, oks[0]), id, oks[1..]);
      assert Advances(id, oks)[1..] == Advances(id, oks[1..]);
    }
  }

  /** This state, with one call standing here. */
  function At(x: State, id: CallId, pc: Pc): State
    requires id in x.calls
  {
    x.(calls := x.calls[id := x.calls[id].(pc := pc)])
  }

  predicate ReturnedTo(x: State, id: CallId, r: State) {
    id in x.calls && r == At(x, id, Returned)
  }

  predicate AtTo(owner: TestId -> Contestant, x: State, id: CallId, pc: Pc, oks: seq<bool>, r: State) {
    id in x.calls && AloneTo(owner, At(x, id, pc), id, oks, r)
  }

  /** What one operation comes to. */
  predicate Does(owner: TestId -> Contestant, x: State, id: CallId, pc: Pc, ok: bool, y: State, pc': Pc) {
    id in x.calls && id in y.calls && Operate(owner, At(x, id, pc), id, ok) == At(y, id, pc')
  }

  lemma Onward(owner: TestId -> Contestant, x: State, id: CallId, pc: Pc, oks: seq<bool>, r: State, y: State, pc': Pc)
    requires oks != [] && AtTo(owner, x, id, pc, oks, r) && Does(owner, x, id, pc, oks[0], y, pc')
    ensures AtTo(owner, y, id, pc', oks[1..], r)
  {
  }

  lemma Again(x: State, id: CallId, pc: Pc, pc': Pc)
    requires id in x.calls
    ensures At(At(x, id, pc), id, pc') == At(x, id, pc')
  {
    var c := x.calls[id];
    assert x.calls[id := c.(pc := pc)][id := c.(pc := pc')] == x.calls[id := c.(pc := pc')];
  }

  lemma {:induction false} FromReturned(owner: TestId -> Contestant, x: State, id: CallId, oks: seq<bool>, r: State)
    requires AtTo(owner, x, id, Returned, oks, r)
    ensures ReturnedTo(x, id, r)
    decreases |oks|
  {
    if oks == [] {
    } else {
      Again(x, id, Returned, Returned);
      FromReturned(owner, x, id, oks[1..], r);
    }
  }

  // ----- the end of StopTest and FailTest -----

  lemma Releases(owner: TestId -> Contestant, x: State, id: CallId, named: Contestant, ok: bool)
    requires id in x.calls
    ensures Does(owner, x, id, Releasing(named), ok, Released(x, named, ok), Returned)
  {
    Again(x, id, Releasing(named), Returned);
  }

  lemma Retires(owner: TestId -> Contestant, x: State, id: CallId, named: Contestant, ok: bool)
    requires id in x.calls
    ensures Does(owner, x, id, Finishing(named), ok, Retired(x, x.calls[id].instance, x.calls[id].test),
                 Releasing(named))
  {
    Again(x, id, Finishing(named), Releasing(named));
  }

  lemma FromFinishing(owner: TestId -> Contestant, x: State, id: CallId, named: Contestant, oks: seq<bool>, r: State)
    requires |oks| >= 2 && AtTo(owner, x, id, Finishing(named), oks, r)
    ensures ReturnedTo(Finished(x, x.calls[id].instance, x.calls[id].test, named, oks[1]), id, r)
  {
    var y := Retired(x, x.calls[id].instance, x.calls[id].test);
    Retires(owner, x, id, named, oks[0]);
    Onward(owner, x, id, Finishing(named), oks, r, y, Releasing(named));
    Releases(owner, y, id, named, oks[1]);
    Onward(owner, y, id, Releasing(named), oks[1..], r, Released(y, named, oks[1]), Returned);
    FromReturned(owner, Released(y, named, oks[1]), id, oks[1..][1..], r);
  }

  // ----- FailTest -----

  lemma Announces(owner: TestId -> Contestant, x: State, id: CallId, named: Contestant, ok: bool)
    requires id in x.calls
    ensures Does(owner, x, id, FailPublishing(named), ok, Said(x, Message(x.calls[id].test, Failed), ok),
                 Finishing(named))
  {
    Again(x, id, FailPublishing(named), Finishing(named));
  }

  lemma SwapsFailed(owner: TestId -> Contestant, x: State, id: CallId, named: Contestant, seen: Status, ok: bool)
    requires id in x.calls && x.calls[id].test in x.rows && x.rows[x.calls[id].test] == seen
    ensures Does(owner, x, id, FailSwapping(named, seen), ok, if ok then Changed(x, x.calls[id].test, Failed) else x,
                 if ok then FailPublishing(named) else Returned)
  {
    Again(x, id, FailSwapping(named, seen), if ok then FailPublishing(named) else Returned);
  }

  lemma ReadsToFail(owner: TestId -> Contestant, x: State, id: CallId, named: Contestant, ok: bool)
    requires id in x.calls
    ensures var t := x.calls[id].test;
            Does(owner, x, id, FailReading(named), ok, x,
                 if t in x.rows && x.rows[t] in {Pending, Running, Stopping} && ok
                 then FailSwapping(named, x.rows[t]) else Returned)
  {
    var t := x.calls[id].test;
    Again(x, id, FailReading(named),
          if t in x.rows && x.rows[t] in {Pending, Running, Stopping} && ok then FailSwapping(named, x.rows[t])
          else Returned);
  }

  lemma NamesToFail(owner: TestId -> Contestant, x: State, id: CallId, ok: bool)
    requires id in x.calls
    ensures Does(owner, x, id, FailNaming, ok, x,
                 FailReading(KnownAs(owner, x, x.calls[id].instance, x.calls[id].test, ok)))
  {
    Again(x, id, FailNaming, FailReading(KnownAs(owner, x, x.calls[id].instance, x.calls[id].test, ok)));
  }

  /** What FailTest makes of a state once it knows the contestant. */
  function FailNamed(s: State, i: Instance, t: TestId, named: Contestant, oks: seq<bool>): State
    requires |oks| >= 5
  {
    if t in s.rows && s.rows[t] in {Pending, Running, Stopping} && oks[0] && oks[1]
    then Finished(Said(Changed(s, t, Failed), Message(t, Failed), oks[2]), i, t, named, oks[4])
    else s
  }

  lemma FromFailPublishing(owner: TestId -> Contestant, x: State, id: CallId, named: Contestant, oks: seq<bool>,
                           r: State)
    requires |oks| >= 3 && AtTo(owner, x, id, FailPublishing(named), oks, r)
    ensures var i, t := x.calls[id].instance, x.calls[id].test;
            ReturnedTo(Finished(Said(x, Message(t, Failed), oks[0]), i, t, named, oks[2]), id, r)
  {
    var said := Said(x, Message(x.calls[id].test, Failed), oks[0]);
    Announces(owner, x, id, named, oks[0]);
    Onward(owner, x, id, FailPublishing(named), oks, r, said, Finishing(named));
    FromFinishing(owner, said, id, named, oks[1..], r);
  }

  lemma FromFailSwapping(owner: TestId -> Contestant, x: State, id: CallId, named: Contestant, seen: Status,
                         oks: seq<bool>, r: State)
    requires |oks| >= 4 && AtTo(owner, x, id, FailSwapping(named, seen), oks, r)
    requires x.calls[id].test in x.rows && x.rows[x.calls[id].test] == seen
    ensures var i, t := x.calls[id].instance, x.calls[id].test;
            var failed := if oks[0] then Said(Changed(x, t, Failed), Message(t, Failed), oks[1]) else x;
            ReturnedTo(if oks[0] then Finished(failed, i, t, named, oks[3]) else x, id, r)
  {
    var t := x.calls[id].test;
    SwapsFailed(owner, x, id, named, seen, oks[0]);
    if oks[0] {
      Onward(owner, x, id, FailSwapping(named, seen), oks, r, Changed(x, t, Failed), FailPublishing(named));
      FromFailPublishing(owner, Changed(x, t, Failed), id, named, oks[1..], r);
    } else {
      Onward(owner, x, id, FailSwapping(named, seen), oks, r, x, Returned);
      FromReturned(owner, x, id, oks[1..], r);
    }
  }

  lemma FromFailReading(owner: TestId -> Contestant, x: State, id: CallId, named: Contestant, oks: seq<bool>, r: State)
    requires |oks| >= 5 && AtTo(owner, x, id, FailReading(named), oks, r)
    ensures ReturnedTo(FailNamed(x, x.calls[id].instance, x.calls[id].test, named, oks), id, r)
  {
    var t := x.calls[id].test;
    ReadsToFail(owner, x, id, named, oks[0]);
    if t in x.rows && x.rows[t] in {Pending, Running, Stopping} && oks[0] {
      Onward(owner, x, id, FailReading(named), oks, r, x, FailSwapping(named, x.rows[t]));
      FromFailSwapping(owner, x, id, named, x.rows[t], oks[1..], r);
    } else {
      Onward(owner, x, id, FailReading(named), oks, r, x, Returned);
      FromReturned(owner, x, id, oks[1..], r);
    }
  }

  lemma FailsAlone(owner: TestId -> Contestant, x: State, id: CallId, oks: seq<bool>, r: State)
    requires |oks| >= 6 && AtTo(owner, x, id, FailNaming, oks, r)
    ensures ReturnedTo(FailTest(owner, x, x.calls[id].instance, x.calls[id].test, oks), id, r)
  {
    var i, t := x.calls[id].instance, x.calls[id].test;
    var named := KnownAs(owner, x, i, t, oks[0]);
    NamesToFail(owner, x, id, oks[0]);
    Onward(owner, x, id, FailNaming, oks, r, x, FailReading(named));
    FromFailReading(owner, x, id, named, oks[1..], r);
  }

  // ----- StopTest -----

  lemma ReadsToStop(owner: TestId -> Contestant, x: State, id: CallId, ok: bool)
    requires id in x.calls
    ensures var t := x.calls[id].test;
            Does(owner, x, id, StopReading, ok, x,
                 if t in x.rows && x.rows[t] == Running && ok then StopSwapping(Running) else Returned)
  {
    var t := x.calls[id].test;
    Again(x, id, StopReading, if t in x.rows && x.rows[t] == Running && ok then StopSwapping(Running) else Returned);
  }

  lemma SwapsStopping(owner: TestId -> Contestant, x: State, id: CallId, ok: bool)
    requires id in x.calls && x.calls[id].test in x.rows && x.rows[x.calls[id].test] == Running
    ensures Does(owner, x, id, StopSwapping(Running), ok, if ok then Changed(x, x.calls[id].test, Stopping) else x,
                 if ok then StopNaming else Returned)
  {
    Again(x, id, StopSwapping(Running), if ok then StopNaming else Returned);
  }

  lemma NamesToStop(owner: TestId -> Contestant, x: State, id: CallId, ok: bool)
    requires id in x.calls
    ensures Does(owner, x, id, StopNaming, ok, x,
                 StopPublishing(KnownAs(owner, x, x.calls[id].instance, x.calls[id].test, ok)))
  {
    Again(x, id, StopNaming, StopPublishing(KnownAs(owner, x, x.calls[id].instance, x.calls[id].test, ok)));
  }

  lemma AnnouncesStop(owner: TestId -> Contestant, x: State, id: CallId, named: Contestant, ok: bool)
    requires id in x.calls
    ensures Does(owner, x, id, StopPublishing(named), ok, Said(x, Message(x.calls[id].test, Stopping), ok),
                 CompleteReading(named))
  {
    Again(x, id, StopPublishing(named), CompleteReading(named));
  }

  lemma ReadsToComplete(owner: TestId -> Contestant, x: State, id: CallId, named: Contestant, ok: bool)
    requires id in x.calls && x.calls[id].test in x.rows && x.rows[x.calls[id].test] == Stopping
    ensures Does(owner, x, id, CompleteReading(named), ok, x,
                 if ok then CompleteSwapping(named, Stopping) else Returned)
  {
    Again(x, id, CompleteReading(named), if ok then CompleteSwapping(named, Stopping) else Returned);
  }

  lemma SwapsCompleted(owner: TestId -> Contestant, x: State, id: CallId, named: Contestant, ok: bool)
    requires id in x.calls && x.calls[id].test in x.rows && x.rows[x.calls[id].test] == Stopping
    ensures Does(owner, x, id, CompleteSwapping(named, Stopping), ok,
                 if ok then Changed(x, x.calls[id].test, Completed) else x, if ok then Finishing(named) else Returned)
  {
    Again(x, id, CompleteSwapping(named, Stopping), if ok then Finishing(named) else Returned);
  }

  /** What the second half of StopTest makes of a state in which the test is stopping. */
  function Complete(s: State, i: Instance, t: TestId, named: Contestant, oks: seq<bool>): State
    requires |oks| >= 4 && t in s.rows
  {
    if oks[0] && oks[1] then Finished(Changed(s, t, Completed), i, t, named, oks[3]) else s
  }

  lemma FromCompleteReading(owner: TestId -> Contestant, x: State, id: CallId, named: Contestant, oks: seq<bool>,
                            r: State)
    requires |oks| >= 4 && AtTo(owner, x, id, CompleteReading(named), oks, r)
    requires x.calls[id].test in x.rows && x.rows[x.calls[id].test] == Stopping
    ensures ReturnedTo(Complete(x, x.calls[id].instance, x.calls[id].test, named, oks), id, r)
  {
    var t := x.calls[id].test;
    ReadsToComplete(owner, x, id, named, oks[0]);
    if oks[0] {
      Onward(owner, x, id, CompleteReading(named), oks, r, x, CompleteSwapping(named, Stopping));
      SwapsCompleted(owner, x, id, named, oks[1]);
      if oks[1] {
        var y := Changed(x, t, Completed);
        Onward(owner, x, id, CompleteSwapping(named, Stopping), oks[1..], r, y, Finishing(named));
        FromFinishing(owner, y, id, named, oks[1..][1..], r);
      } else {
        Onward(owner, x, id, CompleteSwapping(named, Stopping), oks[1..], r, x, Returned);
        FromReturned(owner, x, id, oks[1..][1..], r);
      }
    } else {
      Onward(owner, x, id, CompleteReading(named), oks, r, x, Returned);
      FromReturned(owner, x, id, oks[1..], r);
    }
  }

  lemma FromStopNaming(owner: TestId -> Contestant, x: State, id: CallId, oks: seq<bool>, r: State)
    requires |oks| >= 6 && AtTo(owner, x, id, StopNaming, oks, r)
    requires x.calls[id].test in x.rows && x.rows[x.calls[id].test] == Stopping
    ensures var i, t := x.calls[id].instance, x.calls[id].test;
            ReturnedTo(Complete(Said(x, Message(t, Stopping), oks[1]), i, t, KnownAs(owner, x, i, t, oks[0]), oks[2..]),
                    id, r)
  {
    var i, t := x.calls[id].instance, x.calls[id].test;
    var named, said := KnownAs(owner, x, i, t, oks[0]), Said(x, Message(t, Stopping), oks[1]);
    NamesToStop(owner, x, id, oks[0]);
    Onward(owner, x, id, StopNaming, oks, r, x, StopPublishing(named));
    AnnouncesStop(owner, x, id, named, oks[1]);
    Onward(owner, x, id, StopPublishing(named), oks[1..], r, said, CompleteReading(named));
    assert oks[1..][1..] == oks[2..];
    FromCompleteReading(owner, said, id, named, oks[2..], r);
  }

  lemma StopsAlone(owner: TestId -> Contestant, x: State, id: CallId, oks: seq<bool>, r: State)
    requires |oks| >= 8 && AtTo(owner, x, id, StopReading, oks, r)
    ensures ReturnedTo(StopTest(owner, x, x.calls[id].instance, x.calls[id].test, oks), id, r)
  {
    var t := x.calls[id].test;
    ReadsToStop(owner, x, id, oks[0]);
    if t in x.rows && x.rows[t] == Running && oks[0] {
      Onward(owner, x, id, StopReading, oks, r, x, StopSwapping(Running));
      SwapsStopping(owner, x, id, oks[1]);
      if oks[1] {
        Onward(owner, x, id, StopSwapping(Running), oks[1..], r, Changed(x, t, Stopping), StopNaming);
        assert oks[1..][1..] == oks[2..] && oks[2..][2..] == oks[4..];
        FromStopNaming(owner, Changed(x, t, Stopping), id, oks[2..], r);
      } else {
        Onward(owner, x, id, StopSwapping(Running), oks[1..], r, x, Returned);
        FromReturned(owner, x, id, oks[1..][1..], r);
      }
    } else {
      Onward(owner, x, id, StopReading, oks, r, x, Returned);
      FromReturned(owner, x, id, oks[1..], r);
    }
  }

  // ----- StartTest -----

  /** The call remembers that taking the lock returned an error. */
  function Faulty(x: State, id: CallId): State
    requires id in x.calls
  {
    x.(calls := x.calls[id := x.calls[id].(fault := true)])
  }

  lemma Locks(owner: TestId -> Contestant, x: State, id: CallId)
    requires id in x.calls
    ensures var t, c := x.calls[id].test, owner(x.calls[id].test);
            if c in x.locks then Does(owner, x, id, Locking, true, x, Returned)
            else Does(owner, x, id, Locking, true, x.(locks := x.locks[c := t]), StartReading)
  {
    Again(x, id, Locking, if owner(x.calls[id].test) in x.locks then Returned else StartReading);
  }

  lemma LockFaults(owner: TestId -> Contestant, x: State, id: CallId)
    requires id in x.calls
    ensures Does(owner, x, id, Locking, false, Faulty(x, id), FailNaming)
  {
    var c := x.calls[id];
    assert x.calls[id := c.(pc := Locking)][id := c.(pc := FailNaming, fault := true)] ==
           x.calls[id := c.(fault := true)][id := c.(fault := true, pc := FailNaming)];
  }

  lemma ReadsToStart(owner: TestId -> Contestant, x: State, id: CallId, ok: bool)
    requires id in x.calls
    ensures var t := x.calls[id].test;
            Does(owner, x, id, StartReading, ok, x,
                 if t in x.rows && x.rows[t] == Pending && ok then StartSwapping(Pending) else StartReleasing(true))
  {
    var t := x.calls[id].test;
    Again(x, id, StartReading,
          if t in x.rows && x.rows[t] == Pending && ok then StartSwapping(Pending) else StartReleasing(true));
  }

  lemma SwapsRunning(owner: TestId -> Contestant, x: State, id: CallId, ok: bool)
    requires id in x.calls && x.calls[id].test in x.rows && x.rows[x.calls[id].test] == Pending
    ensures Does(owner, x, id, StartSwapping(Pending), ok, if ok then Changed(x, x.calls[id].test, Running) else x,
                 if ok then StartRecording else StartReleasing(true))
  {
    Again(x, id, StartSwapping(Pending), if ok then StartRecording else StartReleasing(true));
  }

  lemma GivesBack(owner: TestId -> Contestant, x: State, id: CallId, ok: bool)
    requires id in x.calls
    ensures Does(owner, x, id, StartReleasing(true), ok, Released(x, owner(x.calls[id].test), ok), FailNaming)
  {
    Again(x, id, StartReleasing(true), FailNaming);
  }

  lemma Records(owner: TestId -> Contestant, x: State, id: CallId, ok: bool)
    requires id in x.calls
    ensures Does(owner, x, id, StartRecording, ok, Recorded(x, x.calls[id].test, ok), StartPublishing)
  {
    Again(x, id, StartRecording, StartPublishing);
  }

  lemma AnnouncesStart(owner: TestId -> Contestant, x: State, id: CallId, ok: bool)
    requires id in x.calls
    ensures Does(owner, x, id, StartPublishing, ok, Said(x, Message(x.calls[id].test, Running), ok), StartRegistering)
  {
    Again(x, id, StartPublishing, StartRegistering);
  }

  lemma Enlists(owner: TestId -> Contestant, x: State, id: CallId, ok: bool)
    requires id in x.calls
    ensures Does(owner, x, id, StartRegistering, ok, Enlisted(x, x.calls[id].instance, x.calls[id].test), Returned)
  {
    Again(x, id, StartRegistering, Returned);
  }

  lemma FromStartRecording(owner: TestId -> Contestant, x: State, id: CallId, oks: seq<bool>, r: State)
    requires |oks| >= 3 && AtTo(owner, x, id, StartRecording, oks, r)
    ensures var i, t := x.calls[id].instance, x.calls[id].test;
            ReturnedTo(Enlisted(Said(Recorded(x, t, oks[0]), Message(t, Running), oks[1]), i, t), id, r)
  {
    var i, t := x.calls[id].instance, x.calls[id].test;
    var recorded := Recorded(x, t, oks[0]);
    var said := Said(recorded, Message(t, Running), oks[1]);
    Records(owner, x, id, oks[0]);
    Onward(owner, x, id, StartRecording, oks, r, recorded, StartPublishing);
    AnnouncesStart(owner, recorded, id, oks[1]);
    Onward(owner, recorded, id, StartPublishing, oks[1..], r, said, StartRegistering);
    Enlists(owner, said, id, oks[2]);
    Onward(owner, said, id, StartRegistering, oks[1..][1..], r, Enlisted(said, i, t), Returned);
    FromReturned(owner, Enlisted(said, i, t), id, oks[1..][1..][1..], r);
  }

  lemma FromStartReleasing(owner: TestId -> Contestant, x: State, id: CallId, oks: seq<bool>, r: State)
    requires |oks| >= 7 && AtTo(owner, x, id, StartReleasing(true), oks, r)
    ensures var i, t := x.calls[id].instance, x.calls[id].test;
            ReturnedTo(FailTest(owner, Released(x, owner(t), oks[0]), i, t, oks[1..]), id, r)
  {
    var released := Released(x, owner(x.calls[id].test), oks[0]);
    GivesBack(owner, x, id, oks[0]);
    Onward(owner, x, id, StartReleasing(true), oks, r, released, FailNaming);
    FailsAlone(owner, released, id, oks[1..], r);
  }

  lemma FromStartReading(owner: TestId -> Contestant, x: State, id: CallId, oks: seq<bool>, r: State)
    requires |oks| >= 9 && AtTo(owner, x, id, StartReading, oks, r)
    ensures ReturnedTo(StartLocked(owner, x, x.calls[id].instance, x.calls[id].test, oks), id, r)
  {
    var t := x.calls[id].test;
    ReadsToStart(owner, x, id, oks[0]);
    if t in x.rows && x.rows[t] == Pending && oks[0] {
      Onward(owner, x, id, StartReading, oks, r, x, StartSwapping(Pending));
      SwapsRunning(owner, x, id, oks[1]);
      assert oks[1..][1..] == oks[2..] && oks[2..][1..] == oks[3..];
      if oks[1] {
        Onward(owner, x, id, StartSwapping(Pending), oks[1..], r, Changed(x, t, Running), StartRecording);
        FromStartRecording(owner, Changed(x, t, Running), id, oks[2..], r);
      } else {
        Onward(owner, x, id, StartSwapping(Pending), oks[1..], r, x, StartReleasing(true));
        FromStartReleasing(owner, x, id, oks[2..], r);
      }
    } else {
      Onward(owner, x, id, StartReading, oks, r, x, StartReleasing(true));
      assert oks[1..][1..] == oks[2..];
      FromStartReleasing(owner, x, id, oks[1..], r);
    }
  }

  lemma StartsAlone(owner: TestId -> Contestant, x: State, id: CallId, oks: seq<bool>, r: State)
    requires id in x.calls && |oks| >= 10 && AtTo(owner, x, id, Locking, oks, r)
    ensures var y := if oks[0] then x else Faulty(x, id);
            ReturnedTo(StartTest(owner, y, x.calls[id].instance, x.calls[id].test, oks), id, r)
  {
    var t, c := x.calls[id].test, owner(x.calls[id].test);
    if !oks[0] {
      LockFaults(owner, x, id);
      Onward(owner, x, id, Locking, oks, r, Faulty(x, id), FailNaming);
      FailsAlone(owner, Faulty(x, id), id, oks[1..], r);
    } else {
      Locks(owner, x, id);
      if c in x.locks {
        Onward(owner, x, id, Locking, oks, r, x, Returned);
        FromReturned(owner, x, id, oks[1..], r);
      } else {
        Onward(owner, x, id, Locking, oks, r, x.(locks := x.locks[c := t]), StartReading);
        FromStartReading(owner, x.(locks := x.locks[c := t]), id, oks[1..], r);
      }
    }
  }
}
