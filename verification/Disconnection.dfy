/** When a disconnection takes effect. The hub's queues are independent, so it may turn to a client's
    disconnection before its registration; this module says exactly when the client stays out, and for how
    long it stays in otherwise. */
module Disconnection {
  import opened Common
  import opened WebSocketHub

  /** Neither a client nor waiting to be one. */
  predicate Out(s: State, c: Client) {
    c in s.channels && c !in s.clients && c !in s.register
  }

  lemma OutStep(s: State, e: Event, c: Client)
    requires Out(s, c)
    ensures Out(Step(s, e), c)
  {
  }

  lemma {:induction false} OutForGood(s: State, events: seq<Event>, c: Client)
    requires Out(s, c)
    ensures Out(Run(s, events), c)
  {
    if events == [] {
    } else {
      OutForGood(s, events[..|events| - 1], c);
      OutStep(Run(s, events[..|events| - 1]), events[|events| - 1], c);
    }
  }

  /** The client's one disconnection has been processed. */
  predicate Processed(s: State, c: Client) {
    c in s.ended && c !in s.unregister
  }

  lemma TakenIsProcessed(s: State, c: Client)
    requires Inv(s) && s.unregister != [] && s.unregister[0] == c
    ensures var t := Step(s, TakeUnregister);
            Processed(t, c) && t.register == s.register && t.maxClients == s.maxClients
    ensures c !in s.register ==> Out(Step(s, TakeUnregister), c)
  {
    OnceBehind(s.unregister);
  }

  lemma ProcessedStep(s: State, e: Event, c: Client)
    requires Processed(s, c)
    ensures Processed(Step(s, e), c)
  {
  }

  lemma {:induction false} ProcessedForGood(s: State, events: seq<Event>, c: Client)
    requires Processed(s, c)
    ensures Processed(Run(s, events), c)
  {
    if events == [] {
    } else {
      ProcessedForGood(s, events[..|events| - 1], c);
      ProcessedStep(Run(s, events[..|events| - 1]), events[|events| - 1], c);
    }
  }

  // ----- the queues are served in turn -----

  lemma Counts(events: seq<Event>, e: Event)
    requires events != []
    ensures multiset(events)[e] ==
            multiset(events[..|events| - 1])[e] + if events[|events| - 1] == e then 1 else 0
  {
    assert events == events[..|events| - 1] + [events[|events| - 1]];
  }

  /** c is at place k of the unregister queue, and not waiting to register. */
  predicate Leaving(s: State, c: Client, k: int) {
    0 <= k < |s.unregister| && s.unregister[k] == c && c in s.channels && c !in s.register
  }

  lemma LeavingStep(s: State, e: Event, c: Client, k: int)
    requires Inv(s) && Leaving(s, c, k)
    ensures if e != TakeUnregister then Leaving(Step(s, e), c, k)
            else if k > 0 then Leaving(Step(s, e), c, k - 1)
            else Out(Step(s, e), c)
  {
  }

  lemma {:induction false} LeavesInTurn(s: State, events: seq<Event>, c: Client, k: nat)
    requires Inv(s) && Leaving(s, c, k)
    ensures var taken := multiset(events)[TakeUnregister];
            if taken <= k then Leaving(Run(s, events), c, k - taken) else Out(Run(s, events), c)
  {
    if events == [] {
    } else {
      var front, e := events[..|events| - 1], events[|events| - 1];
      LeavesInTurn(s, front, c, k);
      Counts(events, TakeUnregister);
      RunKeeps(s, front);
      var taken := multiset(front)[TakeUnregister];
      if taken <= k {
        LeavingStep(Run(s, front), e, c, k - taken);
      } else {
        OutStep(Run(s, front), e, c);
      }
    }
  }

  /** The browser of a client disconnects: however the run goes on, once the hub has turned to the unregister queue
      once for everyone ahead and once more, the client is none, its channel is closed, and that for good. */
  lemma LeaverLeaves(s: State, c: Client, events: seq<Event>)
    requires Inv(s) && c in s.clients && c !in s.ended && |s.unregister| < 64
    requires multiset(events)[TakeUnregister] > |s.unregister|
    ensures var t := Run(s, [Disconnect(c)] + events);
            c !in t.clients && c !in t.register && c in t.channels && t.channels[c].closed
  {
    var t := Step(s, Disconnect(c));
    assert ClientOk(s, c);
    StepKeeps(s, Disconnect(c));
    assert [Disconnect(c)][..0] == [] && Run(s, [Disconnect(c)]) == t;
    LeavesInTurn(t, events, c, |s.unregister|);
    RunAppend(s, [Disconnect(c)], events);
    RunKeeps(t, events);
    assert ClientOk(Run(t, events), c);
  }

  /** c is at place k of the register queue. */
  predicate Waiting(s: State, c: Client, k: int) {
    0 <= k < |s.register| && s.register[k] == c
  }

  lemma WaitingStep(s: State, e: Event, c: Client, k: int)
    requires Inv(s) && Waiting(s, c, k)
    ensures if e != TakeRegister then Waiting(Step(s, e), c, k)
            else if k > 0 then Waiting(Step(s, e), c, k - 1)
            else c !in Step(s, e).register && c in Step(s, e).channels
  {
    OnceBehind(s.register);
  }

  lemma ServedStep(s: State, e: Event, c: Client)
    requires c !in s.register && c in s.channels
    ensures c !in Step(s, e).register && c in Step(s, e).channels
  {
  }

  lemma {:induction false} ServedInTurn(s: State, events: seq<Event>, c: Client, k: nat)
    requires Inv(s) && Waiting(s, c, k)
    ensures var t, taken := Run(s, events), multiset(events)[TakeRegister];
            if taken <= k then Waiting(t, c, k - taken) else c !in t.register && c in t.channels
  {
    if events == [] {
    } else {
      var front, e := events[..|events| - 1], events[|events| - 1];
      ServedInTurn(s, front, c, k);
      Counts(events, TakeRegister);
      RunKeeps(s, front);
      var taken := multiset(front)[TakeRegister];
      if taken <= k {
        WaitingStep(Run(s, front), e, c, k - taken);
      } else {
        ServedStep(Run(s, front), e, c);
      }
    }
  }

  /** A browser connects: once the hub has turned to the register queue for everyone who was waiting, the newcomer
      is the next; and once more, it waits no longer. */
  lemma NewcomerIsServed(s: State, c: Client, events: seq<Event>)
    requires Inv(s) && c !in s.channels && |s.register| < 64
    ensures var t, taken := Run(s, [Connect(c)] + events), multiset(events)[TakeRegister];
            && c in t.channels
            && (taken < |s.register| ==> c in t.register)
            && (taken == |s.register| ==> t.register != [] && t.register[0] == c)
            && (taken > |s.register| ==> c !in t.register)
  {
    var t := Step(s, Connect(c));
    StepKeeps(s, Connect(c));
    assert [Connect(c)][..0] == [] && Run(s, [Connect(c)]) == t;
    ServedInTurn(t, events, c, |s.register|);
    RunAppend(s, [Connect(c)], events);
    RunKeeps(t, events);
  }

  // ----- a client that nothing will disconnect -----

  predicate Lingers(s: State, c: Client) {
    c in s.clients && Processed(s, c)
  }

  /** A broadcast that finds the client's buffer full. */
  predicate Overruns(s: State, e: Event, c: Client) {
    e.TakeBroadcast? && s.broadcast != [] && c in s.channels && s.channels[c].Full()
  }

  /** There is such a broadcast in the run. */
  predicate Overrun(s: State, events: seq<Event>, c: Client) {
    events != [] &&
    var front := events[..|events| - 1];
    Overrun(s, front, c) || Overruns(Run(s, front), events[|events| - 1], c)
  }

  lemma LingersStep(s: State, e: Event, c: Client)
    requires Inv(s) && Lingers(s, c)
    ensures if Overruns(s, e, c) then Out(Step(s, e), c) else Lingers(Step(s, e), c)
  {
    assert ClientOk(s, c);
    ProcessedStep(s, e, c);
  }

  /** Such a client is a client still, after any run, exactly when no broadcast has found its buffer full. */
  lemma {:induction false} LingersUntilOverrun(s: State, events: seq<Event>, c: Client)
    requires Inv(s) && Lingers(s, c)
    ensures if Overrun(s, events, c) then Out(Run(s, events), c) else Lingers(Run(s, events), c)
  {
    if events == [] {
    } else {
      var front := events[..|events| - 1];
      LingersUntilOverrun(s, front, c);
      RunKeeps(s, front);
      if Overrun(s, front, c) {
        OutStep(Run(s, front), events[|events| - 1], c);
      } else {
        LingersStep(Run(s, front), events[|events| - 1], c);
      }
    }
  }

  // ----- room can always be made -----

  /** k rounds of posting and broadcasting. */
  function Flood(k: nat): seq<Event> {
    if k == 0 then [] else Flood(k - 1) + [Post("")] + [TakeBroadcast]
  }

  /** A live client has at least k messages to take. */
  predicate LagsBy(s: State, c: Client, k: nat) {
    c in s.clients ==> c in s.channels && |s.channels[c].enqueued| >= s.channels[c].taken + k
  }

  ghost predicate AllLag(s: State, k: nat) {
    forall c {:trigger LagsBy(s, c, k)} :: LagsBy(s, c, k)
  }

  /** After k rounds from s: everybody left lags by k, and the register queue is as it was. */
  ghost predicate FloodOk(s: State, t: State, k: nat) {
    Inv(t) && AllLag(t, k) && t.register == s.register && t.maxClients == s.maxClients
  }

  function Round(s: State): State {
    Step(Step(s, Post("")), TakeBroadcast)
  }

  lemma FloodRound(s: State, t: State, k: nat, next: nat)
    requires FloodOk(s, t, k) && next == k + 1
    ensures FloodOk(s, Round(t), next)
  {
    StepKeeps(t, Post(""));
    StepKeeps(Step(t, Post("")), TakeBroadcast);
    forall c ensures LagsBy(Round(t), c, next) { assert LagsBy(t, c, k); }
  }

  function Flooded(s: State, k: nat): State {
    if k == 0 then s else Round(Flooded(s, k - 1))
  }

  lemma {:induction false} FloodedIsRun(s: State, k: nat)
    ensures Run(s, Flood(k)) == Flooded(s, k)
  {
    if k == 0 {
    } else {
      FloodedIsRun(s, k - 1);
      RunSnoc(s, Flood(k - 1), Post(""));
      RunSnoc(s, Flood(k - 1) + [Post("")], TakeBroadcast);
    }
  }

  lemma {:induction false} FloodLags(s: State, k: nat)
    requires Inv(s)
    ensures FloodOk(s, Flooded(s, k), k)
  {
    if k == 0 {
      forall c ensures LagsBy(s, c, k) { assert ClientOk(s, c); }
    } else {
      FloodLags(s, k - 1);
      FloodRound(s, Flooded(s, k - 1), k - 1, k);
    }
  }

  /** Enough broadcasts that nobody takes drop every client. */
  lemma FloodEmpties(s: State, rounds: nat)
    requires Inv(s) && rounds > SEND_BUFFER
    ensures var t := Run(s, Flood(rounds));
            Inv(t) && t.clients == {} && t.register == s.register && t.maxClients == s.maxClients
  {
    FloodLags(s, rounds);
    FloodedIsRun(s, rounds);
    var t := Flooded(s, rounds);
    forall c ensures c !in t.clients { assert ClientOk(t, c) && LagsBy(t, c, rounds); }
  }

  /** Make room and take a registration. */
  function MakeRoom(rounds: nat): seq<Event> {
    Flood(rounds) + [TakeRegister]
  }

  lemma RoomMade(s: State, rounds: nat) returns (t: State)
    requires Inv(s) && s.maxClients >= 1 && s.register != [] && rounds > SEND_BUFFER
    ensures t == Run(s, MakeRoom(rounds)) && Inv(t) && t.maxClients == s.maxClients
    ensures t.register == s.register[1..] && s.register[0] in t.clients
  {
    var emptied := Run(s, Flood(rounds));
    t := Step(emptied, TakeRegister);
    FloodEmpties(s, rounds);
    RunSnoc(s, Flood(rounds), TakeRegister);
    StepKeeps(emptied, TakeRegister);
    StepLimit(emptied, TakeRegister);
    FirstGetsIn(emptied, s.register[0]);
  }

  /** A client in the register queue can always come to be let in. */
  lemma {:induction false} QueuedGetsIn(s: State, c: Client, k: nat, rounds: nat) returns (after: seq<Event>)
    requires Inv(s) && s.maxClients >= 1 && k < |s.register| && s.register[k] == c && rounds > SEND_BUFFER
    ensures c in Run(s, after).clients
    decreases k
  {
    var t := RoomMade(s, rounds);
    after := MakeRoom(rounds);
    if k > 0 {
      var later := QueuedGetsIn(t, c, k - 1, rounds);
      RunAppend(s, after, later);
      after := after + later;
    }
  }

  lemma FirstGetsIn(s: State, c: Client)
    requires Inv(s) && |s.clients| < s.maxClients && s.register != [] && s.register[0] == c
    ensures c in Step(s, TakeRegister).clients && Step(s, TakeRegister).register == s.register[1..]
  {
    assert ClientOk(s, c);
  }

  // ----- when a disconnection sticks -----

  /** Exactly when a processed disconnection sticks: the client is out for good, however the run goes on, if
      and only if it was not waiting in the register queue (or the hub lets nobody in at all). */
  lemma SticksExactly(s: State, c: Client)
    requires Inv(s) && s.unregister != [] && s.unregister[0] == c
    ensures (forall after {:trigger Run(Step(s, TakeUnregister), after)} ::
               c !in Run(Step(s, TakeUnregister), after).clients)
            <==> (c !in s.register || s.maxClients <= 0)
  {
    var t := Step(s, TakeUnregister);
    TakenIsProcessed(s, c);
    StepKeeps(s, TakeUnregister);
    if c !in s.register {
      forall after ensures c !in Run(t, after).clients { OutForGood(t, after, c); }
    } else if s.maxClients <= 0 {
      forall after ensures c !in Run(t, after).clients {
        RunKeeps(t, after);
        RunLimit(t, after);
      }
    } else {
      var k :| 0 <= k < |s.register| && s.register[k] == c;
      var rounds: nat :| rounds > SEND_BUFFER;
      var after := QueuedGetsIn(t, c, k, rounds);
    }
  }

  /** The same of every run: a disconnection taken when the client is not waiting takes it out for good. */
  lemma DisconnectionSticks(maxClients: int, before: seq<Event>, after: seq<Event>, c: Client)
    requires var s := Run(Initial(maxClients), before);
             s.unregister != [] && s.unregister[0] == c && c !in s.register
    ensures c !in Run(Initial(maxClients), before + [TakeUnregister] + after).clients
  {
    var s := Run(Initial(maxClients), before);
    InitialOk(maxClients);
    RunKeeps(Initial(maxClients), before);
    TakenIsProcessed(s, c);
    OutForGood(Step(s, TakeUnregister), after, c);
    RunAppend(Initial(maxClients), before + [TakeUnregister], after);
    RunSnoc(Initial(maxClients), before, TakeUnregister);
  }

  /** And the other case: once a client has been let in after its disconnection, it is a client still after any
      run exactly when no broadcast has found its buffer full. */
  lemma LateRegistration(maxClients: int, before: seq<Event>, after: seq<Event>, c: Client)
    requires var s := Run(Initial(maxClients), before);
             Processed(s, c) && s.register != [] && s.register[0] == c && |s.clients| < maxClients
    ensures var s := Step(Run(Initial(maxClients), before), TakeRegister);
            var t := Run(Initial(maxClients), before + [TakeRegister] + after);
            c in s.clients && (c in t.clients <==> !Overrun(s, after, c))
  {
    var s := Run(Initial(maxClients), before);
    InitialOk(maxClients);
    RunKeeps(Initial(maxClients), before);
    RunLimit(Initial(maxClients), before);
    FirstGetsIn(s, c);
    ProcessedStep(s, TakeRegister, c);
    StepKeeps(s, TakeRegister);
    LingersUntilOverrun(Step(s, TakeRegister), after, c);
    RunAppend(Initial(maxClients), before + [TakeRegister], after);
    RunSnoc(Initial(maxClients), before, TakeRegister);
  }

  /** It does happen: a connection whose read pump ends at once, with the hub turning to the unregister queue
      first. */
  lemma EarlyLeaveLingers(maxClients: int, c: Client)
    requires maxClients >= 1
    ensures var s := Run(Initial(maxClients), [Connect(c), Disconnect(c), TakeUnregister, TakeRegister]);
            Lingers(s, c)
  {
    var s0 := Initial(maxClients);
    var s1 := Step(s0, Connect(c));
    var s2 := Step(s1, Disconnect(c));
    var s3 := Step(s2, TakeUnregister);
    assert Run(s0, [Connect(c)]) == s1 by { assert [Connect(c)][..0] == []; }
    assert Run(s0, [Connect(c), Disconnect(c)]) == s2 by {
      assert [Connect(c), Disconnect(c)][..1] == [Connect(c)];
    }
    assert Run(s0, [Connect(c), Disconnect(c), TakeUnregister]) == s3 by {
      assert [Connect(c), Disconnect(c), TakeUnregister][..2] == [Connect(c), Disconnect(c)];
    }
    assert [Connect(c), Disconnect(c), TakeUnregister, TakeRegister][..3] ==
           [Connect(c), Disconnect(c), TakeUnregister];
  }
}
