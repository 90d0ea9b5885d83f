/** The WebSocket hub (`services/leaderboard-api/hub/websocket_hub.go`): one event loop that owns the
    clients' channels, fed through three queues whose relative order is up to the scheduler. A run is any
    interleaving of connections, disconnections, posts, hub iterations and channel reads. */
module WebSocketHub {
  import opened Common

  const SEND_BUFFER := 256      // messages a client may lag behind
  const BROADCAST_BUFFER := 256
  const REGISTER_BUFFER := 64   // also the capacity of the unregister queue

  type Client = nat
  type Msg = string

  /** A client's channel: everything ever enqueued on it, how much of that the write pump has taken, and
      whether it is closed. */
  datatype Channel = Channel(enqueued: seq<Msg>, taken: nat, closed: bool) {
    predicate Full() {
      |enqueued| >= taken + SEND_BUFFER
    }

    /** The non-blocking send of a broadcast, with the close of a channel that cannot take it. */
    function Offer(m: Msg): Channel {
      if Full() then this.(closed := true) else this.(enqueued := enqueued + [m])
    }
  }

  const OPENED := Channel([], 0, false)

  /** The hub with its queues and every channel so far. `ended` are the clients whose read pump has returned,
      which each does once. `sent` and `since` are history: the broadcasts
      processed so far, and how many there were when a client was let in. `panicked` records a close or a
      send on a closed channel, which Go answers with a panic. */
  datatype State = State(
    maxClients: int,
    clients: set<Client>,
    channels: map<Client, Channel>,
    last: Option<Msg>,
    register: seq<Client>,
    unregister: seq<Client>,
    ended: set<Client>,
    broadcast: seq<Msg>,
    sent: seq<Msg>,
    since: map<Client, nat>,
    panicked: bool)

  datatype Event =
    | Connect(c: Client)   // newClient: a new channel, queued for registration
    | Disconnect(c: Client)  // the end of readPump
    | Post(m: Msg)         // Broadcast
    | TakeRegister         // an iteration of Run ...
    | TakeUnregister
    | TakeBroadcast
    | Drain(c: Client)     // writePump takes a message

  function Initial(maxClients: int): State {
    State(maxClients, {}, map[], None, [], [], {}, [], [], map[], false)
  }

  predicate Closed(s: State, c: Client) {
    c in s.channels && s.channels[c].closed
  }

  /** Close a channel; closing it twice panics. */
  function CloseChannel(s: State, c: Client): State {
    if c in s.channels
    then s.(channels := s.channels[c := s.channels[c].(closed := true)], panicked := s.panicked || Closed(s, c))
    else s
  }

  /** The non-blocking send of the last broadcast to a newcomer. */
  function Greet(s: State, c: Client): State {
    if s.last.None? || c !in s.channels then s
    else if s.channels[c].Full() && !s.channels[c].closed then s
    else s.(channels := s.channels[c := s.channels[c].(enqueued := s.channels[c].enqueued + [s.last.value])],
            panicked := s.panicked || Closed(s, c))
  }

  function LetIn(s: State, c: Client): State {
    if |s.clients| >= s.maxClients then CloseChannel(s, c)
    else Greet(s.(clients := s.clients + {c}, since := s.since[c := |s.sent|]), c)
  }

  function LetOut(s: State, c: Client): State {
    if c in s.clients then CloseChannel(s.(clients := s.clients - {c}), c) else s
  }

  /** One broadcast: every client gets it or is dropped. */
  function FanOut(s: State, m: Msg): State {
    s.(last := Some(m),
       sent := s.sent + [m],
       channels := (map c | c in s.channels :: if c in s.clients then s.channels[c].Offer(m) else s.channels[c]),
       clients := (set c | c in s.clients && !(c in s.channels && s.channels[c].Full())),
       panicked := s.panicked || (exists c :: c in s.clients && Closed(s, c)))
  }

  function Step(s: State, e: Event): State {
    match e
    case Connect(c) =>
      if c in s.channels || |s.register| >= REGISTER_BUFFER then s
      else s.(channels := s.channels[c := OPENED], register := s.register + [c])
    case Disconnect(c) =>
      if c !in s.channels || c in s.ended || |s.unregister| >= REGISTER_BUFFER then s
      else s.(unregister := s.unregister + [c], ended := s.ended + {c})
    case Post(m) =>
      if |s.broadcast| >= BROADCAST_BUFFER then s else s.(broadcast := s.broadcast + [m])
    case TakeRegister =>
      if s.register == [] then s else LetIn(s.(register := s.register[1..]), s.register[0])
    case TakeUnregister =>
      if s.unregister == [] then s else LetOut(s.(unregister := s.unregister[1..]), s.unregister[0])
    case TakeBroadcast =>
      if s.broadcast == [] then s else FanOut(s.(broadcast := s.broadcast[1..]), s.broadcast[0])
    case Drain(c) =>
      if c in s.channels && s.channels[c].taken < |s.channels[c].enqueued|
      then s.(channels := s.channels[c := s.channels[c].(taken := s.channels[c].taken + 1)])
      else s
  }

  function Run(s: State, events: seq<Event>): State {
    if events == [] then s else Step(Run(s, events[..|events| - 1]), events[|events| - 1])
  }

  // ----- what every run keeps -----

  /** The last broadcast at registration, if any, and every later one. */
  function Stream(s: State, c: Client): seq<Msg>
    requires c in s.since
  {
    From(s.sent, s.since[c])
  }

  function From(sent: seq<Msg>, since: nat): seq<Msg> {
    if since > |sent| then [] else if since == 0 then sent else sent[since - 1..]
  }

  /** A channel is waiting, live or closed: an empty one waits in the register queue, an open one of a
      client holds exactly its stream, and a closed one what its stream was up to some point. */
  predicate ClientOk(s: State, c: Client) {
    c in s.channels ==>
      var ch := s.channels[c];
      && ch.taken <= |ch.enqueued| <= ch.taken + SEND_BUFFER
      && (c in s.since ==> s.since[c] <= |s.sent|)
      && if c in s.register then c !in s.clients && !ch.closed && ch.enqueued == [] && c !in s.since
         else if c in s.clients then !ch.closed && c in s.since && ch.enqueued == Stream(s, c)
         else ch.closed && if c in s.since then ch.enqueued <= Stream(s, c) else ch.enqueued == []
  }

  predicate Bookkeeping(s: State) {
    && !s.panicked
    && s.clients <= s.channels.Keys
    && (forall c :: c in s.register ==> c in s.channels) && Once(s.register)
    && (|s.clients| <= s.maxClients || s.clients == {})
    && s.since.Keys <= s.channels.Keys && s.ended <= s.channels.Keys
    && (forall c :: c in s.unregister ==> c in s.ended) && Once(s.unregister)
    && s.last == if s.sent == [] then None else Some(s.sent[|s.sent| - 1])
  }

  ghost predicate Inv(s: State) {
    Bookkeeping(s) && forall c {:trigger ClientOk(s, c)} :: ClientOk(s, c)
  }

  lemma SmallerSet(a: set<Client>, b: set<Client>)
    requires a <= b
    ensures |a| <= |b|
  {
    if a != {} {
      var x :| x in a;
      SmallerSet(a - {x}, b - {x});
    }
  }

  lemma ConnectKeeps(s: State, c: Client)
    requires Inv(s)
    ensures Inv(Step(s, Connect(c)))
  {
    var t := Step(s, Connect(c));
    if t != s {
      OnceMore(s.register, c);
      forall d ensures ClientOk(t, d) { assert ClientOk(s, d); }
    }
  }

  lemma QueueKeeps(s: State, e: Event)
    requires Inv(s) && (e.Disconnect? || e.Post? || e.Drain?)
    ensures Inv(Step(s, e))
  {
    var t := Step(s, e);
    if e.Disconnect? && t != s {
      OnceMore(s.unregister, e.c);
    }
    forall d ensures ClientOk(t, d) { assert ClientOk(s, d); }
  }

  lemma LetInKeeps(s: State, t: State, c: Client)
    requires Inv(s) && s.register != [] && c == s.register[0] && t == Step(s, TakeRegister)
    ensures t.register == s.register[1..] && Bookkeeping(t)
    ensures forall d :: d in t.channels && d != c ==> d in s.channels && t.channels[d] == s.channels[d]
    ensures ClientOk(t, c)
  {
    assert ClientOk(s, c);
    OnceBehind(s.register);
  }

  lemma TakeRegisterKeeps(s: State)
    requires Inv(s)
    ensures Inv(Step(s, TakeRegister))
  {
    if s.register != [] {
      var c, t := s.register[0], Step(s, TakeRegister);
      LetInKeeps(s, t, c);
      assert s.register == [c] + s.register[1..];
      forall d ensures ClientOk(t, d) { assert ClientOk(s, d); }
    }
  }

  lemma TakeUnregisterKeeps(s: State)
    requires Inv(s)
    ensures Inv(Step(s, TakeUnregister))
  {
    if s.unregister != [] {
      var c := s.unregister[0];
      var t := Step(s, TakeUnregister);
      assert ClientOk(s, c);
      OnceBehind(s.unregister);
      SmallerSet(t.clients, s.clients);
      forall d ensures ClientOk(t, d) { assert ClientOk(s, d); }
    }
  }

  /** A processed broadcast extends every stream. */
  lemma StreamGrows(sent: seq<Msg>, m: Msg, c: Client, since: map<Client, nat>)
    ensures c in since && since[c] <= |sent| ==> From(sent + [m], since[c]) == From(sent, since[c]) + [m]
  {
  }

  lemma TakeBroadcastKeeps(s: State)
    requires Inv(s)
    ensures Inv(Step(s, TakeBroadcast))
  {
    if s.broadcast != [] {
      var t := Step(s, TakeBroadcast);
      SmallerSet(t.clients, s.clients);
      forall d ensures ClientOk(t, d) { assert ClientOk(s, d); StreamGrows(s.sent, s.broadcast[0], d, s.since); }
      forall d | d in s.clients ensures !Closed(s, d) { assert ClientOk(s, d); }
    }
  }

  lemma StepKeeps(s: State, e: Event)
    requires Inv(s)
    ensures Inv(Step(s, e))
  {
    match e
    case Connect(c) => ConnectKeeps(s, c);
    case Disconnect(_) => QueueKeeps(s, e);
    case Post(_) => QueueKeeps(s, e);
    case TakeRegister => TakeRegisterKeeps(s);
    case TakeUnregister => TakeUnregisterKeeps(s);
    case TakeBroadcast => TakeBroadcastKeeps(s);
    case Drain(_) => QueueKeeps(s, e);
  }

  lemma {:induction false} RunKeeps(s: State, events: seq<Event>)
    requires Inv(s)
    ensures Inv(Run(s, events))
  {
    if events == [] {
    } else {
      RunKeeps(s, events[..|events| - 1]);
      StepKeeps(Run(s, events[..|events| - 1]), events[|events| - 1]);
    }
  }

  lemma InitialOk(maxClients: int)
    ensures Inv(Initial(maxClients))
  {
    forall c ensures ClientOk(Initial(maxClients), c) { }
  }

  lemma {:induction false} RunAppend(s: State, a: seq<Event>, b: seq<Event>)
    ensures Run(s, a + b) == Run(Run(s, a), b)
    decreases |b|
  {
    if b == [] {
      assert a + b == a;
    } else {
      assert (a + b)[..|a + b| - 1] == a + b[..|b| - 1];
      RunAppend(s, a, b[..|b| - 1]);
    }
  }

  lemma RunSnoc(s: State, events: seq<Event>, e: Event)
    ensures Run(s, events + [e]) == Step(Run(s, events), e)
  {
    assert (events + [e])[..|events|] == events;
  }

  // ----- the guarantees of every run -----

  /** No channel is ever closed twice or sent to after its close, and the clients stay within the limit. */
  lemma ChannelSafety(maxClients: int, events: seq<Event>)
    ensures var s := Run(Initial(maxClients), events);
            !s.panicked && |s.clients| <= if maxClients < 0 then 0 else maxClients
  {
    InitialOk(maxClients);
    RunKeeps(Initial(maxClients), events);
    RunLimit(Initial(maxClients), events);
  }

  lemma StepLimit(s: State, e: Event)
    ensures Step(s, e).maxClients == s.maxClients
  {
  }

  lemma {:induction false} RunLimit(s: State, events: seq<Event>)
    ensures Run(s, events).maxClients == s.maxClients
  {
    if events == [] {
    } else {
      RunLimit(s, events[..|events| - 1]);
      StepLimit(Run(s, events[..|events| - 1]), events[|events| - 1]);
    }
  }

  /** When a client was let in never changes, and broadcasts already processed stay processed. */
  lemma StepHistory(s: State, e: Event, c: Client)
    requires Inv(s) && c in s.since && c !in s.register
    ensures var t := Step(s, e);
            c in t.since && c !in t.register && t.since[c] == s.since[c] && s.sent <= t.sent
  {
  }

  lemma {:induction false} RunHistory(s: State, events: seq<Event>, c: Client)
    requires Inv(s) && c in s.since && c !in s.register
    ensures var t := Run(s, events);
            c in t.since && c !in t.register && t.since[c] == s.since[c] && s.sent <= t.sent
  {
    if events == [] {
    } else {
      RunHistory(s, events[..|events| - 1], c);
      RunKeeps(s, events[..|events| - 1]);
      StepHistory(Run(s, events[..|events| - 1]), events[|events| - 1], c);
    }
  }

  function LastOf(sent: seq<Msg>): seq<Msg> {
    if sent == [] then [] else [sent[|sent| - 1]]
  }

  /** Gap-free delivery. Take any run, and the iteration in which a client is taken off the register
      queue. However the run goes on, what has been enqueued for the client while it is live is the last
      broadcast at that iteration and then every broadcast processed after it; if it was dropped or has
      left, a prefix of that; and if it was refused, nothing. What its write pump has taken is a prefix of
      what was enqueued, by the definition of a channel. */
  lemma GapFree(maxClients: int, before: seq<Event>, after: seq<Event>, c: Client)
    requires Run(Initial(maxClients), before).register != [] && Run(Initial(maxClients), before).register[0] == c
    ensures var s := Run(Initial(maxClients), before);
            var t := Run(Initial(maxClients), before + [TakeRegister] + after);
            && c in t.channels && s.sent <= t.sent
            && var due := LastOf(s.sent) + t.sent[|s.sent|..];
            && (c in t.clients ==> !t.channels[c].closed && t.channels[c].enqueued == due)
            && (c !in t.clients ==> t.channels[c].closed && t.channels[c].enqueued <= due)
            && (|s.clients| >= maxClients ==> c !in t.clients && t.channels[c].enqueued == [])
  {
    var s := Run(Initial(maxClients), before);
    InitialOk(maxClients);
    RunKeeps(Initial(maxClients), before);
    RunLimit(Initial(maxClients), before);
    RunAppend(Initial(maxClients), before + [TakeRegister], after);
    RunSnoc(Initial(maxClients), before, TakeRegister);
    if |s.clients| >= maxClients {
      RefusedGetsNothing(s, after, c);
    } else {
      AdmittedGetsStream(s, after, c);
    }
  }

  lemma AdmittedGetsStream(s: State, after: seq<Event>, c: Client)
    requires Inv(s) && s.register != [] && s.register[0] == c && |s.clients| < s.maxClients
    ensures var t := Run(Step(s, TakeRegister), after);
            && c in t.channels && s.sent <= t.sent
            && var due := LastOf(s.sent) + t.sent[|s.sent|..];
            && (c in t.clients ==> !t.channels[c].closed && t.channels[c].enqueued == due)
            && (c !in t.clients ==> t.channels[c].closed && t.channels[c].enqueued <= due)
  {
    var now := Step(s, TakeRegister);
    assert ClientOk(s, c);
    StepKeeps(s, TakeRegister);
    Admitted(s, c);
    RunHistory(now, after, c);
    RunKeeps(now, after);
    var t := Run(now, after);
    assert ClientOk(t, c);
    Due(s.sent, t.sent);
  }

  lemma Admitted(s: State, c: Client)
    requires Inv(s) && s.register != [] && s.register[0] == c && |s.clients| < s.maxClients
    ensures var now := Step(s, TakeRegister);
            c in now.since && now.since[c] == |s.sent| && c !in now.register && now.sent == s.sent
  {
    OnceBehind(s.register);
  }

  lemma Due(sent: seq<Msg>, later: seq<Msg>)
    requires sent <= later
    ensures From(later, |sent|) == LastOf(sent) + later[|sent|..]
  {
  }

  lemma RefusedGetsNothing(s: State, after: seq<Event>, c: Client)
    requires Inv(s) && s.register != [] && s.register[0] == c && |s.clients| >= s.maxClients
    ensures var t := Run(Step(s, TakeRegister), after);
            Refused(t, c) && s.sent <= t.sent
  {
    assert ClientOk(s, c);
    OnceBehind(s.register);
    StepKeeps(s, TakeRegister);
    RefusedForGood(Step(s, TakeRegister), after, c);
  }

  /** A channel closed at registration stays empty. */
  predicate Refused(s: State, c: Client) {
    c in s.channels && c !in s.clients && c !in s.register && s.channels[c].closed && s.channels[c].enqueued == []
  }

  lemma RefusedStep(s: State, e: Event, c: Client)
    requires Bookkeeping(s) && Refused(s, c)
    ensures Refused(Step(s, e), c) && s.sent <= Step(s, e).sent
  {
  }

  lemma {:induction false} RefusedForGood(s: State, events: seq<Event>, c: Client)
    requires Inv(s) && Refused(s, c)
    ensures Refused(Run(s, events), c) && s.sent <= Run(s, events).sent
  {
    if events == [] {
    } else {
      var front := events[..|events| - 1];
      RefusedForGood(s, front, c);
      RunKeeps(s, front);
      RefusedStep(Run(s, front), events[|events| - 1], c);
    }
  }

  /** A live client is only ever dropped by its own disconnection or by a broadcast that finds its buffer
      full, and then it has not missed any before that one. */
  lemma DropReasons(s: State, e: Event, c: Client)
    requires Inv(s) && c in s.clients && c !in Step(s, e).clients
    ensures || (e == TakeUnregister && s.unregister != [] && s.unregister[0] == c)
            || (e == TakeBroadcast && |s.channels[c].enqueued| == s.channels[c].taken + SEND_BUFFER)
    ensures c in Step(s, e).channels && Step(s, e).channels[c] == s.channels[c].(closed := true)
    ensures c in s.since && s.channels[c].enqueued == Stream(s, c)
  {
    assert ClientOk(s, c);
  }

  /** The posts that found room in the broadcast queue. */
  function Accepted(s: State, events: seq<Event>): seq<Msg> {
    if events == [] then []
    else
      var front, e := events[..|events| - 1], events[|events| - 1];
      Accepted(s, front) + if e.Post? && |Run(s, front).broadcast| < BROADCAST_BUFFER then [e.m] else []
  }

  /** Posts are processed in order, none twice, and none lost once accepted. */
  lemma {:induction false} PostsInOrder(maxClients: int, events: seq<Event>)
    ensures var s := Run(Initial(maxClients), events);
            s.sent + s.broadcast == Accepted(Initial(maxClients), events)
  {
    if events == [] {
    } else {
      var front, e := events[..|events| - 1], events[|events| - 1];
      PostsInOrder(maxClients, front);
      PostStep(Run(Initial(maxClients), front), e);
    }
  }

  lemma PostStep(s: State, e: Event)
    ensures var t := Step(s, e);
            t.sent + t.broadcast ==
            s.sent + s.broadcast + if e.Post? && |s.broadcast| < BROADCAST_BUFFER then [e.m] else []
  {
    if e.TakeBroadcast? && s.broadcast != [] {
      assert s.broadcast == [s.broadcast[0]] + s.broadcast[1..];
    }
  }

  // ----- what reaches a browser -----

  /** What the write pump has taken off a client's channel. */
  function Written(s: State, c: Client): seq<Msg> {
    if c in s.channels && s.channels[c].taken <= |s.channels[c].enqueued|
    then s.channels[c].enqueued[..s.channels[c].taken] else []
  }

  /** The pump is about to take a message. */
  predicate Takes(s: State, e: Event, c: Client) {
    e == Drain(c) && c in s.channels && s.channels[c].taken < |s.channels[c].enqueued|
  }

  /** What it takes in the course of a run. */
  function Taken(s: State, events: seq<Event>, c: Client): seq<Msg> {
    if events == [] then []
    else
      var front, e := events[..|events| - 1], events[|events| - 1];
      var now := Run(s, front);
      Taken(s, front, c) + if Takes(now, e, c) then [now.channels[c].enqueued[now.channels[c].taken]] else []
  }

  lemma ChannelStep(s: State, e: Event, c: Client)
    requires c in s.channels
    ensures c in Step(s, e).channels
    ensures var was, now := s.channels[c], Step(s, e).channels[c];
            was.enqueued <= now.enqueued && now.taken == was.taken + if Takes(s, e, c) then 1 else 0
  {
  }

  lemma NewChannel(s: State, e: Event, c: Client)
    requires c !in s.channels && c in Step(s, e).channels
    ensures Step(s, e).channels[c].taken == 0
  {
  }

  lemma WrittenStep(s: State, e: Event, c: Client)
    requires c in s.channels ==> s.channels[c].taken <= |s.channels[c].enqueued|
    ensures Written(Step(s, e), c) ==
            Written(s, c) + if Takes(s, e, c) then [s.channels[c].enqueued[s.channels[c].taken]] else []
  {
    if c in s.channels {
      ChannelStep(s, e, c);
    } else if c in Step(s, e).channels {
      NewChannel(s, e, c);
    }
  }

  /** Every message is taken once and in order: over any run, what the write pump takes continues what it has taken,
      and all of it is the front of what was enqueued. */
  lemma {:induction false} WrittenInOrder(s: State, events: seq<Event>, c: Client)
    requires Inv(s)
    ensures Written(Run(s, events), c) == Written(s, c) + Taken(s, events, c)
  {
    if events == [] {
    } else {
      var front := events[..|events| - 1];
      WrittenInOrder(s, front, c);
      RunKeeps(s, front);
      assert ClientOk(Run(s, front), c);
      WrittenStep(Run(s, front), events[|events| - 1], c);
    }
  }

  /** And none is held back: a pump that goes on taking comes to the end of what was enqueued. */
  lemma {:induction false} CatchesUp(s: State, c: Client, n: nat)
    requires Inv(s) && c in s.channels && n == |s.channels[c].enqueued| - s.channels[c].taken
    ensures var t := Run(s, seq(n, _ => Drain(c)));
            c in t.channels && Written(t, c) == s.channels[c].enqueued == t.channels[c].enqueued
    decreases n
  {
    assert ClientOk(s, c);
    if n == 0 {
      assert seq(n, _ => Drain(c)) == [];
    } else {
      var next := Step(s, Drain(c));
      StepKeeps(s, Drain(c));
      CatchesUp(next, c, n - 1);
      RunAppend(s, [Drain(c)], seq(n - 1, _ => Drain(c)));
      assert [Drain(c)][..0] == [] && Run(s, [Drain(c)]) == next;
      assert [Drain(c)] + seq(n - 1, _ => Drain(c)) == seq(n, _ => Drain(c));
    }
  }

  class Hub {
    const maxClients: int
    var clients: set<Client>
    var channels: map<Client, Channel>
    var last: Option<Msg>
    var register: seq<Client>
    var unregister: seq<Client>
    var ended: set<Client>
    var broadcast: seq<Msg>
    ghost var sent: seq<Msg>
    ghost var since: map<Client, nat>

    ghost function Now(): State
      reads this
    {
      State(maxClients, clients, channels, last, register, unregister, ended, broadcast, sent, since, false)
    }

    ghost predicate Valid()
      reads this
    {
      Inv(Now())
    }

    constructor (maxClients: int)
      ensures Valid() && Now() == Initial(maxClients)
    {
      this.maxClients := maxClients;
      clients, channels, last := {}, map[], None;
      register, unregister, ended, broadcast := [], [], {}, [];
      sent, since := [], map[];
      new;
      InitialOk(maxClients);
    }

    /** Closing a closed channel would panic. */
    method Close(c: Client)
      requires c in channels && !channels[c].closed
      modifies `channels
      ensures channels == old(channels)[c := old(channels)[c].(closed := true)]
    {
      channels := channels[c := channels[c].(closed := true)];
    }

    /** The send of a select with a default; on a closed channel it would panic. */
    method TrySend(c: Client, m: Msg) returns (ok: bool)
      requires c in channels && !channels[c].closed
      modifies `channels
      ensures ok == !old(channels)[c].Full()
      ensures channels == if ok then old(channels)[c := old(channels)[c].Offer(m)] else old(channels)
    {
      ok := !channels[c].Full();
      if ok {
        channels := channels[c := channels[c].(enqueued := channels[c].enqueued + [m])];
      }
    }

    method NewClient(c: Client)
      requires Valid()
      modifies `channels, `register
      ensures Valid() && Now() == Step(old(Now()), Connect(c))
    {
      StepKeeps(Now(), Connect(c));
      if c !in channels && |register| < REGISTER_BUFFER {
        channels := channels[c := OPENED];
        register := register + [c];
      }
    }

    method Leave(c: Client)
      requires Valid()
      modifies `unregister, `ended
      ensures Valid() && Now() == Step(old(Now()), Disconnect(c))
    {
      StepKeeps(Now(), Disconnect(c));
      if c in channels && c !in ended && |unregister| < REGISTER_BUFFER {
        unregister, ended := unregister + [c], ended + {c};
      }
    }

    method Broadcast(m: Msg)
      requires Valid()
      modifies `broadcast
      ensures Valid() && Now() == Step(old(Now()), Post(m))
    {
      StepKeeps(Now(), Post(m));
      if |broadcast| < BROADCAST_BUFFER {
        broadcast := broadcast + [m];
      }
    }

    method Write(c: Client) returns (m: Option<Msg>)
      requires Valid()
      modifies `channels
      ensures Valid() && Now() == Step(old(Now()), Drain(c))
      ensures m == if c in old(channels) && old(channels)[c].taken < |old(channels)[c].enqueued|
                   then Some(old(channels)[c].enqueued[old(channels)[c].taken]) else None
    {
      StepKeeps(Now(), Drain(c));
      m := None;
      if c in channels && channels[c].taken < |channels[c].enqueued| {
        m := Some(channels[c].enqueued[channels[c].taken]);
        channels := channels[c := channels[c].(taken := channels[c].taken + 1)];
      }
    }

    method OnRegister()
      requires Valid()
      modifies `register, `clients, `channels, `since
      ensures Valid() && Now() == Step(old(Now()), TakeRegister)
    {
      StepKeeps(Now(), TakeRegister);
      if register == [] {
        return;
      }
      var c := register[0];
      assert ClientOk(Now(), c);
      register := register[1..];
      if |clients| >= maxClients {
        Close(c);
        return;
      }
      clients, since := clients + {c}, since[c := |sent|];
      if last.Some? {
        var _ := TrySend(c, last.value);
      }
    }

    method OnUnregister()
      requires Valid()
      modifies `unregister, `clients, `channels
      ensures Valid() && Now() == Step(old(Now()), TakeUnregister)
    {
      StepKeeps(Now(), TakeUnregister);
      if unregister == [] {
        return;
      }
      var c := unregister[0];
      assert ClientOk(Now(), c);
      unregister := unregister[1..];
      if c in clients {
        clients := clients - {c};
        Close(c);
      }
    }

    /** Where the loop over the clients stands with one of them. */
    ghost predicate Visited(was: State, m: Msg, remaining: set<Client>, c: Client)
      reads this
    {
      && (c in channels <==> c in was.channels)
      && (c in was.channels ==>
            channels[c] == if c in was.clients && c !in remaining then was.channels[c].Offer(m) else was.channels[c])
      && (c in clients <==>
            c in was.clients && (c in remaining || !(c in was.channels && was.channels[c].Full())))
      && (c in was.clients ==> c in was.channels && !was.channels[c].closed)
    }

    /** The clients are visited in whatever order the map iteration gives. */
    method OnBroadcast()
      requires Valid()
      modifies `broadcast, `last, `clients, `channels, `sent
      ensures Valid() && Now() == Step(old(Now()), TakeBroadcast)
    {
      StepKeeps(Now(), TakeBroadcast);
      if broadcast == [] {
        return;
      }
      var msg := broadcast[0];
      broadcast := broadcast[1..];
      last, sent := Some(msg), sent + [msg];
      forall c | c in clients ensures !Closed(old(Now()), c) { assert ClientOk(old(Now()), c); }
      ghost var was := Now();
      var remaining := clients;
      while remaining != {}
        invariant remaining <= clients && forall c {:trigger Visited(was, msg, remaining, c)} ::
          Visited(was, msg, remaining, c)
        modifies `clients, `channels
        decreases remaining
      {
        label before:
        var c :| c in remaining;
        assert Visited(was, msg, remaining, c);
        var ok := TrySend(c, msg);
        if !ok {
          Close(c);
          clients := clients - {c};
        }
        forall d ensures Visited(was, msg, remaining - {c}, d) { assert old@before(Visited(was, msg, remaining, d)); }
        remaining := remaining - {c};
      }
      ghost var after := Step(old(Now()), TakeBroadcast);
      forall c
        ensures (c in clients <==> c in after.clients) && (c in channels <==> c in after.channels)
        ensures c in channels ==> channels[c] == after.channels[c]
      {
        assert Visited(was, msg, remaining, c);
      }
      assert clients == after.clients && channels == after.channels;
    }

    /** The event loop, with the scheduler's choices given. */
    method Serve(schedule: seq<Event>)
      requires Valid()
      modifies this
      ensures Valid() && Now() == Run(old(Now()), schedule)
    {
      for i := 0 to |schedule|
        invariant Valid() && Now() == Run(old(Now()), schedule[..i])
      {
        assert schedule[..i + 1][..i] == schedule[..i];
        match schedule[i]
        case Connect(c) => NewClient(c);
        case Disconnect(c) => Leave(c);
        case Post(m) => Broadcast(m);
        case TakeRegister => OnRegister();
        case TakeUnregister => OnUnregister();
        case TakeBroadcast => OnBroadcast();
        case Drain(c) => var _ := Write(c);
      }
      assert schedule[..|schedule|] == schedule;
    }
  }
}
