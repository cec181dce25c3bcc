/** One pod connection as the bus, the send goroutines and the pod see it: every message handed to it
    is in exactly one place at any time. */
module Connections {
  import opened Messages
  import opened Filters
  import opened Feedback

  /** Why `send` was called. */
  datatype Origin = Walk | Replayed | Flushed

  datatype Sent = Sent(msg: Message, origin: Origin)

  /** The pod side: what its owner can change. `installing` is the onFunc write lock, held from the
      replacement of the filter until the replay request (if any) is on the feedback channel. */
  datatype Pod = Pod(
    listening: bool,
    filter: Filter,
    wantsReplay: bool,
    replayOnce: bool,
    installing: Option<Option<string>>,
    recorded: multiset<Message>,
    leaving: nat,
    dead: bool)

  /** Where a replay entered the connection's own send order, and which message was then in hand. */
  datatype Joined = Joined(at: nat, upto: nat)

  /** Where the messages handed to `send` are: with a send goroutine before or after it took the read
      lock, given up, in messageChan, with a handler goroutine before or inside onFunc, dropped by the
      filter or for want of an onFunc, or handled. */
  datatype Flow = Flow(
    waiting: multiset<Message>,
    writing: multiset<Message>,
    abandoned: multiset<Message>,
    queue: multiset<Message>,
    received: multiset<Message>,
    running: multiset<Message>,
    dropped: multiset<Message>,
    handled: multiset<Message>)

  const NO_FLOW := Flow(multiset{}, multiset{}, multiset{}, multiset{}, multiset{}, multiset{}, multiset{}, multiset{})

  datatype Conn = Conn(
    connected: bool,
    open: bool,
    closes: nat,
    flow: Flow,
    feedback: seq<Feedback>,
    failed: seq<Message>,
    pod: Pod,
    log: seq<Sent>,
    born: nat,
    joined: Option<Joined>)

  const POD_CHAN_SIZE := 128

  function NewPod(wantsReplay: bool): Pod {
    Pod(false, OPEN, wantsReplay, false, None, multiset{}, 0, false)
  }

  /** A connection just inserted while message number `born` is the next one it can take part in. */
  function NewConn(wantsReplay: bool, born: nat): Conn {
    Conn(true, true, 0, NO_FLOW, [], [], NewPod(wantsReplay), [], born, None)
  }

  // ---- what the bus does to a connection ----

  function Tagged(ms: seq<Message>, o: Origin): seq<Sent> {
    seq(|ms|, i requires 0 <= i < |ms| => Sent(ms[i], o))
  }

  /** A `send` call per message, in order: each starts a goroutine. */
  function SendAll(c: Conn, ms: seq<Message>, o: Origin): Conn {
    c.(flow := c.flow.(waiting := c.flow.waiting + multiset(ms)), log := c.log + Tagged(ms, o))
  }

  function CheckStatus(c: Conn): Conn {
    c.(failed := c.failed + FailedOf(c.feedback), feedback := [])
  }

  function FlushFailed(c: Conn): Conn {
    SendAll(c, c.failed, Flushed).(failed := [])
  }

  /** The calls of `send` after a verdict on a connection that holds `failed`, when the buffer holds `window`. */
  function Answered(log: seq<Sent>, v: Verdict, failed: seq<Message>, window: seq<Message>): seq<Sent> {
    match v
    case Remove => log
    case Keep(replay, flush) =>
      var replayed := if replay then log + Tagged(window, Replayed) else log;
      if flush then replayed + Tagged(failed, Flushed) else replayed
  }

  /** What the connection still holds as failed afterwards. */
  function StillFailed(v: Verdict, failed: seq<Message>): seq<Message> {
    if v.Keep? && v.flush then [] else failed
  }

  /** Taking the write lock needs every reader gone. */
  function Disconnected(c: Conn): Conn
    requires c.flow.writing == multiset{}
  {
    c.(connected := false, open := false, closes := c.closes + 1)
  }

  // ---- what send goroutines, handler goroutines and the pod's owner do ----

  datatype Act =
    | Acquire(msg: Message)
    | Write(msg: Message)
    | Receive(msg: Message)
    | Handle(msg: Message)
    | Report(msg: Message, ok: bool)
    | Install(on: bool, only: Option<string>)
    | Installed
    | RecordSend(msg: Message)
    | FilterUUID(uuid: string, allow: bool)
    | FilterType(kind: string, allow: bool)
    | Leave
    | Left
    | Stop

  predicate AsksReplay(p: Pod) {
    p.listening && !p.replayOnce && p.wantsReplay
  }

  /** Does handling `m` now reach the onFunc? */
  predicate Calls(c: Conn, m: Message)
    requires c.pod.listening ==> m.Message?
  {
    c.pod.listening && Allows(c.pod.filter, m)
  }

  predicate CanAct(c: Conn, a: Act) {
    match a
    case Acquire(m) => m in c.flow.waiting
    case Write(m) => m in c.flow.writing && |c.flow.queue| < POD_CHAN_SIZE
    case Receive(m) => m in c.flow.queue
    case Handle(m) => m in c.flow.received && c.pod.installing.None? && (c.pod.listening ==> m.Message?)
    case Report(m, ok) => m in c.flow.running && |c.feedback| < POD_CHAN_SIZE
    case Install(_, _) => c.flow.running == multiset{} && c.pod.installing.None?
    case Installed => c.pod.installing.Some? && (AsksReplay(c.pod) ==> |c.feedback| < POD_CHAN_SIZE)
    case RecordSend(m) => !c.pod.dead && m.Message?
    case FilterUUID(_, _) => true
    case FilterType(_, _) => true
    case Leave => true
    case Left => c.pod.leaving > 0 && |c.feedback| < POD_CHAN_SIZE
    case Stop => !c.open && c.flow.queue == multiset{}
  }

  /** A message moves on; `good` says which way where there are two: still connected, reaches onFunc,
      handled without error. */
  function Passed(f: Flow, a: Act, good: bool): Flow
    requires a.Acquire? || a.Write? || a.Receive? || a.Handle? || a.Report?
  {
    var m := multiset{a.msg};
    match a
    case Acquire(_) =>
      if good then f.(waiting := f.waiting - m, writing := f.writing + m)
      else f.(waiting := f.waiting - m, abandoned := f.abandoned + m)
    case Write(_) => f.(writing := f.writing - m, queue := f.queue + m)
    case Receive(_) => f.(queue := f.queue - m, received := f.received + m)
    case Handle(_) =>
      if good then f.(received := f.received - m, running := f.running + m)
      else f.(received := f.received - m, dropped := f.dropped + m)
    case Report(_, _) =>
      if good then f.(running := f.running - m, handled := f.handled + m) else f.(running := f.running - m)
  }

  function DoAct(c: Conn, a: Act): Conn
    requires CanAct(c, a)
  {
    match a
    case Acquire(m) => c.(flow := Passed(c.flow, a, c.connected))
    case Write(m) => c.(flow := Passed(c.flow, a, true))
    case Receive(m) => c.(flow := Passed(c.flow, a, true))
    case Handle(m) => c.(flow := Passed(c.flow, a, Calls(c, m)))
    case Report(m, ok) =>
      c.(flow := Passed(c.flow, a, ok), feedback := c.feedback + [if ok then Success else Failed(m)])
    case Install(on, only) =>
      c.(pod := c.pod.(filter := OPEN, listening := on, installing := Some(only)))
    case Installed =>
      var p := c.pod.(
        filter := if c.pod.installing.value.Some? then Only(c.pod.filter, c.pod.installing.value.value) else c.pod.filter,
        replayOnce := c.pod.replayOnce || c.pod.listening,
        installing := None);
      c.(pod := p, feedback := if AsksReplay(c.pod) then c.feedback + [Replay] else c.feedback)
    case RecordSend(m) =>
      c.(pod := c.pod.(filter := WithUUID(c.pod.filter, m.uuid, false), recorded := c.pod.recorded + multiset{m}))
    case FilterUUID(uuid, allow) => c.(pod := c.pod.(filter := WithUUID(c.pod.filter, uuid, allow)))
    case FilterType(kind, allow) => c.(pod := c.pod.(filter := WithKind(c.pod.filter, kind, allow)))
    case Leave => c.(pod := c.pod.(dead := true, leaving := c.pod.leaving + 1))
    case Left => c.(pod := c.pod.(leaving := c.pod.leaving - 1), feedback := c.feedback + [Disconnect])
    case Stop => c.(pod := c.pod.(dead := true))
  }

  // ---- what was sent to it ----

  /** Messages sent by a walk or a replay, in order of the calls. */
  function Fresh(log: seq<Sent>): seq<Message> {
    if log == [] then []
    else
      var last := log[|log| - 1];
      Fresh(log[..|log| - 1]) + if last.origin.Flushed? then [] else [last.msg]
  }

  /** Messages sent by a walk, in order of the calls. */
  function Walked(log: seq<Sent>): seq<Message> {
    if log == [] then []
    else
      var last := log[|log| - 1];
      Walked(log[..|log| - 1]) + if last.origin.Walk? then [last.msg] else []
  }

  lemma SentOne(log: seq<Sent>, e: Sent)
    ensures Fresh(log + [e]) == Fresh(log) + if e.origin.Flushed? then [] else [e.msg]
    ensures Walked(log + [e]) == Walked(log) + if e.origin.Walk? then [e.msg] else []
  {
  }

  lemma TaggedLast(log: seq<Sent>, ms: seq<Message>, o: Origin)
    requires ms != []
    ensures log + Tagged(ms, o) == (log + Tagged(ms[..|ms| - 1], o)) + [Sent(ms[|ms| - 1], o)]
  {
  }

  /** Sending a batch extends the fresh and the walked messages by the batch, or not at all. */
  lemma {:induction false} SentBatch(log: seq<Sent>, ms: seq<Message>, o: Origin)
    ensures Fresh(log + Tagged(ms, o)) == Fresh(log) + if o.Flushed? then [] else ms
    ensures Walked(log + Tagged(ms, o)) == Walked(log) + if o.Walk? then ms else []
    decreases ms
  {
    if ms == [] {
      assert log + Tagged(ms, o) == log;
    } else {
      var k := |ms| - 1;
      SentBatch(log, ms[..k], o);
      SentOne(log + Tagged(ms[..k], o), Sent(ms[k], o));
      TaggedLast(log, ms, o);
      assert ms == ms[..k] + [ms[k]];
    }
  }

  /** What a round of the bus loop has to account for, in order: the calls of `send` by walks, and replays of anything
      but what the buffer held. */
  function Noted(log: seq<Sent>, held: seq<Message>): seq<Sent> {
    if log == [] then []
    else
      var last := log[|log| - 1];
      Noted(log[..|log| - 1], held) + if last.origin.Walk? || (last.origin.Replayed? && last.msg !in held) then [last] else []
  }

  lemma {:induction false} NotedBatch(log: seq<Sent>, ms: seq<Message>, o: Origin, held: seq<Message>)
    requires o.Flushed? || (o.Replayed? && forall m :: m in ms ==> m in held)
    ensures Noted(log + Tagged(ms, o), held) == Noted(log, held)
    decreases ms
  {
    if ms == [] {
      assert log + Tagged(ms, o) == log;
    } else {
      var k := |ms| - 1;
      NotedBatch(log, ms[..k], o, held);
      TaggedLast(log, ms, o);
      assert ms[k] in ms;
    }
  }

  /** A replay of what the buffer holds and a flush are not noted. */
  lemma AnsweredNotes(log: seq<Sent>, v: Verdict, failed: seq<Message>, held: seq<Message>)
    ensures Noted(Answered(log, v, failed, held), held) == Noted(log, held)
  {
    NotedBatch(log, held, Replayed, held);
    NotedBatch(log, failed, Flushed, held);
    NotedBatch(log + Tagged(held, Replayed), failed, Flushed, held);
  }

  // ---- conservation and the channel ----

  function InFlow(f: Flow): multiset<Message> {
    f.waiting + f.writing + f.abandoned + f.queue + f.received + f.running + f.dropped + f.handled
  }

  /** Everything the connection was handed and has not lost: in flow, reported as failed, or held as failed. */
  function Held(c: Conn): multiset<Message> {
    InFlow(c.flow) + multiset(FailedOf(c.feedback)) + multiset(c.failed)
  }

  /** How many copies of `x` are in flow, place by place. */
  function FlowCopies(f: Flow, x: Message): nat {
    f.waiting[x] + f.writing[x] + f.abandoned[x] + f.queue[x] + f.received[x] + f.running[x] + f.dropped[x] + f.handled[x]
  }

  function Copies(c: Conn, x: Message): nat {
    FlowCopies(c.flow, x) + multiset(FailedOf(c.feedback))[x] + multiset(c.failed)[x]
  }

  ghost predicate Conserved(c: Conn) {
    forall x :: multiset(Fresh(c.log))[x] == Copies(c, x)
  }

  /** Message by message is the same as place by place. */
  lemma ConservedMeans(c: Conn)
    ensures Conserved(c) <==> multiset(Fresh(c.log)) == Held(c)
  {
  }

  /** The channel is open exactly while the connection is connected, was closed at most once, and
      no writer is still at a closed channel. */
  predicate ChannelSafe(c: Conn) {
    && (c.open <==> c.connected)
    && c.closes == (if c.open then 0 else 1)
    && (!c.open ==> c.flow.writing == multiset{})
  }

  /** A pod that wants a replay makes one request, when it is first given an onFunc, and gets at most one replay. */
  predicate AskedOnce(c: Conn) {
    Requests(c.feedback) + (if c.joined.Some? then 1 else 0) <= if c.pod.wantsReplay && c.pod.replayOnce then 1 else 0
  }

  ghost predicate Sound(c: Conn) {
    Conserved(c) && ChannelSafe(c)
  }

  lemma NewIsSound(wantsReplay: bool, born: nat)
    ensures Sound(NewConn(wantsReplay, born))
  {
  }

  lemma SendKeepsSound(c: Conn, ms: seq<Message>, o: Origin)
    requires Sound(c) && !o.Flushed?
    ensures Sound(SendAll(c, ms, o))
  {
    SentBatch(c.log, ms, o);
  }

  /** A flush moves the failed messages to new send goroutines and changes no total. */
  lemma FlushMoves(c: Conn)
    requires Sound(c)
    ensures Sound(FlushFailed(c))
    ensures forall x :: Copies(FlushFailed(c), x) == Copies(c, x)
    ensures Fresh(FlushFailed(c).log) == Fresh(c.log)
  {
    SentBatch(c.log, c.failed, Flushed);
  }

  lemma ReportMoves(c: Conn, m: Message, ok: bool, x: Message)
    requires CanAct(c, Report(m, ok))
    ensures Copies(DoAct(c, Report(m, ok)), x) == Copies(c, x)
  {
  }

  lemma SenderMoves(c: Conn, a: Act, x: Message)
    requires CanAct(c, a) && (a.Acquire? || a.Write?)
    ensures Copies(DoAct(c, a), x) == Copies(c, x)
  {
  }

  lemma HandlerMoves(c: Conn, a: Act, x: Message)
    requires CanAct(c, a) && (a.Receive? || a.Handle?)
    ensures Copies(DoAct(c, a), x) == Copies(c, x)
  {
  }

  /** No step of a goroutine or of the pod creates or loses a message. */
  lemma ActMoves(c: Conn, a: Act, x: Message)
    requires CanAct(c, a)
    ensures Copies(DoAct(c, a), x) == Copies(c, x)
  {
    if a.Report? {
      ReportMoves(c, a.msg, a.ok, x);
    } else if a.Acquire? || a.Write? {
      SenderMoves(c, a, x);
    } else if a.Receive? || a.Handle? {
      HandlerMoves(c, a, x);
    }
  }

  /** The pod's `replayOnce` lets one request through. */
  lemma ActKeepsAskedOnce(c: Conn, a: Act)
    requires AskedOnce(c) && CanAct(c, a)
    ensures AskedOnce(DoAct(c, a))
  {
  }

  lemma ActKeepsSound(c: Conn, a: Act)
    requires Sound(c) && CanAct(c, a)
    ensures Sound(DoAct(c, a))
  {
    forall x {
      ActMoves(c, a, x);
    }
  }

  /** Goroutines and pods never touch what the bus keeps about a connection. */
  lemma ActKeepsHistory(c: Conn, a: Act)
    requires CanAct(c, a)
    ensures var d := DoAct(c, a);
      d.log == c.log && d.failed == c.failed && d.born == c.born && d.joined == c.joined && d.connected == c.connected
  {
  }

  lemma FailedWasSent(c: Conn, x: Message)
    requires Conserved(c) && (x in c.failed || x in FailedOf(c.feedback))
    ensures x in Fresh(c.log)
  {
    assert multiset(Fresh(c.log))[x] == Copies(c, x);
    assert multiset(c.failed)[x] > 0 || multiset(FailedOf(c.feedback))[x] > 0;
  }

  /** Nothing can have failed on a connection that was never sent anything. */
  lemma NothingFailedYet(c: Conn)
    requires Conserved(c) && Fresh(c.log) == []
    ensures c.failed == [] && FailedOf(c.feedback) == []
  {
    if c.failed != [] {
      FailedWasSent(c, c.failed[0]);
    }
    if FailedOf(c.feedback) != [] {
      FailedWasSent(c, FailedOf(c.feedback)[0]);
    }
  }
}
