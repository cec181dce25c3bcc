/** The whole bus as one interleaved transition system: the bus goroutine between any two of its lock-protected
    operations, the send goroutines, the pods and the goroutines that connect new pods. */
module Systems {
  import opened Messages
  import opened Rings
  import opened Feedback
  import opened Connections
  import opened MsgBuffers

  const HUB: nat := 1
  const BUFFER_SIZE := 128
  const BUS_CHAN_SIZE := 256

  /** Which call of `prepareNext` is running: the one before a walk, or the one inside a walk that
      ends at `stop`, after `next` was peeked at. */
  datatype Where = AtStart | AtWalk(stop: nat, next: nat)

  /** What the bus goroutine does next. */
  datatype Pc =
    | Idle
    | Peek(msg: Message, at: Where)
    | Check(msg: Message, at: Where, target: nat)
    | Delete(msg: Message, at: Where, target: nat)
    | ReplayNext(msg: Message, at: Where, target: nat, flush: bool)
    | Flush(msg: Message, at: Where, target: nat)
    | Retarget(msg: Message, stop: nat, next: nat)
    | Advance(msg: Message, at: Where)
    | Send(msg: Message, stop: nat)
    | PeekNext(msg: Message, stop: nat)
    | Push(msg: Message)
    | Crashed

  /** The ring as a walk started on it, and how often the ring had changed by then. */
  datatype Start = Start(ring: seq<nat>, epoch: nat)

  /** `stale` keeps the next pointer a removed connection was left with; `hist` are the messages taken
      from busChan so far. */
  datatype RawState = State(
    ring: seq<nat>,
    maxID: nat,
    stale: map<nat, nat>,
    conns: map<nat, Conn>,
    busChan: seq<Message>,
    buffer: Buffer,
    hist: seq<Message>,
    pc: Pc,
    starts: seq<Start>,
    epoch: nat)

  predicate Known(s: RawState, at: Where) {
    at.AtWalk? ==> at.next in s.ring || at.next in s.stale
  }

  /** Every pointer the bus goroutine holds leads to a connection. */
  predicate WellFormed(s: RawState) {
    && (forall c :: c in s.ring ==> c in s.conns)
    && (forall m :: m in s.busChan ==> m.Message?)
    && (!s.pc.Idle? && !s.pc.Crashed? ==> s.hist != [] && s.pc.msg.Message?)
    && Shape(s.buffer)
    && match s.pc {
         case Peek(_, at) => Known(s, at)
         case Check(_, at, target) => Known(s, at) && target in s.conns
         case Delete(_, at, target) => Known(s, at) && target in s.conns
         case ReplayNext(_, at, target, _) => Known(s, at) && target in s.conns
         case Flush(_, at, target) => Known(s, at) && target in s.conns
         case Retarget(_, _, next) => next in s.ring || next in s.stale
         case Advance(_, at) => Known(s, at)
         case _ => true
       }
  }

  /** The hub's pod is the only connection at start-up. */
  const INIT := State([HUB], HUB, map[], map[HUB := NewConn(false, 0)], [], Empty(BUFFER_SIZE), [], Idle, [], 0)

  type State = s: RawState | WellFormed(s) witness INIT

  // ---- one step of the bus goroutine ----

  /** Closing a connection waits for its readers; taking a message waits for one. */
  predicate CanBus(s: State) {
    match s.pc
    case Idle => s.busChan != []
    case Delete(_, _, _) => s.ring != [] ==> s.conns[Second(s.ring)].flow.writing == multiset{}
    case Crashed => false
    case _ => true
  }

  /** The next pointer of a connection, also of a removed one. */
  function NextOf(s: State, c: nat): nat
    requires c in s.ring || c in s.stale
  {
    if c in s.ring then Follower(s.ring, c) else s.stale[c]
  }

  function Crash(s: State): State {
    s.(pc := Crashed)
  }

  function Taken(s: State): State
    requires s.pc.Idle? && s.busChan != []
  {
    s.(busChan := s.busChan[1..], hist := s.hist + [s.busChan[0]], pc := Peek(s.busChan[0], AtStart))
  }

  function AfterCheck(msg: Message, at: Where, target: nat, v: Verdict): Pc {
    match v
    case Remove => Delete(msg, at, target)
    case Keep(replay, flush) =>
      if replay then ReplayNext(msg, at, target, flush)
      else if flush then Flush(msg, at, target)
      else Advance(msg, at)
  }

  function Checked(s: State): State
    requires s.pc.Check?
  {
    var c := s.conns[s.pc.target];
    s.(conns := s.conns[s.pc.target := CheckStatus(c)],
       pc := AfterCheck(s.pc.msg, s.pc.at, s.pc.target, Decide(StatusOf(c.failed, c.feedback))))
  }

  function Deleted(s: State): State
    requires s.pc.Delete? && s.ring != [] && CanBus(s)
  {
    var r := Second(s.ring);
    s.(ring := WithoutSecond(s.ring),
       stale := s.stale[r := Third(s.ring)],
       conns := s.conns[r := Disconnected(s.conns[r])],
       epoch := s.epoch + 1,
       pc := match s.pc.at
             case AtStart => Peek(s.pc.msg, AtStart)
             case AtWalk(stop, next) => Retarget(s.pc.msg, stop, next))
  }

  /** How many messages were walked to `c` before the next one that will be. */
  function Position(c: Conn): nat {
    c.born + |Walked(c.log)|
  }

  function ReplayedTo(s: State): State
    requires s.pc.ReplayNext? && s.ring != []
  {
    var r := Second(s.ring);
    var c := s.conns[r];
    s.(conns := s.conns[r := SendAll(c, Contents(s.buffer), Replayed)
                               .(joined := Some(Joined(Position(c), |s.hist| - 1)))],
       pc := if s.pc.flush then Flush(s.pc.msg, s.pc.at, s.pc.target) else Advance(s.pc.msg, s.pc.at))
  }

  function FlushedTo(s: State): State
    requires s.pc.Flush?
  {
    s.(conns := s.conns[s.pc.target := FlushFailed(s.conns[s.pc.target])], pc := Advance(s.pc.msg, s.pc.at))
  }

  function Retargeted(s: State): State
    requires s.pc.Retarget?
  {
    var stop := if s.pc.stop == s.pc.next then NextOf(s, s.pc.next) else s.pc.stop;
    s.(pc := Advance(s.pc.msg, AtWalk(stop, s.pc.next)))
  }

  function Advanced(s: State): State
    requires s.pc.Advance? && s.ring != []
  {
    var ring := Rotated(s.ring);
    match s.pc.at
    case AtStart =>
      s.(ring := ring, pc := Send(s.pc.msg, ring[0]), starts := s.starts + [Start(ring, s.epoch)])
    case AtWalk(stop, _) =>
      s.(ring := ring, pc := if ring[0] == stop then Push(s.pc.msg) else Send(s.pc.msg, stop))
  }

  function SentTo(s: State): State
    requires s.pc.Send? && s.ring != []
  {
    var c := s.conns[s.ring[0]];
    s.(conns := s.conns[s.ring[0] := SendAll(c, [s.pc.msg], Walk)], pc := PeekNext(s.pc.msg, s.pc.stop))
  }

  /** One step of the bus goroutine; using an empty ring dereferences nil. */
  function BusStep(s: State): State
    requires CanBus(s)
  {
    match s.pc
    case Idle => Taken(s)
    case Peek(msg, at) => if s.ring == [] then Crash(s) else s.(pc := Check(msg, at, Second(s.ring)))
    case Check(_, _, _) => Checked(s)
    case Delete(_, _, _) => if s.ring == [] then Crash(s) else Deleted(s)
    case ReplayNext(_, _, _, _) => if s.ring == [] then Crash(s) else ReplayedTo(s)
    case Flush(_, _, _) => FlushedTo(s)
    case Retarget(_, _, _) => Retargeted(s)
    case Advance(_, _) => if s.ring == [] then Crash(s) else Advanced(s)
    case Send(_, _) => if s.ring == [] then Crash(s) else SentTo(s)
    case PeekNext(msg, stop) => if s.ring == [] then Crash(s) else s.(pc := Peek(msg, AtWalk(stop, Second(s.ring))))
    case Push(msg) => s.(buffer := Pushed(s.buffer, msg), pc := Idle)
  }

  // ---- everything else that moves ----

  datatype Action =
    | Bus
    | Connect(wantsReplay: bool)
    | At(conn: nat, act: Act)
    | Emit(conn: nat, msg: Message)

  /** The number of the first message a connection inserted now can be walked to. */
  function NextMessage(s: State): nat {
    if s.pc.Idle? || s.pc.Push? || s.pc.Crashed? then |s.hist| else |s.hist| - 1
  }

  function Connected(s: State, wantsReplay: bool): State {
    var id := s.maxID + 1;
    s.(maxID := id,
       ring := Inserted(s.ring, id),
       conns := s.conns[id := NewConn(wantsReplay, NextMessage(s))],
       epoch := s.epoch + 1)
  }

  /** The hub's onFunc always returns nil and nobody disconnects its pod. */
  predicate CanStep(s: State, a: Action) {
    match a
    case Bus => CanBus(s)
    case Connect(_) => true
    case At(c, act) =>
      && c in s.conns && CanAct(s.conns[c], act)
      && (c == HUB ==> !act.Leave? && !(act.Report? && !act.ok))
    case Emit(c, m) => c in s.conns && m in s.conns[c].pod.recorded && m.Message? && |s.busChan| < BUS_CHAN_SIZE
  }

  function Emitted(s: State, c: nat, m: Message): State
    requires c in s.conns && m.Message?
  {
    var conn := s.conns[c];
    s.(conns := s.conns[c := conn.(pod := conn.pod.(recorded := conn.pod.recorded - multiset{m}))],
       busChan := s.busChan + [m])
  }

  function Step(s: State, a: Action): State
    requires CanStep(s, a)
  {
    match a
    case Bus => BusStep(s)
    case Connect(wantsReplay) => Connected(s, wantsReplay)
    case At(c, act) => s.(conns := s.conns[c := DoAct(s.conns[c], act)])
    case Emit(c, m) => Emitted(s, c, m)
  }

  // ---- runs ----

  datatype Run = Run(states: seq<State>, acts: seq<Action>)

  /** Step `i` of the run follows the rules. */
  ghost predicate Follows(r: Run, i: nat)
    requires |r.states| == |r.acts| + 1 && i < |r.acts|
  {
    CanStep(r.states[i], r.acts[i]) && r.states[i + 1] == Step(r.states[i], r.acts[i])
  }

  ghost predicate IsRun(r: Run) {
    && |r.states| == |r.acts| + 1
    && r.states[0] == INIT
    && forall i {:trigger Follows(r, i)} :: 0 <= i < |r.acts| ==> Follows(r, i)
  }

  lemma RunStep(r: Run, i: nat)
    requires IsRun(r) && i < |r.acts|
    ensures CanStep(r.states[i], r.acts[i]) && r.states[i + 1] == Step(r.states[i], r.acts[i])
  {
    assert Follows(r, i);
  }

  /** Between two bus steps, where one iteration of the walk is one step and so is one preparation. */
  predicate Boundary(pc: Pc) {
    pc.Idle? || pc.Push? || pc.Send? || (pc.Peek? && pc.at.AtStart?)
  }

  /** A run in which pods connect only between bus steps; everything else interleaves freely. */
  ghost predicate Orderly(r: Run) {
    IsRun(r) && forall i :: 0 <= i < |r.acts| ==> r.acts[i].Connect? ==> Boundary(r.states[i].pc)
  }
}
