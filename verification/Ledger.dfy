/** Where the messages sent to a pod are, told from the steps taken: what was sent, acquired, written, received,
    handled and reported. */
module Ledgers {
  import opened Messages
  import opened Rings
  import opened Connections
  import opened MsgBuffers
  import opened Systems
  import opened SystemSafety
  import opened Delivery
  import opened OwnMessages

  function One(b: bool): nat {
    if b then 1 else 0
  }

  /** How often an act took place at `c` in the first `i` steps. */
  function Times(r: Run, i: nat, c: nat, a: Act): nat
    requires i <= |r.acts|
  {
    if i == 0 then 0 else Times(r, i - 1, c, a) + One(r.acts[i - 1] == At(c, a))
  }

  /** How often a send goroutine with `m` found the connection still in the ring. */
  function Admitted(r: Run, i: nat, c: nat, m: Message): nat
    requires i <= |r.acts| && i <= |r.states|
  {
    if i == 0 then 0
    else Admitted(r, i - 1, c, m) + One(r.acts[i - 1] == At(c, Acquire(m)) && c in r.states[i - 1].ring)
  }

  /** How often a handler's message `m` was one that the pod hears. */
  ghost function Heard(r: Run, i: nat, c: nat, m: Message): nat
    requires i <= |r.acts|
  {
    if i == 0 then 0
    else Heard(r, i - 1, c, m) + One(r.acts[i - 1] == At(c, Handle(m)) && m.Message? && Hears(r, i - 1, c, m))
  }

  /** How many calls of `send` there were for `m`. */
  function Sends(log: seq<Sent>, m: Message): nat {
    if log == [] then 0 else Sends(log[..|log| - 1], m) + One(log[|log| - 1].msg == m)
  }

  function FlowOf(s: State, c: nat): Flow {
    if c in s.conns then s.conns[c].flow else NO_FLOW
  }

  function LogOf(s: State, c: nat): seq<Sent> {
    if c in s.conns then s.conns[c].log else []
  }

  lemma {:induction false} SendsBatch(log: seq<Sent>, ms: seq<Message>, o: Origin, m: Message)
    ensures Sends(log + Tagged(ms, o), m) == Sends(log, m) + multiset(ms)[m]
    decreases ms
  {
    if ms == [] {
      assert log + Tagged(ms, o) == log;
    } else {
      var k := |ms| - 1;
      SendsBatch(log, ms[..k], o, m);
      TaggedLast(log, ms, o);
      assert ms == ms[..k] + [ms[k]];
    }
  }

  /** One step of a flow: `sent` more messages, and what the act, if any, does to a copy of `m`. */
  ghost predicate Moves(f: Flow, g: Flow, a: Act, m: Message, admitted: bool, heard: bool) {
    && g.waiting[m] + One(a == Acquire(m)) == f.waiting[m]
    && g.writing[m] + One(a == Write(m)) == f.writing[m] + One(a == Acquire(m) && admitted)
    && g.abandoned[m] == f.abandoned[m] + One(a == Acquire(m) && !admitted)
    && g.queue[m] + One(a == Receive(m)) == f.queue[m] + One(a == Write(m))
    && g.received[m] + One(a == Handle(m)) == f.received[m] + One(a == Receive(m))
    && g.running[m] + One(a == Report(m, true)) + One(a == Report(m, false)) == f.running[m] + One(a == Handle(m) && heard)
    && g.dropped[m] == f.dropped[m] + One(a == Handle(m) && !heard)
    && g.handled[m] == f.handled[m] + One(a == Report(m, true))
  }

  predicate Stands(f: Flow, a: Act) {
    match a
    case Acquire(m) => m in f.waiting
    case Write(m) => m in f.writing
    case Receive(m) => m in f.queue
    case Handle(m) => m in f.received
    case Report(m, _) => m in f.running
    case _ => false
  }

  lemma SendersMove(f: Flow, a: Act, good: bool, m: Message)
    requires Stands(f, a) && (a.Acquire? || a.Write? || a.Receive?)
    ensures Moves(f, Passed(f, a, good), a, m, good, good)
  {
  }

  lemma HandlersMove(f: Flow, a: Act, good: bool, m: Message)
    requires Stands(f, a) && (a.Handle? || (a.Report? && good == a.ok))
    ensures Moves(f, Passed(f, a, good), a, m, good, good)
  {
  }

  /** This act's message goes where it should: the connection is there, or the pod hears it. */
  predicate GoesOn(c: Conn, a: Act)
    requires CanAct(c, a)
  {
    match a
    case Acquire(_) => c.connected
    case Handle(m) => c.pod.listening && Calls(c, m)
    case Report(_, ok) => ok
    case _ => true
  }

  lemma ActMovesFlow(c: Conn, a: Act, m: Message)
    requires CanAct(c, a)
    ensures Moves(c.flow, DoAct(c, a).flow, a, m, GoesOn(c, a), GoesOn(c, a))
  {
    match a
    case Acquire(_) => SendersMove(c.flow, a, c.connected, m);
    case Write(_) => SendersMove(c.flow, a, true, m);
    case Receive(_) => SendersMove(c.flow, a, true, m);
    case Handle(n) => HandlersMove(c.flow, a, Calls(c, n), m);
    case Report(_, ok) => HandlersMove(c.flow, a, ok, m);
    case _ => assert DoAct(c, a).flow == c.flow;
  }

  /** Nothing but the calls of `send` has happened to the flow. */
  ghost predicate OnlySent(f: Flow, g: Flow, was: seq<Sent>, log: seq<Sent>, m: Message) {
    && g == f.(waiting := g.waiting)
    && g.waiting[m] + Sends(was, m) == f.waiting[m] + Sends(log, m)
  }

  lemma SendAllSends(c: Conn, ms: seq<Message>, o: Origin, m: Message)
    ensures OnlySent(c.flow, SendAll(c, ms, o).flow, c.log, SendAll(c, ms, o).log, m)
  {
    SendsBatch(c.log, ms, o, m);
  }

  lemma FlushSends(s: State, c: nat, m: Message)
    requires s.pc.Flush?
    ensures OnlySent(FlowOf(s, c), FlowOf(FlushedTo(s), c), LogOf(s, c), LogOf(FlushedTo(s), c), m)
  {
    SendAllSends(s.conns[s.pc.target], s.conns[s.pc.target].failed, Flushed, m);
  }

  lemma ReplaySends(s: State, c: nat, m: Message)
    requires s.ring != [] && s.pc.ReplayNext?
    ensures OnlySent(FlowOf(s, c), FlowOf(ReplayedTo(s), c), LogOf(s, c), LogOf(ReplayedTo(s), c), m)
  {
    SendAllSends(s.conns[Second(s.ring)], Contents(s.buffer), Replayed, m);
  }

  lemma WalkSends(s: State, c: nat, m: Message)
    requires s.ring != [] && s.pc.Send?
    ensures OnlySent(FlowOf(s, c), FlowOf(SentTo(s), c), LogOf(s, c), LogOf(SentTo(s), c), m)
  {
    SendAllSends(s.conns[s.ring[0]], [s.pc.msg], Walk, m);
  }

  lemma QuietBusSends(s: State, c: nat)
    requires CanBus(s) && !s.pc.Flush? && !s.pc.ReplayNext? && !s.pc.Send?
    ensures FlowOf(BusStep(s), c) == FlowOf(s, c) && LogOf(BusStep(s), c) == LogOf(s, c)
  {
  }

  lemma BusSends(s: State, t: State, c: nat, m: Message)
    requires s.ring != [] && CanBus(s) && t == BusStep(s)
    ensures OnlySent(FlowOf(s, c), FlowOf(t, c), LogOf(s, c), LogOf(t, c), m)
  {
    match s.pc
    case Flush(_, _, _) => FlushSends(s, c, m);
    case ReplayNext(_, _, _, _) => ReplaySends(s, c, m);
    case Send(_, _) => WalkSends(s, c, m);
    case _ => QuietBusSends(s, c);
  }

  lemma OthersSend(s: State, a: Action, t: State, c: nat, m: Message)
    requires Membership(s) && s.ring != [] && CanStep(s, a) && t == Step(s, a) && !(a.At? && a.conn == c)
    ensures OnlySent(FlowOf(s, c), FlowOf(t, c), LogOf(s, c), LogOf(t, c), m)
  {
    match a
    case Bus => BusSends(s, t, c, m);
    case Connect(_) => assert s.maxID + 1 !in s.conns;
    case At(_, _) =>
    case Emit(_, _) =>
  }

  /** How often `m` has been sent, and how often each act with it has taken place. */
  datatype Counts = Counts(sent: nat, acquired: nat, admitted: nat, written: nat, received: nat, handed: nat, heard: nat,
                           succeeded: nat, failed: nat)

  ghost function CountsAt(r: Run, i: nat, c: nat, m: Message): Counts
    requires i <= |r.acts| && i < |r.states|
  {
    Counts(Sends(LogOf(r.states[i], c), m), Times(r, i, c, Acquire(m)), Admitted(r, i, c, m), Times(r, i, c, Write(m)),
           Times(r, i, c, Receive(m)), Times(r, i, c, Handle(m)), Heard(r, i, c, m),
           Times(r, i, c, Report(m, true)), Times(r, i, c, Report(m, false)))
  }

  /** Every place holds the copies of `m` that came in and have not gone on. */
  ghost predicate Balanced(f: Flow, m: Message, n: Counts) {
    && f.waiting[m] + n.acquired == n.sent
    && f.writing[m] + n.written == n.admitted
    && f.abandoned[m] + n.admitted == n.acquired
    && f.queue[m] + n.received == n.written
    && f.received[m] + n.handed == n.received
    && f.running[m] + n.succeeded + n.failed == n.heard
    && f.dropped[m] + n.heard == n.handed
    && f.handled[m] == n.succeeded
  }

  /** The counts after one more act. */
  function Counted(n: Counts, a: Act, m: Message, admitted: bool, heard: bool): Counts {
    Counts(n.sent, n.acquired + One(a == Acquire(m)), n.admitted + One(a == Acquire(m) && admitted),
           n.written + One(a == Write(m)), n.received + One(a == Receive(m)), n.handed + One(a == Handle(m)),
           n.heard + One(a == Handle(m) && heard), n.succeeded + One(a == Report(m, true)),
           n.failed + One(a == Report(m, false)))
  }

  lemma MovesBalance(f: Flow, g: Flow, n: Counts, a: Act, m: Message, admitted: bool, heard: bool)
    requires Balanced(f, m, n) && Moves(f, g, a, m, admitted, heard)
    ensures Balanced(g, m, Counted(n, a, m, admitted, heard))
  {
  }

  lemma NextMoves(r: Run, i: nat, c: nat, m: Message)
    requires IsRun(r) && i < |r.acts| && r.acts[i].At? && r.acts[i].conn == c
    ensures c in r.states[i].conns && LogOf(r.states[i + 1], c) == LogOf(r.states[i], c)
    ensures Moves(FlowOf(r.states[i], c), FlowOf(r.states[i + 1], c), r.acts[i].act, m,
                  c in r.states[i].ring, m.Message? && Hears(r, i, c, m))
  {
    RunStep(r, i);
    var conn, a := r.states[i].conns[c], r.acts[i].act;
    ActMovesFlow(conn, a, m);
    ActKeepsHistory(conn, a);
    AlwaysSafe(r, i);
    if m.Message? {
      CallsIff(r, i, c, m);
    }
  }

  lemma OwnStepBalances(r: Run, i: nat, c: nat, m: Message)
    requires IsRun(r) && i < |r.acts| && r.acts[i].At? && r.acts[i].conn == c
    requires Balanced(FlowOf(r.states[i], c), m, CountsAt(r, i, c, m))
    ensures Balanced(FlowOf(r.states[i + 1], c), m, CountsAt(r, i + 1, c, m))
  {
    NextMoves(r, i, c, m);
    MovesBalance(FlowOf(r.states[i], c), FlowOf(r.states[i + 1], c), CountsAt(r, i, c, m), r.acts[i].act, m,
                 c in r.states[i].ring, m.Message? && Hears(r, i, c, m));
  }

  lemma OtherStepBalances(r: Run, i: nat, c: nat, m: Message)
    requires IsRun(r) && i < |r.acts| && !(r.acts[i].At? && r.acts[i].conn == c)
    requires Balanced(FlowOf(r.states[i], c), m, CountsAt(r, i, c, m))
    ensures Balanced(FlowOf(r.states[i + 1], c), m, CountsAt(r, i + 1, c, m))
  {
    AlwaysSafe(r, i);
    NeverCrashes(r, i);
    RunStep(r, i);
    OthersSend(r.states[i], r.acts[i], r.states[i + 1], c, m);
  }

  /** In every state of every run, every copy of a message is where the steps so far have brought it. A send goroutine
      gives up if and only if the connection is out of the ring by then; a handler drops its message if and only if
      the pod does not hear it; and no message is anywhere else. */
  lemma {:induction false} AlwaysBalanced(r: Run, i: nat, c: nat, m: Message)
    requires IsRun(r) && i < |r.states|
    ensures Balanced(FlowOf(r.states[i], c), m, CountsAt(r, i, c, m))
  {
    if i > 0 {
      AlwaysBalanced(r, i - 1, c, m);
      if r.acts[i - 1].At? && r.acts[i - 1].conn == c {
        OwnStepBalances(r, i - 1, c, m);
      } else {
        OtherStepBalances(r, i - 1, c, m);
      }
    }
  }

  /** As long as a connection is in the ring, no message sent to it is given up. */
  lemma MembersAbandonNothing(r: Run, i: nat, c: nat, m: Message)
    requires IsRun(r) && i < |r.states| && c in r.states[i].ring
    ensures c in r.states[i].conns && r.states[i].conns[c].flow.abandoned[m] == 0
  {
    AlwaysSafe(r, i);
    AlwaysBalanced(r, i, c, m);
    AllAdmitted(r, i, c, m);
  }

  lemma {:induction false} AllAdmitted(r: Run, i: nat, c: nat, m: Message)
    requires IsRun(r) && i < |r.states| && c in r.states[i].ring
    ensures Admitted(r, i, c, m) == Times(r, i, c, Acquire(m))
  {
    if i > 0 {
      if c in r.states[i - 1].conns {
        MemberWas(r, i - 1, c);
        AllAdmitted(r, i - 1, c, m);
      } else {
        NothingBefore(r, i - 1, c, m);
        RunStep(r, i - 1);
      }
    }
  }

  /** A connection that does not exist yet has done nothing. */
  lemma {:induction false} NothingBefore(r: Run, i: nat, c: nat, m: Message)
    requires IsRun(r) && i < |r.states| && c !in r.states[i].conns
    ensures Times(r, i, c, Acquire(m)) == 0 && Admitted(r, i, c, m) == 0
  {
    if i > 0 {
      RunStep(r, i - 1);
      if c in r.states[i - 1].conns {
        RunKeepsPast(r, i - 1, i, c);
      }
      NothingBefore(r, i - 1, c, m);
    }
  }
}
