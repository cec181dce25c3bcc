/** Bus steps that nothing comes between do together what the pool's and the bus's methods promise. */
module Undisturbed {
  import opened Messages
  import opened Sequences
  import opened Rings
  import opened Feedback
  import opened Connections
  import opened MsgBuffers
  import opened Systems

  /** The next connection can be closed if it has to be. */
  predicate Ready(s: State) {
    s.ring != [] && s.conns[Second(s.ring)].flow.writing == multiset{}
  }

  /** What is left to do with the next connection once it has been checked. */
  function Dealt(s: State): State
    requires Ready(s)
  {
    match s.pc
    case Delete(_, _, _) => BusStep(s)
    case ReplayNext(_, _, _, flush) => if flush then BusStep(BusStep(s)) else BusStep(s)
    case Flush(_, _, _) => BusStep(s)
    case _ => s
  }

  /** The steps of one `prepareNext`, from peeking at the next connection to having dealt with it. */
  function Prepared(s: State): State
    requires s.pc.Peek? && Ready(s)
  {
    Dealt(BusStep(BusStep(s)))
  }

  /** A state just after the check of the next connection, with this outcome. */
  predicate JustChecked(s: State, msg: Message, at: Where, v: Verdict) {
    Ready(s) && s.pc == AfterCheck(msg, at, Second(s.ring), v)
  }

  lemma DealtRemoves(s: State, msg: Message, at: Where)
    requires JustChecked(s, msg, at, Remove)
    ensures var c, d := s.conns[Second(s.ring)], Dealt(s).conns[Second(s.ring)];
      d == c.(connected := false, open := false, closes := c.closes + 1)
  {
  }

  /** What a kept connection looks like once it was replayed to and flushed as decided. */
  predicate Served(c: Conn, d: Conn, v: Verdict, window: seq<Message>)
    requires v.Keep?
  {
    && d.feedback == c.feedback && d.connected == c.connected && d.open == c.open
    && d.failed == StillFailed(v, c.failed)
    && d.log == Answered(c.log, v, c.failed, window)
  }

  lemma DealtWithReplay(s: State, msg: Message, at: Where, flush: bool)
    requires JustChecked(s, msg, at, Keep(true, flush))
    ensures Served(s.conns[Second(s.ring)], Dealt(s).conns[Second(s.ring)], Keep(true, flush), Contents(s.buffer))
  {
  }

  lemma DealtKeeps(s: State, msg: Message, at: Where, v: Verdict)
    requires JustChecked(s, msg, at, v) && v.Keep?
    ensures Served(s.conns[Second(s.ring)], Dealt(s).conns[Second(s.ring)], v, Contents(s.buffer))
  {
    if v.replay {
      DealtWithReplay(s, msg, at, v.flush);
    }
  }

  /** Where the bus goroutine is after dealing with the next connection. */
  function AfterDealing(msg: Message, at: Where, v: Verdict): Pc {
    if v.Keep? then Advance(msg, at)
    else match at
      case AtStart => Peek(msg, AtStart)
      case AtWalk(stop, next) => Retarget(msg, stop, next)
  }

  /** Only the next connection and the ring are touched. */
  ghost predicate RingDealt(s: State, t: State, msg: Message, at: Where, v: Verdict)
    requires s.ring != []
  {
    && t.ring == (if v.Remove? then WithoutSecond(s.ring) else s.ring)
    && t.buffer == s.buffer && t.maxID == s.maxID && t.hist == s.hist && t.pc == AfterDealing(msg, at, v)
    && (v.Remove? ==> Second(s.ring) in t.stale && t.stale[Second(s.ring)] == Third(s.ring))
    && (forall c :: c in s.conns && c != Second(s.ring) ==> c in t.conns && t.conns[c] == s.conns[c])
  }

  function VerdictOn(s: State): Verdict
    requires s.ring != []
  {
    var c := s.conns[Second(s.ring)];
    Decide(StatusOf(c.failed, c.feedback))
  }

  /** What the pool's `PrepareNext` promises about the next connection. */
  lemma PreparedConnection(s: State)
    requires s.pc.Peek? && Ready(s)
    ensures var c, d, v := s.conns[Second(s.ring)], Prepared(s).conns[Second(s.ring)], VerdictOn(s);
      var failed := c.failed + FailedOf(c.feedback);
      && d.feedback == []
      && d.failed == StillFailed(v, failed)
      && d.log == Answered(c.log, v, failed, Contents(s.buffer))
      && d.connected == (c.connected && !v.Remove?)
      && d.open == (c.open && !v.Remove?)
  {
    var t := BusStep(BusStep(s));
    if VerdictOn(s).Remove? {
      DealtRemoves(t, s.pc.msg, s.pc.at);
    } else {
      DealtKeeps(t, s.pc.msg, s.pc.at, VerdictOn(s));
    }
  }

  /** What it promises about the ring. */
  lemma PreparedRing(s: State)
    requires s.pc.Peek? && Ready(s)
    ensures RingDealt(s, Prepared(s), s.pc.msg, s.pc.at, VerdictOn(s))
  {
  }

  /** The removal rule for the whole of `prepareNext`: the next connection leaves the ring if and only if its
      failed messages reach the mark, or it reported a disconnect and no failure. */
  lemma PrepareRemovesIff(s: State)
    requires s.pc.Peek? && Ready(s) && NoDup(s.ring)
    ensures var c := s.conns[Second(s.ring)];
      Second(s.ring) !in Prepared(s).ring <==>
        || |c.failed| + |FailedOf(c.feedback)| >= HIGH_WATER_MARK
        || (Disconnect in c.feedback && forall f :: f in c.feedback ==> !f.Failed?)
  {
    var c := s.conns[Second(s.ring)];
    PreparedRing(s);
    RemovalRule(c.failed, c.feedback);
    WithoutSecondKeeps(s.ring);
    assert Second(s.ring) in s.ring;
  }

  /** A connection that stays is sent all it holds as failed once more, in order, and nothing is held any
      longer, if and only if it reported a success; a disconnect or replay request beside a failure is lost. */
  lemma PrepareFlushesIff(s: State)
    requires s.pc.Peek? && Ready(s) && VerdictOn(s).Keep?
    ensures var c, d := s.conns[Second(s.ring)], Prepared(s).conns[Second(s.ring)];
      var failed := c.failed + FailedOf(c.feedback);
      var replayed := if Replay in c.feedback && FailedOf(c.feedback) == [] then Tagged(Contents(s.buffer), Replayed) else [];
      && d.failed == (if Success in c.feedback then [] else failed)
      && d.log == c.log + replayed + (if Success in c.feedback then Tagged(failed, Flushed) else [])
      && d.feedback == []
  {
    PreparedConnection(s);
  }

  /** The message is sent to the current connection and the next one is peeked at. */
  lemma SentAndPeeked(s: State)
    requires s.pc.Send? && Ready(s)
    ensures var t := BusStep(BusStep(s));
      && t.pc == Peek(s.pc.msg, AtWalk(s.pc.stop, Second(s.ring))) && Ready(t)
      && t.ring == s.ring && VerdictOn(t) == VerdictOn(s)
  {
  }

  /** The stop is moved on if it was the removed connection, and the ring steps on. */
  function SteppedOn(s: State): State
    requires s.pc.Retarget? || s.pc.Advance?
  {
    BusStep(if s.pc.Retarget? then BusStep(s) else s)
  }

  lemma SteppedOnRing(s: State, msg: Message, stop: nat, next: nat)
    requires s.ring != []
    requires s.pc == Advance(msg, AtWalk(stop, next))
      || (s.pc == Retarget(msg, stop, next) && next !in s.ring && next in s.stale)
    ensures var t := SteppedOn(s);
      var end := if s.pc.Retarget? && next == stop then s.stale[next] else stop;
      t.ring == Rotated(s.ring) && t.pc == if t.ring[0] == end then Push(msg) else Send(msg, end)
  {
  }

  /** One iteration of a walk: send, peek, prepare, step on. */
  function Visited(s: State): State
    requires s.pc.Send? && Ready(s)
  {
    SentAndPeeked(s);
    PreparedRing(BusStep(BusStep(s)));
    SteppedOn(Prepared(BusStep(BusStep(s))))
  }

  /** What the bus's `Visit` promises: the ring steps on past a removed connection, and the end of the walk
      moves on if it was the one removed. */
  lemma VisitedRing(s: State)
    requires s.pc.Send? && Ready(s) && NoDup(s.ring)
    requires VerdictOn(s).Remove? ==> |s.ring| >= 2
    ensures var t, removed := Visited(s), VerdictOn(s).Remove?;
      var stop := if removed && Second(s.ring) == s.pc.stop then Third(s.ring) else s.pc.stop;
      && t.ring == Rotated(if removed then WithoutSecond(s.ring) else s.ring)
      && t.pc == if t.ring[0] == stop then Push(s.pc.msg) else Send(s.pc.msg, stop)
  {
    var peeked := BusStep(BusStep(s));
    SentAndPeeked(s);
    PreparedRing(peeked);
    WithoutSecondKeeps(s.ring);
    SteppedOnRing(Prepared(peeked), s.pc.msg, s.pc.stop, Second(s.ring));
  }
}
