/** What every connection is sent by the walks: each message once, in order, with no gap, as long as no walk
    loses sight of its end. */
module Delivery {
  import opened Messages
  import opened Sequences
  import opened Rings
  import opened Connections
  import opened MsgBuffers
  import opened Systems
  import opened SystemSafety

  /** How far ahead of the current connection the walk ends; a whole turn if it ends there. */
  function Distance(ring: seq<nat>, stop: nat): (d: nat)
    requires stop in ring
    ensures 1 <= d <= |ring|
  {
    if ring[0] == stop then |ring| else IndexOf(ring, stop)
  }

  /** The walk ends in the ring, and if it ends at the next connection that is the one peeked at. */
  predicate Aims(ring: seq<nat>, at: Where) {
    ring != [] && (at.AtWalk? ==> at.stop in ring && (at.stop == Second(ring) ==> at.next == at.stop))
  }

  /** The walk's end was the connection just removed, which is on its way to be replaced by its successor. */
  predicate EndRemoved(s: State)
    requires s.pc.Retarget?
  {
    s.pc.stop == s.pc.next && s.pc.next !in s.ring
  }

  /** The walk's end is on the ring, or was just removed and leads to a connection that is. */
  predicate OnTrack(s: State) {
    && s.ring != []
    && Grounded(s)
    && match s.pc {
         case Peek(_, at) => Aims(s.ring, at)
         case Check(_, at, _) => Aims(s.ring, at)
         case Delete(_, at, _) => Aims(s.ring, at)
         case ReplayNext(_, at, _, _) => Aims(s.ring, at)
         case Flush(_, at, _) => Aims(s.ring, at)
         case Retarget(_, stop, next) =>
           if EndRemoved(s) then next in s.stale && s.stale[next] in s.ring else stop in s.ring
         case Advance(_, at) => at.AtWalk? ==> at.stop in s.ring
         case Send(_, stop) => stop in s.ring
         case PeekNext(_, stop) => stop in s.ring
         case _ => true
       }
  }

  /** The connection peeked at is the walk's end and still there, but something was removed, so the end is about
      to be moved past it. With nobody else in the ring that makes no difference. */
  predicate Misaimed(s: State) {
    s.pc.Retarget? && s.pc.stop == s.pc.next && s.pc.next in s.ring && |s.ring| > 1
  }

  /** In the first `n` steps of the run no walk moved its end past a connection that was still there. */
  ghost predicate Aimed(r: Run, n: nat) {
    IsRun(r) && n <= |r.acts| && forall i :: 0 <= i < n ==> r.acts[i].Bus? ==> !Misaimed(r.states[i])
  }

  /** The ring positions the message in hand is still to be sent to: from `lo` up to `hi`. */
  datatype Span = Span(lo: nat, hi: nat)

  function Due(s: State): Span
    requires OnTrack(s)
  {
    match s.pc
    case Idle => Span(0, 0)
    case Push(_) => Span(0, 0)
    case Crashed => Span(0, 0)
    case Send(_, stop) => Span(0, Distance(s.ring, stop))
    case PeekNext(_, stop) => Span(1, Distance(s.ring, stop))
    case Retarget(_, stop, next) => Span(1, Distance(s.ring, if EndRemoved(s) then s.stale[next] else stop))
    case _ => if s.pc.at.AtWalk? then Span(1, Distance(s.ring, s.pc.at.stop)) else Span(0, |s.ring|)
  }

  /** What walks sent to `c` is the stretch of the bus history from its birth on. */
  ghost predicate Slice(c: Conn, hist: seq<Message>) {
    Position(c) <= |hist| && Walked(c.log) == hist[c.born..Position(c)]
  }

  ghost predicate AllSlices(conns: map<nat, Conn>, hist: seq<Message>) {
    forall c :: c in conns ==> Slice(conns[c], hist)
  }

  ghost predicate Slices(s: State) {
    AllSlices(s.conns, s.hist)
  }

  /** Members were walked to `n` messages, or to one less inside the span. */
  ghost predicate Timely(ring: seq<nat>, conns: map<nat, Conn>, n: nat, due: Span) {
    forall i :: 0 <= i < |ring| ==>
      ring[i] in conns && Position(conns[ring[i]]) == n - if due.lo <= i < due.hi then 1 else 0
  }

  /** Every member has been sent everything but the message in hand where that is still due. */
  ghost predicate OnTime(s: State)
    requires OnTrack(s)
  {
    Timely(s.ring, s.conns, |s.hist|, Due(s))
  }

  ghost predicate Delivers(s: State) {
    OnTrack(s) && Slices(s) && OnTime(s)
  }

  // ---- what the steps do to one connection ----

  lemma ResendSlice(c: Conn, hist: seq<Message>, ms: seq<Message>, o: Origin)
    requires Slice(c, hist) && !o.Walk?
    ensures var d := SendAll(c, ms, o); Slice(d, hist) && Position(d) == Position(c)
  {
    SentBatch(c.log, ms, o);
  }

  /** Replacing a connection by one at the same place in the history changes nothing here. */
  lemma UpdateKeeps(ring: seq<nat>, conns: map<nat, Conn>, hist: seq<Message>, due: Span, c: nat, d: Conn)
    requires c in conns && Timely(ring, conns, |hist|, due) && AllSlices(conns, hist)
    requires Slice(d, hist) && Position(d) == Position(conns[c])
    ensures Timely(ring, conns[c := d], |hist|, due) && AllSlices(conns[c := d], hist)
  {
  }

  /** Being on track does not depend on the connections' contents. */
  lemma SameTrack(s: State, t: State)
    requires OnTrack(s) && t.ring == s.ring && t.hist == s.hist && t.pc == s.pc && t.stale == s.stale
    ensures OnTrack(t) && Due(t) == Due(s)
  {
  }

  // ---- steps that leave the ring alone ----

  lemma TakeDelivers(s: State)
    requires Delivers(s) && s.pc.Idle? && CanBus(s)
    ensures Delivers(Taken(s))
  {
  }

  lemma SlicesKept(conns: map<nat, Conn>, hist: seq<Message>, c: nat, d: Conn)
    requires AllSlices(conns, hist) && Slice(d, hist)
    ensures AllSlices(conns[c := d], hist)
  {
  }

  lemma SendDelivers(s: State)
    requires Delivers(s) && s.pc.Send? && NoDup(s.ring)
    ensures Delivers(SentTo(s))
  {
    var c := s.conns[s.ring[0]];
    var d := SendAll(c, [s.pc.msg], Walk);
    assert Position(c) == |s.hist| - 1;
    SlicesKept(s.conns, s.hist, s.ring[0], d);
  }

  lemma CheckTrack(s: State)
    requires OnTrack(s) && s.pc.Check?
    ensures OnTrack(Checked(s)) && Due(Checked(s)) == Due(s)
  {
  }

  lemma CheckDelivers(s: State)
    requires Delivers(s) && s.pc.Check?
    ensures Delivers(Checked(s))
  {
    CheckTrack(s);
    UpdateKeeps(s.ring, s.conns, s.hist, Due(s), s.pc.target, CheckStatus(s.conns[s.pc.target]));
  }

  lemma ReplayTrack(s: State)
    requires OnTrack(s) && s.pc.ReplayNext?
    ensures OnTrack(ReplayedTo(s)) && Due(ReplayedTo(s)) == Due(s)
  {
  }

  lemma ReplayDelivers(s: State)
    requires Delivers(s) && s.pc.ReplayNext?
    ensures Delivers(ReplayedTo(s))
  {
    var r := Second(s.ring);
    ReplayTrack(s);
    ResendSlice(s.conns[r], s.hist, Contents(s.buffer), Replayed);
    UpdateKeeps(s.ring, s.conns, s.hist, Due(s), r, ReplayedTo(s).conns[r]);
  }

  lemma FlushTrack(s: State)
    requires OnTrack(s) && s.pc.Flush?
    ensures OnTrack(FlushedTo(s)) && Due(FlushedTo(s)) == Due(s)
  {
  }

  lemma FlushDelivers(s: State)
    requires Delivers(s) && s.pc.Flush?
    ensures Delivers(FlushedTo(s))
  {
    var c := s.conns[s.pc.target];
    FlushTrack(s);
    ResendSlice(c, s.hist, c.failed, Flushed);
    UpdateKeeps(s.ring, s.conns, s.hist, Due(s), s.pc.target, FlushFailed(c));
  }

  // ---- steps that change the ring ----

  lemma TimelyWithoutSecond(ring: seq<nat>, conns: map<nat, Conn>, after: map<nat, Conn>, n: nat, due: Span)
    requires |ring| >= 2 && Timely(ring, conns, n, due) && due.lo <= 1 <= due.hi
    requires forall c :: c in conns ==> c in after && Position(after[c]) == Position(conns[c])
    ensures due.lo == 1 && due.hi == 1 ==> Timely(WithoutSecond(ring), after, n, due)
    ensures due.hi >= 2 ==> Timely(WithoutSecond(ring), after, n, Span(due.lo, due.hi - 1))
  {
  }

  lemma TimelyInserted(ring: seq<nat>, conns: map<nat, Conn>, after: map<nat, Conn>, n: nat, due: Span, x: nat)
    requires ring != [] && Timely(ring, conns, n, due) && x in after
    requires forall c :: c in ring ==> c in after && after[c] == conns[c]
    requires due == Span(0, 0) || due.lo <= 1 <= due.hi
    requires Position(after[x]) == n - if due.hi == 0 then 0 else 1
    ensures Timely(Inserted(ring, x), after, n, Span(due.lo, if due.hi == 0 then 0 else due.hi + 1))
  {
  }

  lemma DeleteKeepsTrack(s: State)
    requires OnTrack(s) && Membership(s) && HubStays(s) && s.pc.Delete? && CanBus(s)
    ensures |s.ring| >= 2 && OnTrack(Deleted(s))
  {
  }

  lemma DeleteMovesDue(s: State)
    requires OnTrack(s) && Membership(s) && |s.ring| >= 2 && s.pc.Delete? && CanBus(s) && OnTrack(Deleted(s))
    ensures Due(s).lo <= 1 <= Due(s).hi
    ensures Due(s) == Span(1, 1) ==> Due(Deleted(s)) == Span(1, 1)
    ensures Due(s).hi >= 2 ==> Due(Deleted(s)) == Span(Due(s).lo, Due(s).hi - 1)
  {
  }

  lemma DeleteKeepsSlices(s: State)
    requires Slices(s) && s.pc.Delete? && s.ring != [] && CanBus(s)
    ensures Slices(Deleted(s))
    ensures forall c :: c in s.conns ==> c in Deleted(s).conns && Position(Deleted(s).conns[c]) == Position(s.conns[c])
  {
  }

  lemma DeleteDelivers(s: State)
    requires Delivers(s) && Membership(s) && HubStays(s) && s.pc.Delete? && CanBus(s)
    ensures Delivers(Deleted(s))
  {
    DeleteKeepsTrack(s);
    DeleteMovesDue(s);
    DeleteKeepsSlices(s);
    TimelyWithoutSecond(s.ring, s.conns, Deleted(s).conns, |s.hist|, Due(s));
  }

  lemma AdvanceMovesDue(s: State)
    requires OnTrack(s) && NoDup(s.ring) && s.pc.Advance?
    ensures OnTrack(Advanced(s))
    ensures s.pc.at.AtStart? ==> Due(s) == Due(Advanced(s)) == Span(0, |s.ring|)
    ensures s.pc.at.AtWalk? ==> Due(s).lo == 1 <= Due(s).hi <= |s.ring| && Due(Advanced(s)) == Span(0, Due(s).hi - 1)
  {
  }

  lemma AdvanceDelivers(s: State)
    requires Delivers(s) && NoDup(s.ring) && s.pc.Advance?
    ensures Delivers(Advanced(s))
  {
    AdvanceMovesDue(s);
  }

  lemma DistanceInserted(ring: seq<nat>, stop: nat, x: nat)
    requires stop in ring && x !in ring
    ensures stop in Inserted(ring, x) && Distance(Inserted(ring, x), stop) == Distance(ring, stop) + 1
    ensures Second(Inserted(ring, x)) == x
  {
    var q := Inserted(ring, x);
    assert q[0] == ring[0] && q[1..] == [x] + ring[1..] && q[1..][1..] == ring[1..];
  }

  lemma ConnectKeepsTrack(s: State, wantsReplay: bool)
    requires OnTrack(s) && Membership(s)
    ensures OnTrack(Connected(s, wantsReplay))
  {
    InsertedKeeps(s.ring, s.maxID + 1);
  }

  /** A newcomer is due whenever anyone is. */
  lemma ConnectMovesDue(s: State, wantsReplay: bool)
    requires OnTrack(s) && Membership(s) && OnTrack(Connected(s, wantsReplay))
    ensures Due(s) == Span(0, 0) || Due(s).lo <= 1 <= Due(s).hi
    ensures Due(s).hi == 0 <==> s.pc.Idle? || s.pc.Push? || s.pc.Crashed?
    ensures Due(Connected(s, wantsReplay)) == Span(Due(s).lo, if Due(s).hi == 0 then 0 else Due(s).hi + 1)
  {
    var x := s.maxID + 1;
    forall stop | stop in s.ring {
      DistanceInserted(s.ring, stop, x);
    }
  }

  lemma ConnectDelivers(s: State, wantsReplay: bool)
    requires Delivers(s) && Membership(s)
    ensures Delivers(Connected(s, wantsReplay))
  {
    var t := Connected(s, wantsReplay);
    ConnectKeepsTrack(s, wantsReplay);
    ConnectMovesDue(s, wantsReplay);
    assert s.maxID + 1 !in s.conns;
    TimelyInserted(s.ring, s.conns, t.conns, |s.hist|, Due(s), s.maxID + 1);
  }

  lemma ActDelivers(s: State, c: nat, act: Act)
    requires Delivers(s) && CanStep(s, At(c, act))
    ensures Delivers(Step(s, At(c, act)))
  {
    ActKeepsHistory(s.conns[c], act);
    SameTrack(s, Step(s, At(c, act)));
    UpdateKeeps(s.ring, s.conns, s.hist, Due(s), c, DoAct(s.conns[c], act));
  }

  // ---- re-targeting ----

  lemma RetargetDelivers(s: State)
    requires Delivers(s) && NoDup(s.ring) && s.pc.Retarget? && !Misaimed(s)
    ensures Delivers(Retargeted(s))
  {
  }

  // ---- the invariant over aimed runs ----

  lemma BusDelivers(s: State)
    requires Delivers(s) && Membership(s) && HubStays(s) && CanBus(s) && !Misaimed(s)
    ensures Delivers(BusStep(s))
  {
    match s.pc
    case Idle => TakeDelivers(s);
    case Check(_, _, _) => CheckDelivers(s);
    case Delete(_, _, _) => DeleteDelivers(s);
    case ReplayNext(_, _, _, _) => ReplayDelivers(s);
    case Flush(_, _, _) => FlushDelivers(s);
    case Retarget(_, _, _) => RetargetDelivers(s);
    case Advance(_, _) => AdvanceDelivers(s);
    case Send(_, _) => SendDelivers(s);
    case _ =>
  }

  lemma EmitDelivers(s: State, c: nat, m: Message)
    requires Delivers(s) && CanStep(s, Emit(c, m))
    ensures Delivers(Emitted(s, c, m))
  {
    SameTrack(s, Emitted(s, c, m));
    UpdateKeeps(s.ring, s.conns, s.hist, Due(s), c, Emitted(s, c, m).conns[c]);
  }

  lemma StepDelivers(s: State, a: Action, t: State)
    requires Delivers(s) && Membership(s) && HubStays(s) && CanStep(s, a) && t == Step(s, a) && (a.Bus? ==> !Misaimed(s))
    ensures Delivers(t)
  {
    match a
    case Bus => BusDelivers(s);
    case Connect(wantsReplay) => ConnectDelivers(s, wantsReplay);
    case At(c, act) => ActDelivers(s, c, act);
    case Emit(c, m) => EmitDelivers(s, c, m);
  }

  lemma {:induction false} AlwaysDelivers(r: Run, i: nat)
    requires Aimed(r, i)
    ensures Delivers(r.states[i])
  {
    if i > 0 {
      AlwaysSafe(r, i - 1);
      AlwaysDelivers(r, i - 1);
      RunStep(r, i - 1);
      StepDelivers(r.states[i - 1], r.acts[i - 1], r.states[i]);
    }
  }

  /** Whole-run delivery. What the walks have sent to a connection is a contiguous stretch of the bus
      history that begins with the first message walked after its insertion, each message once; and
      whenever the bus is between messages, every member has been sent all of them. */
  lemma WalksDeliverSlices(r: Run, i: nat, c: nat)
    requires Aimed(r, i) && c in r.states[i].conns
    ensures var s := r.states[i]; var conn := s.conns[c];
      && conn.born + |Walked(conn.log)| <= |s.hist|
      && Walked(conn.log) == s.hist[conn.born..conn.born + |Walked(conn.log)|]
      && (s.pc.Idle? && c in s.ring ==> Walked(conn.log) == s.hist[conn.born..])
  {
    AlwaysDelivers(r, i);
    var s := r.states[i];
    if s.pc.Idle? && c in s.ring {
      assert s.ring[IndexOf(s.ring, c)] == c;
    }
  }

  lemma BusKeepsPast(s: State, c: nat)
    requires CanBus(s) && c in s.conns
    ensures s.hist <= BusStep(s).hist
    ensures c in BusStep(s).conns && BusStep(s).conns[c].born == s.conns[c].born
  {
  }

  lemma StepKeepsPast(s: State, a: Action, t: State, c: nat)
    requires Membership(s) && CanStep(s, a) && t == Step(s, a) && c in s.conns
    ensures s.hist <= t.hist
    ensures c in t.conns && t.conns[c].born == s.conns[c].born
  {
    match a
    case Bus => BusKeepsPast(s, c);
    case At(d, act) => ActKeepsHistory(s.conns[d], act);
    case Connect(_) => assert s.maxID + 1 !in s.conns;
    case Emit(_, _) =>
  }

  lemma {:induction false} RunKeepsPast(r: Run, i: nat, j: nat, c: nat)
    requires IsRun(r) && i <= j < |r.states| && c in r.states[i].conns
    ensures r.states[i].hist <= r.states[j].hist
    ensures c in r.states[j].conns && r.states[j].conns[c].born == r.states[i].conns[c].born
    decreases j - i
  {
    if i < j {
      RunKeepsPast(r, i, j - 1, c);
      AlwaysSafe(r, j - 1);
      RunStep(r, j - 1);
      StepKeepsPast(r.states[j - 1], r.acts[j - 1], r.states[j], c);
    }
  }

  /** Between any two moments at which the bus is between messages, a connection that stays is walked to
      with exactly the messages the bus took in between, in order. */
  lemma MembersMissNothing(r: Run, i: nat, j: nat, c: nat)
    requires Aimed(r, j) && i <= j
    requires r.states[i].pc.Idle? && r.states[j].pc.Idle? && c in r.states[i].ring && c in r.states[j].ring
    ensures r.states[i].hist <= r.states[j].hist
    ensures Walked(r.states[j].conns[c].log) ==
            Walked(r.states[i].conns[c].log) + r.states[j].hist[|r.states[i].hist|..]
  {
    WalksDeliverSlices(r, i, c);
    WalksDeliverSlices(r, j, c);
    RunKeepsPast(r, i, j, c);
    var b, m := r.states[i].conns[c].born, |r.states[i].hist|;
    assert r.states[j].hist[b..] == r.states[j].hist[b..m] + r.states[j].hist[m..];
  }

  /** The connection a removal hits was walked to with every message since its insertion, except that the
      message in hand is among them exactly if the walk began with it. */
  lemma RemovalPoint(r: Run, i: nat)
    requires Aimed(r, i) && r.states[i].pc.Delete?
    ensures r.states[i].ring != []
    ensures var s := r.states[i]; var c := Second(s.ring); var conn := s.conns[c];
      && Position(conn) == (if s.pc.at.AtWalk? && s.pc.at.stop == c then |s.hist| else |s.hist| - 1)
      && Walked(conn.log) == s.hist[conn.born..Position(conn)]
  {
    AlwaysSafe(r, i);
    AlwaysDelivers(r, i);
  }
}
