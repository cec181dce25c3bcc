/** Runs that exhibit what the theorems' conditions leave out. */
module Exhibits {
  import opened Messages
  import opened Sequences
  import opened Rings
  import opened Feedback
  import opened Connections
  import opened MsgBuffers
  import opened Systems
  import opened SystemSafety
  import opened Delivery
  import opened Misaims
  import opened Removals

  function Last(r: Run): State
    requires r.states != []
  {
    r.states[|r.states| - 1]
  }

  /** One more step of a run. */
  lemma Extend(r: Run, a: Action) returns (q: Run)
    requires IsRun(r) && CanStep(Last(r), a)
    ensures IsRun(q) && q.acts == r.acts + [a] && Last(q) == Step(Last(r), a)
    ensures Aimed(r, |r.acts|) && (a.Bus? ==> !Misaimed(Last(r))) ==> Aimed(q, |q.acts|)
  {
    q := Run(r.states + [Step(Last(r), a)], r.acts + [a]);
    forall i | 0 <= i < |q.acts| ensures Follows(q, i) {
      if i < |r.acts| {
        RunStep(r, i);
      }
    }
  }

  // ---- what the bus does when there is nothing to prepare ----

  predicate Quiet(c: Conn) {
    c.failed == [] && c.feedback == []
  }

  lemma QuietChecked(s: State)
    requires s.pc.Check? && Quiet(s.conns[s.pc.target])
    ensures Checked(s) == s.(pc := Advance(s.pc.msg, s.pc.at))
  {
    assert FailedOf([]) == [];
    assert CheckStatus(s.conns[s.pc.target]) == s.conns[s.pc.target];
  }

  /** A message is taken and the ring steps on to the first receiver. */
  function Started(s: State): State
    requires s.pc.Idle? && s.busChan != [] && s.ring != []
  {
    var ring, msg := Rotated(s.ring), s.busChan[0];
    s.(busChan := s.busChan[1..], hist := s.hist + [msg], ring := ring, pc := Send(msg, ring[0]),
       starts := s.starts + [Start(ring, s.epoch)])
  }

  /** A quiet connection is checked and the ring steps on. */
  function SteppedOver(s: State): State
    requires s.pc.Check? && s.ring != []
  {
    var ring, msg := Rotated(s.ring), s.pc.msg;
    match s.pc.at
    case AtStart => s.(ring := ring, pc := Send(msg, ring[0]), starts := s.starts + [Start(ring, s.epoch)])
    case AtWalk(stop, _) => s.(ring := ring, pc := if ring[0] == stop then Push(msg) else Send(msg, stop))
  }

  lemma QuietSteppedOver(s: State)
    requires s.pc.Check? && s.ring != [] && Quiet(s.conns[s.pc.target])
    ensures BusStep(s) == s.(pc := Advance(s.pc.msg, s.pc.at)) && BusStep(BusStep(s)) == SteppedOver(s)
  {
    QuietChecked(s);
  }

  /** Two more bus steps of a run. */
  lemma ExtendTwice(r: Run) returns (q: Run)
    requires IsRun(r) && CanBus(Last(r)) && CanBus(BusStep(Last(r)))
    ensures IsRun(q) && r.acts <= q.acts && Last(q) == BusStep(BusStep(Last(r)))
    ensures Aimed(r, |r.acts|) && !Misaimed(Last(r)) && !Misaimed(BusStep(Last(r))) ==> Aimed(q, |q.acts|)
  {
    q := Extend(r, Bus);
    q := Extend(q, Bus);
  }

  lemma CheckAndAdvance(r: Run) returns (q: Run)
    requires IsRun(r) && Last(r).pc.Check? && Last(r).ring != []
    requires Quiet(Last(r).conns[Last(r).pc.target])
    ensures IsRun(q) && r.acts <= q.acts && Last(q) == SteppedOver(Last(r))
    ensures Aimed(r, |r.acts|) ==> Aimed(q, |q.acts|)
  {
    QuietSteppedOver(Last(r));
    q := ExtendTwice(r);
  }

  lemma QuietStart(r: Run) returns (q: Run)
    requires IsRun(r) && Last(r).pc.Idle? && Last(r).busChan != [] && Last(r).ring != []
    requires Quiet(Last(r).conns[Second(Last(r).ring)])
    ensures IsRun(q) && Last(q) == Started(Last(r)) && r.acts <= q.acts
    ensures Aimed(r, |r.acts|) ==> Aimed(q, |q.acts|)
  {
    q := Extend(r, Bus);
    q := Extend(q, Bus);
    q := CheckAndAdvance(q);
  }

  /** The current connection is sent the message and the ring steps on. */
  function WalkedOn(s: State): State
    requires s.pc.Send? && s.ring != []
  {
    var ring, c := Rotated(s.ring), s.conns[s.ring[0]];
    s.(conns := s.conns[s.ring[0] := SendAll(c, [s.pc.msg], Walk)], ring := ring,
       pc := if ring[0] == s.pc.stop then Push(s.pc.msg) else s.pc)
  }

  /** The current connection is sent the message, and the next one is about to be checked. */
  function SentOn(s: State): State
    requires s.pc.Send? && s.ring != []
  {
    var c, next := s.conns[s.ring[0]], Second(s.ring);
    s.(conns := s.conns[s.ring[0] := SendAll(c, [s.pc.msg], Walk)], pc := Check(s.pc.msg, AtWalk(s.pc.stop, next), next))
  }

  lemma SentAndPeeked(s: State)
    requires s.pc.Send? && s.ring != []
    ensures BusStep(s).pc.PeekNext? && BusStep(BusStep(s)).pc.Peek? && BusStep(BusStep(BusStep(s))) == SentOn(s)
  {
  }

  lemma SendAndPeek(r: Run) returns (q: Run)
    requires IsRun(r) && Last(r).pc.Send? && Last(r).ring != []
    ensures IsRun(q) && Last(q) == SentOn(Last(r)) && r.acts <= q.acts
    ensures Aimed(r, |r.acts|) ==> Aimed(q, |q.acts|)
  {
    SentAndPeeked(Last(r));
    q := ExtendTwice(r);
    q := Extend(q, Bus);
  }

  lemma QuietVisit(r: Run) returns (q: Run)
    requires IsRun(r) && Last(r).pc.Send? && Last(r).ring != []
    requires Quiet(Last(r).conns[Second(Last(r).ring)])
    ensures IsRun(q) && Last(q) == WalkedOn(Last(r)) && r.acts <= q.acts
    ensures Aimed(r, |r.acts|) ==> Aimed(q, |q.acts|)
  {
    q := SendAndPeek(r);
    q := CheckAndAdvance(q);
  }

  // ---- a pod hears its own message ----

  /** The hub's connection once its pod has been given an onFunc. */
  const RENEWED := NewConn(false, 0).(pod := NewPod(false).(listening := true, replayOnce := true))

  lemma SendThenOn(m: Message) returns (r: Run)
    requires m.Message?
    ensures IsRun(r) && r.acts != [] && r.acts[0] == At(HUB, RecordSend(m))
    ensures Last(r) == INIT.(conns := map[HUB := RENEWED.(pod := RENEWED.pod.(recorded := multiset{m}))])
  {
    r := Run([INIT], []);
    r := Extend(r, At(HUB, RecordSend(m)));
    r := Extend(r, At(HUB, Install(true, None)));
    r := Extend(r, At(HUB, Installed));
    assert Last(r).conns[HUB].pod.recorded == multiset{m};
    assert Last(r).conns == map[HUB := RENEWED.(pod := RENEWED.pod.(recorded := multiset{m}))];
  }

  lemma EmittedAlone(m: Message) returns (r: Run)
    requires m.Message?
    ensures IsRun(r) && r.acts != [] && r.acts[0] == At(HUB, RecordSend(m))
    ensures Last(r) == INIT.(conns := map[HUB := RENEWED], busChan := [m])
  {
    r := SendThenOn(m);
    r := Extend(r, Emit(HUB, m));
  }

  /** A send goroutine and the pod's worker pass a waiting message on to a handler. */
  lemma Arrives(r: Run, c: nat, m: Message) returns (q: Run)
    requires IsRun(r) && c in Last(r).conns && m in Last(r).conns[c].flow.waiting
    requires Last(r).conns[c].connected && Last(r).conns[c].flow.queue == multiset{}
    ensures IsRun(q) && r.acts <= q.acts && c in Last(q).conns
    ensures m in Last(q).conns[c].flow.received && Last(q).conns[c].pod == Last(r).conns[c].pod
  {
    q := Extend(r, At(c, Acquire(m)));
    q := Extend(q, At(c, Write(m)));
    q := Extend(q, At(c, Receive(m)));
  }

  lemma GoesIn(r: Run, c: nat, m: Message) returns (q: Run)
    requires IsRun(r) && CanStep(Last(r), At(c, Handle(m))) && m.Message? && Calls(Last(r).conns[c], m)
    ensures IsRun(q) && r.acts <= q.acts && c in Last(q).conns && m in Last(q).conns[c].flow.running
  {
    q := Extend(r, At(c, Handle(m)));
  }

  /** A pod hears the message it sent, if its onFunc was replaced after the message was recorded: a run in which the
      hub's pod ends up with its own message in its onFunc. */
  lemma HearsOwnMessage(m: Message) returns (r: Run)
    requires m.Message?
    ensures IsRun(r) && r.acts != [] && r.acts[0] == At(HUB, RecordSend(m))
    ensures HUB in Last(r).conns && m in Last(r).conns[HUB].flow.running
  {
    r := EmittedAlone(m);
    r := QuietStart(r);
    r := QuietVisit(r);
    r := Arrives(r, HUB, m);
    r := GoesIn(r, HUB, m);
  }

  // ---- a walk sends its message twice ----

  /** The hub's pod sends a message. */
  lemma HubSends(r: Run, m: Message) returns (q: Run)
    requires IsRun(r) && HUB in Last(r).conns && !Last(r).conns[HUB].pod.dead && m.Message?
    requires |Last(r).busChan| < BUS_CHAN_SIZE
    ensures IsRun(q) && r.acts <= q.acts && HUB in Last(q).conns
    ensures Aimed(r, |r.acts|) ==> Aimed(q, |q.acts|)
    ensures var c, d := Last(r).conns[HUB], Last(q).conns[HUB];
      && d.feedback == c.feedback && d.failed == c.failed && d.log == c.log && d.pod.dead == c.pod.dead
      && Last(q) == Last(r).(conns := Last(r).conns[HUB := d], busChan := Last(r).busChan + [m])
  {
    q := Extend(r, At(HUB, RecordSend(m)));
    q := Extend(q, Emit(HUB, m));
  }

  /** A pod asks to be disconnected. */
  lemma Leaves(r: Run, c: nat) returns (q: Run)
    requires IsRun(r) && c in Last(r).conns && c != HUB && |Last(r).conns[c].feedback| < POD_CHAN_SIZE
    ensures IsRun(q) && r.acts <= q.acts && c in Last(q).conns
    ensures Aimed(r, |r.acts|) ==> Aimed(q, |q.acts|)
    ensures var b, d := Last(r).conns[c], Last(q).conns[c];
      && d.feedback == b.feedback + [Disconnect] && d.failed == b.failed && d.flow == b.flow && d.log == b.log
      && Last(q) == Last(r).(conns := Last(r).conns[c := d])
  {
    q := Extend(r, At(c, Leave));
    q := Extend(q, At(c, Left));
  }

  /** The bus with the hub and one more pod, and a message waiting. */
  ghost predicate Pair(s: State, m: Message, wantsReplay: bool) {
    && s.pc.Idle? && s.ring == [1, 2] && s.busChan == [m] && s.hist == [] && s.buffer == Empty(BUFFER_SIZE)
    && s.conns.Keys == {1, 2} && Quiet(s.conns[1]) && !s.conns[1].pod.dead
    && s.conns[2] == NewConn(wantsReplay, 0)
  }

  lemma PairBegins(m: Message, wantsReplay: bool) returns (r: Run)
    requires m.Message?
    ensures IsRun(r) && Aimed(r, |r.acts|) && Pair(Last(r), m, wantsReplay)
  {
    r := Run([INIT], []);
    r := Extend(r, Connect(wantsReplay));
    r := HubSends(r, m);
  }

  /** The walk has come back to just before its start, the second pod. */
  ghost predicate BeforeStart(s: State, m: Message, wantsReplay: bool) {
    && s.pc == Send(m, 2) && s.ring == [1, 2] && s.busChan == [] && s.hist == [m] && s.buffer == Empty(BUFFER_SIZE)
    && s.conns.Keys == {1, 2} && Quiet(s.conns[1]) && !s.conns[1].pod.dead
    && s.conns[2] == SendAll(NewConn(wantsReplay, 0), [m], Walk)
  }

  lemma WalkBegins(m: Message, wantsReplay: bool) returns (r: Run)
    requires m.Message?
    ensures IsRun(r) && Aimed(r, |r.acts|) && BeforeStart(Last(r), m, wantsReplay)
  {
    r := PairBegins(m, wantsReplay);
    r := QuietStart(r);
    r := QuietVisit(r);
  }

  lemma AboutToRemoveStart(m: Message) returns (r: Run)
    requires m.Message?
    ensures IsRun(r) && Aimed(r, |r.acts|)
    ensures Last(r).pc == Delete(m, AtWalk(2, 2), 2) && Last(r).ring == [1, 2] && Last(r).hist == [m]
  {
    r := WalkBegins(m, false);
    r := SendAndPeek(r);
    r := Leaves(r, 2);
    FailedOfAppend([], Disconnect);
    r := Extend(r, Bus);
  }

  lemma MisaimedWalk(m: Message) returns (r: Run)
    requires m.Message?
    ensures IsRun(r) && Aimed(r, |r.acts|)
    ensures Last(r).pc == Retarget(m, 2, 2) && Last(r).ring == [1, 2] && Last(r).hist == [m]
  {
    r := AboutToRemoveStart(m);
    AlwaysSafe(r, |r.acts|);
    ConnectDivertsRemoval(Last(r), false);
    r := Extend(r, Connect(false));
    r := Extend(r, Bus);
  }

  /** A walk can send its message to one connection twice: a run in which a pod connects just before the walk's
      start is removed at wrap-around. */
  lemma WalkRepeats(m: Message) returns (r: Run)
    requires m.Message?
    ensures IsRun(r) && 2 in Last(r).conns && Last(r).hist == [m]
    ensures Position(Last(r).conns[2]) == 2 && !Slices(Last(r))
  {
    r := MisaimedWalk(m);
    var s := Last(r);
    AlwaysSafe(r, |r.acts|);
    AlwaysDelivers(r, |r.acts|);
    OvershootRepeats(s);
    OvershootGoesOn(s);
    r := Extend(r, Bus);
    r := Extend(r, Bus);
    assert Last(r) == SteppedOn(s);
    r := Extend(r, Bus);
  }

  // ---- a replay repeats a message ----

  lemma ReplayChecked(s: State, c: nat)
    requires s.pc.Check? && s.pc.target == c && s.conns[c].failed == [] && s.conns[c].feedback == [Replay]
    ensures var t := Checked(s);
      && t.pc == ReplayNext(s.pc.msg, s.pc.at, c, false) && t.ring == s.ring && t.buffer == s.buffer
      && t.conns[c].log == s.conns[c].log
  {
    FailedOfAppend([], Replay);
    assert FailedOf([]) == [];
  }

  /** Checking a next connection that asks for its replay, and replaying to it. */
  lemma CheckedAndReplayed(s: State, c: nat)
    requires s.pc.Check? && s.pc.target == c && s.ring != [] && Second(s.ring) == c
    requires s.conns[c].failed == [] && s.conns[c].feedback == [Replay]
    ensures CanBus(BusStep(s)) && c in BusStep(BusStep(s)).conns
    ensures BusStep(BusStep(s)).conns[c].log == s.conns[c].log + Tagged(Contents(s.buffer), Replayed)
  {
    ReplayChecked(s, c);
  }

  /** Checking a next connection that asks for its replay, and replaying to it. */
  lemma CheckAndReplay(r: Run, c: nat) returns (q: Run)
    requires IsRun(r) && Last(r).pc.Check? && Last(r).pc.target == c && Last(r).ring != [] && Second(Last(r).ring) == c
    requires Last(r).conns[c].failed == [] && Last(r).conns[c].feedback == [Replay]
    ensures IsRun(q) && r.acts <= q.acts && c in Last(q).conns
    ensures Last(q).conns[c].log == Last(r).conns[c].log + Tagged(Contents(Last(r).buffer), Replayed)
  {
    CheckedAndReplayed(Last(r), c);
    q := ExtendTwice(r);
  }

  lemma WalkThenReplayRepeats(m: Message)
    ensures !NoDup(Fresh([Sent(m, Walk)] + Tagged([m], Replayed)))
  {
    SentBatch([Sent(m, Walk)], [m], Replayed);
    assert [Sent(m, Walk)][..0] == [] && Fresh([]) == [];
    assert Fresh([Sent(m, Walk)]) == [m];
    var f := Fresh([Sent(m, Walk)] + Tagged([m], Replayed));
    assert f == [m, m] && f[0] == f[1];
  }

  /** The first message has been walked to both pods, and the second pod asks for its replay. */
  ghost predicate AsksLate(s: State, m: Message)
    requires m.Message?
  {
    && s.pc.Idle? && s.ring == [2, 1] && s.busChan == [] && s.hist == [m]
    && s.buffer == Pushed(Empty(BUFFER_SIZE), m)
    && s.conns.Keys == {1, 2} && Quiet(s.conns[1]) && !s.conns[1].pod.dead
    && s.conns[2].failed == [] && s.conns[2].feedback == [Replay] && s.conns[2].log == [Sent(m, Walk)]
  }

  lemma SetsOnFunc(r: Run, c: nat) returns (q: Run)
    requires IsRun(r) && c in Last(r).conns && Last(r).conns[c].pod == NewPod(true)
    requires Last(r).conns[c].flow.running == multiset{} && |Last(r).conns[c].feedback| < POD_CHAN_SIZE
    ensures IsRun(q) && r.acts <= q.acts && c in Last(q).conns
    ensures var b, d := Last(r).conns[c], Last(q).conns[c];
      && d.feedback == b.feedback + [Replay] && d.failed == b.failed && d.log == b.log
      && Last(q) == Last(r).(conns := Last(r).conns[c := d])
  {
    q := Extend(r, At(c, Install(true, None)));
    q := Extend(q, At(c, Installed));
  }

  lemma AskingLate(m: Message) returns (r: Run)
    requires m.Message?
    ensures IsRun(r) && AsksLate(Last(r), m)
  {
    r := WalkBegins(m, true);
    r := QuietVisit(r);
    r := Extend(r, Bus);
    r := SetsOnFunc(r, 2);
  }

  /** A late replay repeats a message: a run in which a pod asks for its replay after a message was walked to it. */
  lemma LateReplay(m: Message, n: Message) returns (r: Run)
    requires m.Message? && n.Message?
    ensures IsRun(r) && 2 in Last(r).conns && !NoDup(Fresh(Last(r).conns[2].log))
  {
    r := AskingLate(m);
    r := HubSends(r, n);
    r := QuietStart(r);
    r := SendAndPeek(r);
    r := CheckAndReplay(r, 2);
    WalkThenReplayRepeats(m);
  }

  // ---- an unprepared first visit ----

  /** Four pods; the one behind the third has asked for its replay, and a message is waiting. */
  ghost predicate Four(s: State, m: Message) {
    && s.pc.Idle? && s.ring == [1, 4, 3, 2] && s.busChan == [m] && s.hist == [] && s.buffer == Empty(BUFFER_SIZE)
    && s.conns.Keys == {1, 2, 3, 4} && Quiet(s.conns[1]) && !s.conns[1].pod.dead && Quiet(s.conns[4])
    && s.conns[3] == NewConn(false, 0) && Asking(s.conns[2], [])
  }

  predicate Asking(c: Conn, log: seq<Sent>) {
    c.failed == [] && c.feedback == [Replay] && c.log == log
  }

  lemma FourConnect() returns (r: Run)
    ensures IsRun(r) && Last(r).pc.Idle? && Last(r).ring == [1, 4, 3, 2] && Last(r).busChan == [] && Last(r).hist == []
    ensures Last(r).buffer == Empty(BUFFER_SIZE) && Last(r).conns.Keys == {1, 2, 3, 4}
    ensures Last(r).conns[1] == NewConn(false, 0) && Last(r).conns[4] == NewConn(false, 0)
    ensures Last(r).conns[3] == NewConn(false, 0) && Last(r).conns[2] == NewConn(true, 0)
  {
    r := Run([INIT], []);
    r := Extend(r, Connect(true));
    r := Extend(r, Connect(false));
    r := Extend(r, Connect(false));
  }

  lemma FourBegin(m: Message) returns (r: Run)
    requires m.Message?
    ensures IsRun(r) && Four(Last(r), m)
  {
    r := FourConnect();
    r := SetsOnFunc(r, 2);
    r := HubSends(r, m);
  }

  /** The third pod is about to be removed by a walk that began at the fourth. */
  ghost predicate RemovingThird(s: State, m: Message) {
    && s.pc == Delete(m, AtWalk(4, 3), 3) && s.ring == [4, 3, 2, 1] && s.busChan == [] && s.hist == [m]
    && s.buffer == Empty(BUFFER_SIZE)
    && s.conns.Keys == {1, 2, 3, 4} && Quiet(s.conns[1]) && !s.conns[1].pod.dead && Quiet(s.conns[4])
    && s.conns[3].flow.writing == multiset{} && Asking(s.conns[2], [])
  }

  ghost predicate CheckingThird(s: State, m: Message) {
    && s.pc == Check(m, AtWalk(4, 3), 3) && s.ring == [4, 3, 2, 1] && s.busChan == [] && s.hist == [m]
    && s.buffer == Empty(BUFFER_SIZE)
    && s.conns.Keys == {1, 2, 3, 4} && Quiet(s.conns[1]) && !s.conns[1].pod.dead && Quiet(s.conns[4])
    && s.conns[3] == NewConn(false, 0) && Asking(s.conns[2], [])
  }

  lemma CheckThird(m: Message) returns (r: Run)
    requires m.Message?
    ensures IsRun(r) && CheckingThird(Last(r), m)
  {
    r := FourBegin(m);
    r := QuietStart(r);
    r := SendAndPeek(r);
  }

  lemma RemoveThird(m: Message) returns (r: Run)
    requires m.Message?
    ensures IsRun(r) && RemovingThird(Last(r), m)
  {
    r := CheckThird(m);
    r := Leaves(r, 3);
    FailedOfAppend([], Disconnect);
    r := Extend(r, Bus);
  }

  /** The walk has stepped onto the second pod, which was not checked. */
  ghost predicate Unprepared(s: State, m: Message) {
    && s.pc == Send(m, 4) && s.ring == [2, 1, 4] && s.busChan == [] && s.hist == [m] && s.buffer == Empty(BUFFER_SIZE)
    && s.conns.Keys == {1, 2, 3, 4} && Quiet(s.conns[1]) && !s.conns[1].pod.dead && Quiet(s.conns[4])
    && Asking(s.conns[2], [])
  }

  lemma RemoveAndStep(r: Run) returns (q: Run)
    requires IsRun(r) && Last(r).pc.Delete? && |Last(r).ring| > 2 && CanBus(Last(r))
    requires Last(r).pc.at.AtWalk? && Last(r).pc.at.stop != Last(r).pc.at.next && Last(r).pc.at.stop != Third(Last(r).ring)
    ensures IsRun(q) && r.acts <= q.acts
    ensures var s, t, c := Last(r), Last(q), Second(Last(r).ring);
      && t.ring == Rotated(WithoutSecond(s.ring)) && t.pc == Send(s.pc.msg, s.pc.at.stop)
      && t.busChan == s.busChan && t.hist == s.hist && t.buffer == s.buffer
      && t.conns == s.conns[c := Disconnected(s.conns[c])]
  {
    q := ExtendTwice(r);
    q := Extend(q, Bus);
  }

  lemma StepsOnUnprepared(m: Message) returns (r: Run)
    requires m.Message?
    ensures IsRun(r) && Unprepared(Last(r), m)
  {
    r := RemoveThird(m);
    r := RemoveAndStep(r);
  }

  ghost predicate Missed(s: State, m: Message)
    requires m.Message?
  {
    && s.pc.Idle? && s.ring == [4, 2, 1] && s.busChan == [] && s.buffer == Pushed(Empty(BUFFER_SIZE), m)
    && s.conns.Keys == {1, 2, 3, 4} && !s.conns[1].pod.dead && Asking(s.conns[2], [Sent(m, Walk)])
  }

  ghost predicate VisitedOnce(s: State, m: Message) {
    && s.pc == Send(m, 4) && s.ring == [1, 4, 2] && s.busChan == [] && s.hist == [m] && s.buffer == Empty(BUFFER_SIZE)
    && s.conns.Keys == {1, 2, 3, 4} && !s.conns[1].pod.dead && Quiet(s.conns[4])
    && Asking(s.conns[2], [Sent(m, Walk)])
  }

  lemma VisitsUnprepared(m: Message) returns (r: Run)
    requires m.Message?
    ensures IsRun(r) && VisitedOnce(Last(r), m)
  {
    r := StepsOnUnprepared(m);
    r := QuietVisit(r);
  }

  lemma WalkedUnprepared(m: Message) returns (r: Run)
    requires m.Message?
    ensures IsRun(r) && Missed(Last(r), m)
  {
    r := VisitsUnprepared(m);
    r := QuietVisit(r);
    r := Extend(r, Bus);
  }

  /** A replay asked for in time repeats a message, if the first visit was not prepared: a run in which the walk
      removes the connection before it and steps onto it unchecked. */
  lemma UnpreparedReplay(m: Message, n: Message) returns (r: Run)
    requires m.Message? && n.Message?
    ensures IsRun(r) && 2 in Last(r).conns && !NoDup(Fresh(Last(r).conns[2].log))
  {
    r := WalkedUnprepared(m);
    r := HubSends(r, n);
    r := Extend(r, Bus);
    r := Extend(r, Bus);
    r := CheckAndReplay(r, 2);
    WalkThenReplayRepeats(m);
  }
}
