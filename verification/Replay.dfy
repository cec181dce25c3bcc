/** What a replay sends and how it joins the live traffic, and the bound on failed messages. */
module Replays {
  import opened Messages
  import opened Sequences
  import opened Rings
  import opened Feedback
  import opened Connections
  import opened MsgBuffers
  import opened BufferGaps
  import opened Systems
  import opened SystemSafety
  import opened Delivery

  // ---- runs in which a removal or replay hits the connection that was checked ----

  /** The removal or replay about to be made hits the connection whose check called for it. */
  predicate Hits(s: State) {
    s.ring != [] && (s.pc.Delete? || s.pc.ReplayNext? ==> s.pc.target == Second(s.ring))
  }

  /** In the first `n` steps every removal and every replay hits the connection whose check called for it. */
  ghost predicate Undiverted(r: Run, n: nat) {
    IsRun(r) && n <= |r.acts| && forall i :: 0 <= i < n ==> r.acts[i].Bus? ==> Hits(r.states[i])
  }

  // ---- the buffer holds what was pushed ----

  /** The messages pushed so far: all taken ones but the one in hand. */
  function Behind(s: State): seq<Message> {
    if s.pc.Idle? || s.hist == [] then s.hist else s.hist[..|s.hist| - 1]
  }

  ghost predicate Buffered(s: State) {
    && (forall i :: 0 <= i < |s.hist| ==> s.hist[i].Message?)
    && s.buffer == PushAll(Behind(s), BUFFER_SIZE)
  }

  lemma TakeBuffers(s: State)
    requires Buffered(s) && s.pc.Idle? && CanBus(s)
    ensures Buffered(Taken(s))
  {
  }

  lemma PushBuffers(s: State)
    requires Buffered(s) && Grounded(s) && s.pc.Push?
    ensures Buffered(BusStep(s))
  {
  }

  lemma QuietBuffers(s: State)
    requires s.ring != [] && CanBus(s) && !s.pc.Idle? && !s.pc.Push?
    ensures var t := BusStep(s); t.buffer == s.buffer && t.hist == s.hist && !t.pc.Idle?
  {
  }

  lemma BusBuffers(s: State)
    requires Buffered(s) && Grounded(s) && s.ring != [] && CanBus(s)
    ensures Buffered(BusStep(s))
  {
    if s.pc.Idle? {
      TakeBuffers(s);
    } else if s.pc.Push? {
      PushBuffers(s);
    } else {
      QuietBuffers(s);
    }
  }

  lemma StepBuffers(s: State, a: Action, t: State)
    requires Buffered(s) && Grounded(s) && s.ring != [] && CanStep(s, a) && t == Step(s, a)
    ensures Buffered(t)
  {
    if a.Bus? {
      BusBuffers(s);
    }
  }

  lemma {:induction false} AlwaysBuffered(r: Run, i: nat)
    requires IsRun(r) && i < |r.states|
    ensures Buffered(r.states[i])
  {
    if i == 0 {
      assert PushAll([], BUFFER_SIZE) == Empty(BUFFER_SIZE);
    } else {
      AlwaysBuffered(r, i - 1);
      NeverCrashes(r, i - 1);
      AlwaysGrounded(r, i - 1);
      RunStep(r, i - 1);
      StepBuffers(r.states[i - 1], r.acts[i - 1], r.states[i]);
    }
  }

  /** In every run whose UUIDs do not come back within 128 pushes, the buffer holds the last 128 messages before the
      one in hand, and a replay sends no nil message. */
  lemma ReplaysAreWindows(r: Run, i: nat)
    requires IsRun(r) && i < |r.states| && Spaced(r.states[i].hist, BUFFER_SIZE)
    ensures Contents(r.states[i].buffer) == LastN(Behind(r.states[i]), 128)
    ensures Nil !in Contents(r.states[i].buffer)
  {
    AlwaysBuffered(r, i);
    var s := r.states[i];
    SpacedPrefix(s.hist, |Behind(s)|, BUFFER_SIZE);
    assert s.hist[..|Behind(s)|] == Behind(s);
    SlidingWindow(Behind(s), BUFFER_SIZE);
    WindowHasNoNil(Behind(s), BUFFER_SIZE);
  }

  /** In every run, a replay has a nil message to send if and only if a UUID that is still listed was evicted since
      its last push. */
  lemma ReplaysNilIff(r: Run, i: nat)
    requires IsRun(r) && i < |r.states|
    ensures AllMessages(Behind(r.states[i]))
    ensures Nil in Contents(r.states[i].buffer) <==> HasGap(Behind(r.states[i]), BUFFER_SIZE)
  {
    AlwaysBuffered(r, i);
    MissingIff(Behind(r.states[i]), BUFFER_SIZE);
  }

  // ---- one replay at most, and only when it was asked for ----

  /** The replay request of this connection has been taken and not yet been met. */
  predicate Granted(c: Conn) {
    c.pod.wantsReplay && c.pod.replayOnce && c.joined.None? && Requests(c.feedback) == 0
  }

  ghost predicate AskedAt(s: State, c: nat) {
    c in s.conns ==>
      && AskedOnce(s.conns[c])
      && (s.pc.ReplayNext? && s.pc.target == c ==> Granted(s.conns[c]))
  }

  /** The connection is about to be replayed to in the place of the one whose check called for it. */
  predicate DivertedTo(s: State, c: nat) {
    s.pc.ReplayNext? && s.ring != [] && s.pc.target != c && Second(s.ring) == c
  }

  lemma ActKeepsGranted(c: Conn, a: Act)
    requires Granted(c) && CanAct(c, a)
    ensures Granted(DoAct(c, a))
  {
    match a
    case Report(m, ok) =>
    case Left =>
    case _ =>
  }

  lemma CheckAsks(s: State, c: nat)
    requires AskedAt(s, c) && s.pc.Check?
    ensures AskedAt(Checked(s), c)
  {
    RequestsPositive(s.conns[s.pc.target].feedback);
    assert Requests([]) == 0;
  }

  lemma BusAsks(s: State, c: nat)
    requires AskedAt(s, c) && CanBus(s) && s.ring != [] && !DivertedTo(s, c)
    ensures AskedAt(BusStep(s), c)
  {
    if s.pc.Check? {
      CheckAsks(s, c);
    }
  }

  lemma ActAsks(s: State, c: nat, d: nat, act: Act)
    requires AskedAt(s, c) && CanStep(s, At(d, act))
    ensures AskedAt(Step(s, At(d, act)), c)
  {
    if c == d {
      ActKeepsAskedOnce(s.conns[c], act);
      if s.pc.ReplayNext? && s.pc.target == c {
        ActKeepsGranted(s.conns[c], act);
      }
    }
  }

  lemma StepAsks(s: State, a: Action, t: State, c: nat)
    requires AskedAt(s, c) && Membership(s) && s.ring != [] && CanStep(s, a) && t == Step(s, a)
    requires a.Bus? ==> !DivertedTo(s, c)
    ensures AskedAt(t, c)
  {
    match a
    case Bus => BusAsks(s, c);
    case Connect(_) => assert s.maxID + 1 !in s.conns && Requests([]) == 0;
    case At(d, act) => ActAsks(s, c, d, act);
    case Emit(_, _) =>
  }

  /** In the first `i` steps a replay that another connection's check called for went to this one. */
  ghost predicate GotAnothers(r: Run, i: nat, c: nat)
    requires i <= |r.acts| && i <= |r.states|
  {
    exists k :: 0 <= k < i && r.acts[k].Bus? && DivertedTo(r.states[k], c)
  }

  /** In every run a connection gets at most one replay, and only if its pod asked, unless it got another's. */
  lemma {:induction false} AskedUnlessAnothers(r: Run, i: nat, c: nat)
    requires IsRun(r) && i < |r.states| && !GotAnothers(r, i, c)
    ensures AskedAt(r.states[i], c)
  {
    if i == 0 {
      assert Requests([]) == 0;
    } else {
      AskedUnlessAnothers(r, i - 1, c);
      AlwaysSafe(r, i - 1);
      RunStep(r, i - 1);
      StepAsks(r.states[i - 1], r.acts[i - 1], r.states[i], c);
    }
  }

  /** A request the pod of this connection has made is still to be taken. */
  predicate Unheard(c: Conn) {
    c.pod.wantsReplay && c.pod.replayOnce ==> Requests(c.feedback) > 0
  }

  /** Whoever slipped in before the connection that was peeked at has not been checked itself. */
  ghost predicate NewcomerUnheard(s: State) {
    s.ring != [] && (s.pc.Check? || s.pc.ReplayNext?) && s.pc.target != Second(s.ring) ==>
      Unheard(s.conns[Second(s.ring)])
  }

  lemma ActKeepsUnheard(c: Conn, a: Act)
    requires Unheard(c) && CanAct(c, a)
    ensures Unheard(DoAct(c, a))
  {
    match a
    case Report(m, ok) =>
    case Left =>
    case _ =>
  }

  lemma BusKeepsUnheard(s: State)
    requires NewcomerUnheard(s) && CanBus(s)
    ensures NewcomerUnheard(BusStep(s))
  {
  }

  lemma ConnectKeepsUnheard(s: State, wantsReplay: bool)
    ensures NewcomerUnheard(Connected(s, wantsReplay))
  {
    assert Second(Inserted(s.ring, s.maxID + 1)) == s.maxID + 1;
  }

  lemma StepKeepsUnheard(s: State, a: Action, t: State)
    requires NewcomerUnheard(s) && CanStep(s, a) && t == Step(s, a)
    ensures NewcomerUnheard(t)
  {
    match a
    case Bus => BusKeepsUnheard(s);
    case Connect(wantsReplay) => ConnectKeepsUnheard(s, wantsReplay);
    case At(d, act) =>
      if Unheard(s.conns[d]) {
        ActKeepsUnheard(s.conns[d], act);
      }
    case Emit(_, _) =>
  }

  lemma {:induction false} AlwaysNewcomerUnheard(r: Run, i: nat)
    requires IsRun(r) && i < |r.states|
    ensures NewcomerUnheard(r.states[i])
  {
    if i > 0 {
      AlwaysNewcomerUnheard(r, i - 1);
      RunStep(r, i - 1);
      StepKeepsUnheard(r.states[i - 1], r.acts[i - 1], r.states[i]);
    }
  }

  /** And that lasts through a bus step if and only if the step does not replay to it in the place of another. */
  lemma AskedLastsIff(r: Run, i: nat, c: nat)
    requires IsRun(r) && i < |r.acts| && r.acts[i].Bus? && c in r.states[i].conns && !GotAnothers(r, i, c)
    ensures c in r.states[i + 1].conns
    ensures AskedOnce(r.states[i + 1].conns[c]) <==> !DivertedTo(r.states[i], c)
  {
    AskedUnlessAnothers(r, i, c);
    AlwaysSafe(r, i);
    RunStep(r, i);
    RunKeepsPast(r, i, i + 1, c);
    if DivertedTo(r.states[i], c) {
      AlwaysNewcomerUnheard(r, i);
    } else {
      StepAsks(r.states[i], Bus, r.states[i + 1], c);
    }
  }

  ghost predicate Asked(s: State) {
    && (forall c :: c in s.conns ==> AskedOnce(s.conns[c]))
    && (s.pc.ReplayNext? ==> Granted(s.conns[s.pc.target]))
  }

  lemma AlwaysAsked(r: Run, i: nat)
    requires Undiverted(r, i)
    ensures Asked(r.states[i])
  {
    forall c | c in r.states[i].conns ensures AskedAt(r.states[i], c) {
      AskedUnlessAnothers(r, i, c);
    }
  }

  // ---- no connection is born later than the next message ----

  ghost predicate Born(s: State) {
    forall c :: c in s.conns ==> s.conns[c].born <= NextMessage(s)
  }

  lemma BusBears(s: State)
    requires Born(s) && CanBus(s)
    ensures Born(BusStep(s))
  {
  }

  lemma StepBears(s: State, a: Action, t: State)
    requires Born(s) && CanStep(s, a) && t == Step(s, a)
    ensures Born(t)
  {
    match a
    case Bus => BusBears(s);
    case Connect(_) =>
    case At(c, act) => ActKeepsHistory(s.conns[c], act);
    case Emit(_, _) =>
  }

  lemma {:induction false} AlwaysBorn(r: Run, i: nat)
    requires IsRun(r) && i < |r.states|
    ensures Born(r.states[i])
  {
    if i > 0 {
      AlwaysBorn(r, i - 1);
      RunStep(r, i - 1);
      StepBears(r.states[i - 1], r.acts[i - 1], r.states[i]);
    }
  }

  // ---- the shape of what a connection was sent ----

  /** Removals and replays hit the connection that was checked, and walks keep their ends. */
  ghost predicate Steady(r: Run, n: nat) {
    Aimed(r, n) && Undiverted(r, n)
  }

  /** Apart from flushes: the walked messages in order, with one window of the buffer spliced in where the
      replay took place, if it did. The replay took place while message `upto` was in hand. */
  ghost predicate Spliced(c: Conn, hist: seq<Message>) {
    match c.joined
    case None => Fresh(c.log) == Walked(c.log)
    case Some(Joined(at, upto)) =>
      && c.born <= at <= Position(c) <= |hist|
      && upto <= at <= upto + 1 && upto < |hist|
      && (at == upto + 1 ==> c.born <= upto)
      && Fresh(c.log) == hist[c.born..at] + LastN(hist[..upto], BUFFER_SIZE) + hist[at..Position(c)]
  }

  ghost predicate AllSpliced(s: State) {
    forall c :: c in s.conns ==> Spliced(s.conns[c], s.hist)
  }

  lemma SplicedGrows(c: Conn, hist: seq<Message>, m: Message)
    requires Slice(c, hist) && Spliced(c, hist)
    ensures Spliced(c, hist + [m])
  {
    if c.joined.Some? {
      var j := c.joined.value;
      assert (hist + [m])[c.born..j.at] == hist[c.born..j.at];
      assert (hist + [m])[..j.upto] == hist[..j.upto];
      assert (hist + [m])[j.at..Position(c)] == hist[j.at..Position(c)];
    }
  }

  lemma SendSplices(c: Conn, hist: seq<Message>)
    requires Slice(c, hist) && Spliced(c, hist) && hist != [] && Position(c) == |hist| - 1
    ensures Spliced(SendAll(c, [hist[|hist| - 1]], Walk), hist)
  {
    var m := hist[|hist| - 1];
    var d := SendAll(c, [m], Walk);
    SentBatch(c.log, [m], Walk);
    assert Position(d) == |hist|;
    if c.joined.Some? {
      var at := c.joined.value.at;
      assert hist[at..|hist|] == hist[at..|hist| - 1] + [m];
      assert Fresh(d.log) == Fresh(c.log) + [m];
    }
  }

  /** Only the fresh and the walked messages matter. */
  lemma SplicedSame(c: Conn, d: Conn, hist: seq<Message>)
    requires Spliced(c, hist) && Fresh(d.log) == Fresh(c.log) && Walked(d.log) == Walked(c.log)
    requires d.born == c.born && d.joined == c.joined
    ensures Spliced(d, hist)
  {
    assert Position(d) == Position(c);
    assert c.joined.Some? ==> hist[c.joined.value.at..Position(d)] == hist[c.joined.value.at..Position(c)];
  }

  lemma FlushSplices(c: Conn, hist: seq<Message>)
    requires Spliced(c, hist)
    ensures Spliced(FlushFailed(c), hist)
  {
    SentBatch(c.log, c.failed, Flushed);
    SplicedSame(c, FlushFailed(c), hist);
  }

  lemma ReplaySplices(c: Conn, hist: seq<Message>, window: seq<Message>)
    requires Slice(c, hist) && Spliced(c, hist) && c.joined.None? && hist != []
    requires c.born <= |hist| - 1 <= Position(c)
    requires window == LastN(hist[..|hist| - 1], BUFFER_SIZE)
    ensures Spliced(SendAll(c, window, Replayed).(joined := Some(Joined(Position(c), |hist| - 1))), hist)
  {
    SentBatch(c.log, window, Replayed);
    assert hist[Position(c)..Position(c)] == [];
  }

  lemma TargetIsOnTime(s: State)
    requires Delivers(s) && (s.pc.ReplayNext? || s.pc.Check?)
    ensures |s.hist| - 1 <= Position(s.conns[s.pc.target]) <= |s.hist|
  {
    assert s.ring[IndexOf(s.ring, s.pc.target)] == s.pc.target;
  }

  lemma UpdateSplices(s: State, t: State, c: nat)
    requires AllSpliced(s) && c in t.conns && t.hist == s.hist && t.conns == s.conns[c := t.conns[c]]
    requires Spliced(t.conns[c], s.hist)
    ensures AllSpliced(t)
  {
  }

  lemma TakeSplices(s: State)
    requires AllSpliced(s) && Slices(s) && s.pc.Idle? && CanBus(s)
    ensures AllSpliced(Taken(s))
  {
    forall c | c in s.conns {
      SplicedGrows(s.conns[c], s.hist, s.busChan[0]);
    }
  }

  lemma JoinSplices(s: State)
    requires AllSpliced(s) && Delivers(s) && Hits(s) && Asked(s) && Born(s) && s.pc.ReplayNext?
    requires Contents(s.buffer) == LastN(Behind(s), BUFFER_SIZE)
    ensures AllSpliced(ReplayedTo(s))
  {
    TargetIsOnTime(s);
    ReplaySplices(s.conns[Second(s.ring)], s.hist, Contents(s.buffer));
    UpdateSplices(s, ReplayedTo(s), Second(s.ring));
  }

  lemma WalkSplices(s: State)
    requires AllSpliced(s) && Delivers(s) && s.pc.Send?
    ensures AllSpliced(SentTo(s))
  {
    assert Position(s.conns[s.ring[0]]) == |s.hist| - 1;
    SendSplices(s.conns[s.ring[0]], s.hist);
    UpdateSplices(s, SentTo(s), s.ring[0]);
  }

  lemma BusSplices(s: State)
    requires AllSpliced(s) && Delivers(s) && Hits(s) && Asked(s) && Born(s) && CanBus(s)
    requires Contents(s.buffer) == LastN(Behind(s), BUFFER_SIZE)
    ensures AllSpliced(BusStep(s))
  {
    match s.pc
    case Idle => TakeSplices(s);
    case Check(_, _, _) =>
    case Delete(_, _, _) =>
      var r := Second(s.ring);
      SplicedSame(s.conns[r], Disconnected(s.conns[r]), s.hist);
      UpdateSplices(s, Deleted(s), r);
    case ReplayNext(_, _, _, _) => JoinSplices(s);
    case Flush(_, _, target) =>
      FlushSplices(s.conns[target], s.hist);
      UpdateSplices(s, FlushedTo(s), target);
    case Send(_, _) => WalkSplices(s);
    case _ =>
  }

  lemma StepSplices(s: State, a: Action, t: State)
    requires AllSpliced(s) && Delivers(s) && Asked(s) && Born(s) && CanStep(s, a) && t == Step(s, a)
    requires a.Bus? ==> Hits(s)
    requires Contents(s.buffer) == LastN(Behind(s), BUFFER_SIZE)
    ensures AllSpliced(t)
  {
    match a
    case Bus => BusSplices(s);
    case Connect(w) => UpdateSplices(s, Connected(s, w), s.maxID + 1);
    case At(c, act) =>
      ActKeepsHistory(s.conns[c], act);
      SplicedSame(s.conns[c], DoAct(s.conns[c], act), s.hist);
      UpdateSplices(s, Step(s, a), c);
    case Emit(c, m) =>
      SplicedSame(s.conns[c], Emitted(s, c, m).conns[c], s.hist);
      UpdateSplices(s, Emitted(s, c, m), c);
  }

  lemma NextSplices(r: Run, i: nat)
    requires Steady(r, i + 1) && Spaced(r.states[i].hist, BUFFER_SIZE) && AllSpliced(r.states[i])
    ensures AllSpliced(r.states[i + 1])
  {
    AlwaysDelivers(r, i);
    AlwaysAsked(r, i);
    AlwaysBorn(r, i);
    ReplaysAreWindows(r, i);
    RunStep(r, i);
    StepSplices(r.states[i], r.acts[i], r.states[i + 1]);
  }

  lemma HistoryGrows(r: Run, i: nat)
    requires IsRun(r) && i + 1 < |r.states|
    ensures r.states[i].hist <= r.states[i + 1].hist
    ensures r.states[i + 1].hist[..|r.states[i].hist|] == r.states[i].hist
  {
    NeverCrashes(r, i);
    RunKeepsPast(r, i, i + 1, HUB);
  }

  lemma {:induction false} AlwaysSpliced(r: Run, i: nat)
    requires Steady(r, i) && Spaced(r.states[i].hist, BUFFER_SIZE)
    ensures AllSpliced(r.states[i])
  {
    if i > 0 {
      HistoryGrows(r, i - 1);
      SpacedPrefix(r.states[i].hist, |r.states[i - 1].hist|, BUFFER_SIZE);
      AlwaysSpliced(r, i - 1);
      NextSplices(r, i - 1);
    }
  }
}
