/** What every interleaving keeps: the ring and its members, the hub's place in it, the channels and the messages. */
module SystemSafety {
  import opened Sequences
  import opened Rings
  import opened Feedback
  import opened Connections
  import opened MsgBuffers
  import opened Systems

  /** The ring holds exactly the connections inserted and not removed, under distinct IDs never handed
      out twice, and exactly those are connected. */
  ghost predicate Membership(s: State) {
    && NoDup(s.ring)
    && (forall c :: c in s.conns <==> 1 <= c <= s.maxID)
    && (forall c :: c in s.conns ==> (c in s.ring <==> c !in s.stale))
    && (forall c :: c in s.stale ==> c in s.conns)
    && (forall c :: c in s.conns ==> (s.conns[c].connected <==> c in s.ring))
  }

  /** The hub is in the ring, and a removal never hits it. */
  ghost predicate HubStays(s: State) {
    && HUB in s.ring
    && !s.pc.Crashed?
    && (s.pc.Delete? ==> Second(s.ring) != HUB)
    && (s.pc.Check? ==> Second(s.ring) != HUB || s.pc.target == HUB)
  }

  ghost predicate HubQuiet(s: State) {
    HUB in s.conns && var c := s.conns[HUB];
    c.failed == [] && FailedOf(c.feedback) == [] && Disconnect !in c.feedback && c.pod.leaving == 0
  }

  ghost predicate AllSound(s: State) {
    forall c :: c in s.conns ==> Sound(s.conns[c])
  }

  ghost predicate Safe(s: State) {
    Membership(s) && HubStays(s) && HubQuiet(s) && AllSound(s)
  }

  // ---- the hub's pod stays quiet ----

  lemma ActKeepsQuiet(c: Conn, a: Act)
    requires CanAct(c, a) && !a.Leave? && !(a.Report? && !a.ok)
    requires c.failed == [] && FailedOf(c.feedback) == [] && Disconnect !in c.feedback && c.pod.leaving == 0
    ensures var d := DoAct(c, a);
      d.failed == [] && FailedOf(d.feedback) == [] && Disconnect !in d.feedback && d.pod.leaving == 0
  {
  }

  lemma BusKeepsHubQuiet(s: State)
    requires HubQuiet(s) && CanBus(s)
    ensures HubQuiet(BusStep(s))
  {
    match s.pc
    case Check(_, _, target) => assert FailedOf([]) == [];
    case _ =>
  }

  lemma StepKeepsHubQuiet(s: State, a: Action)
    requires HubQuiet(s) && Membership(s) && CanStep(s, a)
    ensures HubQuiet(Step(s, a))
  {
    match a
    case Bus => BusKeepsHubQuiet(s);
    case Connect(_) =>
    case At(c, act) =>
      if c == HUB {
        ActKeepsQuiet(s.conns[HUB], act);
      }
    case Emit(c, m) =>
  }

  // ---- membership and the hub's place ----

  lemma ConnectKeepsMembership(s: State, wantsReplay: bool)
    requires Membership(s)
    ensures Membership(Connected(s, wantsReplay))
  {
    var x, t := s.maxID + 1, Connected(s, wantsReplay);
    assert x !in s.ring && x !in s.stale;
    InsertedKeeps(s.ring, x);
    assert t.ring == Inserted(s.ring, x);
  }

  lemma DeleteKeepsMembership(s: State)
    requires Membership(s) && s.pc.Delete? && s.ring != [] && CanBus(s)
    ensures Membership(Deleted(s))
  {
    WithoutSecondKeeps(s.ring);
  }

  lemma AdvanceKeepsMembership(s: State)
    requires Membership(s) && s.pc.Advance? && s.ring != []
    ensures Membership(Advanced(s))
    ensures forall c :: c in Advanced(s).ring <==> c in s.ring
  {
  }

  /** Replacing a connection by one as connected as it was. */
  lemma UpdateKeepsMembership(s: State, t: State, c: nat)
    requires Membership(s) && c in s.conns && c in t.conns
    requires t.ring == s.ring && t.maxID == s.maxID && t.stale == s.stale && t.conns == s.conns[c := t.conns[c]]
    requires t.conns[c].connected == s.conns[c].connected
    ensures Membership(t)
  {
  }

  lemma BusKeepsMembership(s: State)
    requires Membership(s) && CanBus(s)
    ensures Membership(BusStep(s))
  {
    if s.ring != [] {
      match s.pc
      case Check(_, _, target) => UpdateKeepsMembership(s, Checked(s), target);
      case Delete(_, _, _) => DeleteKeepsMembership(s);
      case ReplayNext(_, _, _, _) => UpdateKeepsMembership(s, ReplayedTo(s), Second(s.ring));
      case Flush(_, _, target) => UpdateKeepsMembership(s, FlushedTo(s), target);
      case Advance(_, _) => AdvanceKeepsMembership(s);
      case Send(_, _) => UpdateKeepsMembership(s, SentTo(s), s.ring[0]);
      case _ =>
    } else if s.pc.Check? {
      UpdateKeepsMembership(s, Checked(s), s.pc.target);
    } else if s.pc.Flush? {
      UpdateKeepsMembership(s, FlushedTo(s), s.pc.target);
    }
  }

  lemma StepKeepsMembership(s: State, a: Action)
    requires Membership(s) && CanStep(s, a)
    ensures Membership(Step(s, a))
  {
    match a
    case Bus => BusKeepsMembership(s);
    case Connect(wantsReplay) => ConnectKeepsMembership(s, wantsReplay);
    case At(c, act) => assert DoAct(s.conns[c], act).connected == s.conns[c].connected;
    case Emit(c, m) =>
  }

  lemma BusKeepsHub(s: State)
    requires HubStays(s) && Membership(s) && HubQuiet(s) && CanBus(s)
    ensures HubStays(BusStep(s))
  {
    match s.pc
    case Check(_, _, target) =>
    case Delete(_, _, _) =>
    case Advance(_, _) =>
    case _ =>
  }

  // ---- soundness of every connection ----

  lemma UpdateKeepsSound(s: State, t: State, c: nat)
    requires AllSound(s) && c in t.conns && t.conns == s.conns[c := t.conns[c]] && Sound(t.conns[c])
    ensures AllSound(t)
  {
  }

  lemma DeleteKeepsSound(s: State)
    requires AllSound(s) && Membership(s) && s.pc.Delete? && s.ring != [] && CanBus(s)
    ensures AllSound(Deleted(s))
  {
    var r := Second(s.ring);
    UpdateKeepsSound(s, Deleted(s), r);
  }

  lemma SendsKeepSound(s: State)
    requires AllSound(s) && (s.pc.ReplayNext? || s.pc.Send?) && s.ring != []
    ensures AllSound(BusStep(s))
  {
    if s.pc.Send? {
      SendKeepsSound(s.conns[s.ring[0]], [s.pc.msg], Walk);
      UpdateKeepsSound(s, SentTo(s), s.ring[0]);
    } else {
      SendKeepsSound(s.conns[Second(s.ring)], Contents(s.buffer), Replayed);
      UpdateKeepsSound(s, ReplayedTo(s), Second(s.ring));
    }
  }

  lemma BusKeepsSound(s: State)
    requires AllSound(s) && Membership(s) && CanBus(s)
    ensures AllSound(BusStep(s))
  {
    match s.pc
    case Check(_, _, target) =>
      UpdateKeepsSound(s, Checked(s), target);
    case Flush(_, _, target) =>
      FlushMoves(s.conns[target]);
      UpdateKeepsSound(s, FlushedTo(s), target);
    case Delete(_, _, _) =>
      if s.ring != [] {
        DeleteKeepsSound(s);
      }
    case ReplayNext(_, _, _, _) =>
      if s.ring != [] {
        SendsKeepSound(s);
      }
    case Send(_, _) =>
      if s.ring != [] {
        SendsKeepSound(s);
      }
    case _ =>
  }

  lemma StepKeepsSound(s: State, a: Action)
    requires AllSound(s) && Membership(s) && CanStep(s, a)
    ensures AllSound(Step(s, a))
  {
    match a
    case Bus => BusKeepsSound(s);
    case Connect(wantsReplay) => NewIsSound(wantsReplay, NextMessage(s));
    case At(c, act) => ActKeepsSound(s.conns[c], act);
    case Emit(c, m) =>
  }

  lemma StepKeepsSafe(s: State, a: Action, t: State)
    requires Safe(s) && CanStep(s, a) && t == Step(s, a)
    ensures Safe(t)
  {
    StepKeepsMembership(s, a);
    StepKeepsHubQuiet(s, a);
    StepKeepsSound(s, a);
    match a
    case Bus => BusKeepsHub(s);
    case Connect(wantsReplay) =>
    case At(c, act) =>
    case Emit(c, m) =>
  }

  // ---- what the bus goroutine has in hand ----

  /** The message in hand is the last one taken, and the connection being prepared is in the ring: only the bus
      goroutine takes connections out. */
  predicate Grounded(s: State) {
    && (!s.pc.Idle? && !s.pc.Crashed? ==> s.hist != [] && s.pc.msg == s.hist[|s.hist| - 1])
    && (s.pc.Check? ==> s.pc.target in s.ring)
    && (s.pc.Delete? ==> s.pc.target in s.ring)
    && (s.pc.ReplayNext? ==> s.pc.target in s.ring)
    && (s.pc.Flush? ==> s.pc.target in s.ring)
  }

  lemma BusKeepsGrounded(s: State)
    requires Grounded(s) && s.ring != [] && CanBus(s)
    ensures Grounded(BusStep(s))
  {
  }

  lemma StepKeepsGrounded(s: State, a: Action, t: State)
    requires Grounded(s) && Membership(s) && s.ring != [] && CanStep(s, a) && t == Step(s, a)
    ensures Grounded(t)
  {
    match a
    case Bus => BusKeepsGrounded(s);
    case Connect(_) => InsertedKeeps(s.ring, s.maxID + 1);
    case _ =>
  }

  // ---- theorems over whole runs ----

  lemma {:induction false} AlwaysSafe(r: Run, i: nat)
    requires IsRun(r) && i < |r.states|
    ensures Safe(r.states[i])
  {
    if i == 0 {
      NewIsSound(false, 0);
    } else {
      AlwaysSafe(r, i - 1);
      RunStep(r, i - 1);
      StepKeepsSafe(r.states[i - 1], r.acts[i - 1], r.states[i]);
    }
  }

  lemma {:induction false} AlwaysGrounded(r: Run, i: nat)
    requires IsRun(r) && i < |r.states|
    ensures Grounded(r.states[i])
  {
    if i > 0 {
      AlwaysSafe(r, i - 1);
      AlwaysGrounded(r, i - 1);
      RunStep(r, i - 1);
      StepKeepsGrounded(r.states[i - 1], r.acts[i - 1], r.states[i]);
    }
  }

  /** The ring is never empty, so the bus goroutine never dereferences nil, and the hub is never removed. */
  lemma NeverCrashes(r: Run, i: nat)
    requires IsRun(r) && i < |r.states|
    ensures HUB in r.states[i].ring && !r.states[i].pc.Crashed?
  {
    AlwaysSafe(r, i);
  }

  /** Under every interleaving the ring holds exactly the connections inserted and not yet removed. */
  lemma RingIsMembership(r: Run, i: nat)
    requires IsRun(r) && i < |r.states|
    ensures var s := r.states[i];
      NoDup(s.ring) && Elements(s.ring) == s.conns.Keys - s.stale.Keys
  {
    AlwaysSafe(r, i);
  }

  /** Messages are conserved on every connection: all that walks and replays handed to it is in flow,
      reported as failed or held as failed, each copy once. */
  lemma MessagesAreConserved(r: Run, i: nat, c: nat)
    requires IsRun(r) && i < |r.states| && c in r.states[i].conns
    ensures var conn := r.states[i].conns[c]; multiset(Fresh(conn.log)) == Held(conn)
  {
    AlwaysSafe(r, i);
    ConservedMeans(r.states[i].conns[c]);
  }

  /** A message channel is closed exactly when its connection has left the ring, once, and no send
      goroutine ever writes to a closed one. */
  lemma ChannelsAreSafe(r: Run, i: nat, c: nat)
    requires IsRun(r) && i < |r.states| && c in r.states[i].conns
    ensures var s := r.states[i]; var conn := s.conns[c];
      && (conn.open <==> c in s.ring)
      && conn.closes == (if c in s.ring then 0 else 1)
      && (forall m :: CanAct(conn, Write(m)) ==> conn.open)
  {
    AlwaysSafe(r, i);
  }

  lemma StepKeepsRemoved(s: State, a: Action, t: State, c: nat)
    requires Safe(s) && CanStep(s, a) && t == Step(s, a) && c in s.conns && c !in s.ring
    ensures c in t.conns && c !in t.ring
  {
    StepKeepsSafe(s, a, t);
    if a.Bus? && s.pc.Delete? {
      assert c in Step(s, a).stale;
    } else if a.Bus? && s.pc.Advance? {
      AdvanceKeepsMembership(s);
    }
  }

  /** A removed connection never re-enters the ring. */
  lemma {:induction false} RemovedForGood(r: Run, i: nat, j: nat, c: nat)
    requires IsRun(r) && i <= j < |r.states|
    requires c in r.states[i].conns && c !in r.states[i].ring
    ensures c in r.states[j].conns && c !in r.states[j].ring
    decreases j - i
  {
    if i < j {
      RemovedForGood(r, i, j - 1, c);
      AlwaysSafe(r, j - 1);
      RunStep(r, j - 1);
      StepKeepsRemoved(r.states[j - 1], r.acts[j - 1], r.states[j], c);
    }
  }

  /** Who is in the ring and was known before, was in the ring before. */
  lemma MemberWas(r: Run, i: nat, c: nat)
    requires IsRun(r) && i < |r.acts| && c in r.states[i + 1].ring && c in r.states[i].conns
    ensures c in r.states[i].ring
  {
    AlwaysSafe(r, i);
    if c !in r.states[i].ring {
      RemovedForGood(r, i, i + 1, c);
    }
  }

  lemma StepKeepsRemovedLog(s: State, a: Action, t: State, c: nat)
    requires Safe(s) && Grounded(s) && CanStep(s, a) && t == Step(s, a) && c in s.conns && c !in s.ring
    ensures c in t.conns && c !in t.ring && t.conns[c].log == s.conns[c].log
  {
    StepKeepsRemoved(s, a, t, c);
    if a.At? {
      ActKeepsHistory(s.conns[a.conn], a.act);
    }
  }

  /** Whoever was removed is never sent anything again, by a walk, a replay or a flush. */
  lemma {:induction false} RemovedGetsNothing(r: Run, i: nat, j: nat, c: nat)
    requires IsRun(r) && i <= j < |r.states|
    requires c in r.states[i].conns && c !in r.states[i].ring
    ensures c in r.states[j].conns && c !in r.states[j].ring
    ensures r.states[j].conns[c].log == r.states[i].conns[c].log
    decreases j - i
  {
    if i < j {
      RemovedGetsNothing(r, i, j - 1, c);
      AlwaysSafe(r, j - 1);
      AlwaysGrounded(r, j - 1);
      RunStep(r, j - 1);
      StepKeepsRemovedLog(r.states[j - 1], r.acts[j - 1], r.states[j], c);
    }
  }
}
