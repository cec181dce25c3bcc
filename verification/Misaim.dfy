/** When re-targeting loses the end of a walk, and what the walk then does. */
module Misaims {
  import opened Sequences
  import opened Rings
  import opened Connections
  import opened Systems
  import opened SystemSafety
  import opened Delivery
  import opened Removals

  /** Re-targeting past a connection that is still there puts the end elsewhere than where the unsent members end. */
  lemma MisaimedIsLate(s: State)
    requires Delivers(s) && NoDup(s.ring) && Misaimed(s)
    ensures OnTrack(Retargeted(s)) && !OnTime(Retargeted(s))
  {
    var ring, stop, t := s.ring, s.pc.stop, Retargeted(s);
    var d := IndexOf(ring, stop);
    var n := |s.hist|;
    if d == 0 {
      assert Due(s) == Span(1, |ring|) && Follower(ring, stop) == ring[1];
      assert Position(s.conns[ring[1]]) == n - 1;
      assert IndexOf(ring, ring[1]) == 1;
      assert Due(t) == Span(1, 1);
    } else {
      assert Due(s) == Span(1, d);
      assert Position(s.conns[ring[d]]) == n;
      FollowerDistance(ring, d);
      assert Due(t) == Span(1, d + 1);
    }
  }

  lemma FollowerDistance(ring: seq<nat>, d: nat)
    requires NoDup(ring) && 1 <= d < |ring|
    ensures Follower(ring, ring[d]) in ring && Distance(ring, Follower(ring, ring[d])) == d + 1
  {
    assert IndexOf(ring, ring[d]) == d;
    if d + 1 < |ring| {
      assert IndexOf(ring, ring[d + 1]) == d + 1;
    }
  }

  /** The walk keeps its end where the unsent members end if and only if it is not misaimed. */
  lemma RetargetDeliversIff(s: State)
    requires Delivers(s) && NoDup(s.ring) && s.pc.Retarget?
    ensures Delivers(Retargeted(s)) <==> !Misaimed(s)
  {
    if Misaimed(s) {
      MisaimedIsLate(s);
    } else {
      RetargetDelivers(s);
    }
  }

  /** In any run, the invariant of delivery lasts through a bus step if and only if that step is not a misaimed one. */
  lemma DeliveryLastsIff(r: Run, i: nat)
    requires Aimed(r, i) && i < |r.acts| && r.acts[i].Bus?
    ensures Delivers(r.states[i + 1]) <==> !Misaimed(r.states[i])
  {
    var s := r.states[i];
    AlwaysSafe(r, i);
    AlwaysDelivers(r, i);
    RunStep(r, i);
    if s.pc.Retarget? {
      RetargetDeliversIff(s);
    } else {
      StepDelivers(s, Bus, r.states[i + 1]);
    }
  }

  // ---- where misaimed walks come from ----

  /** From its peek at the next connection to a removal and on to the re-targeting, the bus goroutine makes just
      these steps. */
  ghost predicate PeekToRetarget(r: Run, i: nat, j: nat, k: nat) {
    && IsRun(r) && i < j < k < |r.states|
    && r.states[i].pc.PeekNext? && r.acts[i].Bus? && r.states[j].pc.Delete? && r.acts[j].Bus?
    && (forall x :: i < x < j ==> r.acts[x].Bus? ==> r.states[x].pc.Peek? || r.states[x].pc.Check?)
    && (forall x :: j < x < k ==> !r.acts[x].Bus?)
  }

  /** Where the bus goroutine is while it prepares the connection after peeking at `next`. */
  predicate Preparing(pc: Pc, stop: nat, next: nat) {
    match pc
    case Peek(_, at) => at == AtWalk(stop, next)
    case Check(_, at, _) => at == AtWalk(stop, next)
    case Delete(_, at, _) => at == AtWalk(stop, next)
    case ReplayNext(_, at, _, _) => at == AtWalk(stop, next)
    case Flush(_, at, _) => at == AtWalk(stop, next)
    case Advance(_, at) => at == AtWalk(stop, next)
    case _ => false
  }

  lemma {:induction false} StaysPreparing(r: Run, i: nat, j: nat, stop: nat, next: nat)
    requires IsRun(r) && i <= j < |r.states| && Preparing(r.states[i].pc, stop, next)
    requires forall x :: i <= x < j ==> r.acts[x].Bus? ==> r.states[x].pc.Peek? || r.states[x].pc.Check?
    ensures Preparing(r.states[j].pc, stop, next)
    decreases j - i
  {
    if i < j {
      StaysPreparing(r, i, j - 1, stop, next);
      NeverCrashes(r, j - 1);
      RunStep(r, j - 1);
    }
  }

  lemma WaitingKeeps(s: State, a: Action, c: nat)
    requires CanStep(s, a) && !a.Bus? && Membership(s) && c in s.conns
    ensures var t := Step(s, a); t.pc == s.pc && c in t.conns && (c in t.ring <==> c in s.ring)
  {
    InsertedKeeps(s.ring, s.maxID + 1);
  }

  lemma {:induction false} WaitsWith(r: Run, i: nat, j: nat, c: nat)
    requires IsRun(r) && i <= j < |r.states| && c in r.states[i].conns && forall x :: i <= x < j ==> !r.acts[x].Bus?
    ensures r.states[j].pc == r.states[i].pc && c in r.states[j].conns
    ensures c in r.states[j].ring <==> c in r.states[i].ring
    decreases j - i
  {
    if i < j {
      WaitsWith(r, i, j - 1, c);
      AlwaysSafe(r, j - 1);
      RunStep(r, j - 1);
      WaitingKeeps(r.states[j - 1], r.acts[j - 1], c);
    }
  }

  lemma StillPreparing(r: Run, i: nat, j: nat, k: nat)
    requires PeekToRetarget(r, i, j, k)
    ensures r.states[i].ring != []
    ensures Preparing(r.states[j].pc, r.states[i].pc.stop, Second(r.states[i].ring))
  {
    NeverCrashes(r, i);
    RunStep(r, i);
    StaysPreparing(r, i + 1, j, r.states[i].pc.stop, Second(r.states[i].ring));
  }

  /** A walk is misaimed if and only if the connection it peeked at next is its end, and a pod has connected between
      that peek and the removal that followed (unless the ring has one member). */
  lemma MisaimedIffConnected(r: Run, i: nat, j: nat, k: nat)
    requires PeekToRetarget(r, i, j, k)
    ensures r.states[i].ring != []
    ensures Misaimed(r.states[k]) <==>
      && r.states[i].pc.stop == Second(r.states[i].ring)
      && r.states[j].maxID != r.states[i].maxID && |r.states[k].ring| > 1
  {
    StillPreparing(r, i, j, k);
    NeverCrashes(r, j);
    RunStep(r, j);
    var stop, next := r.states[i].pc.stop, Second(r.states[i].ring);
    RemovalHitsNextIff(r, i, j);
    NextIsKnown(r, i, j + 1);
    WaitsWith(r, j + 1, k, next);
  }

  lemma NextIsKnown(r: Run, i: nat, j: nat)
    requires IsRun(r) && i <= j < |r.states|
    ensures r.states[i].ring != [] && Second(r.states[i].ring) in r.states[j].conns
  {
    AlwaysSafe(r, i);
    assert Second(r.states[i].ring) in r.states[i].ring;
    RunKeepsPast(r, i, j, Second(r.states[i].ring));
  }

  // ---- one step too far: a message twice ----

  /** A send to someone who has the message already repeats it. */
  lemma SecondSendRepeats(s: State)
    requires Slices(s) && s.pc.Send? && s.ring != [] && Position(s.conns[s.ring[0]]) == |s.hist|
    ensures var c, d := s.conns[s.ring[0]], SentTo(s).conns[s.ring[0]];
      Walked(d.log) == Walked(c.log) + [s.pc.msg] && Position(d) == |s.hist| + 1 && !Slices(SentTo(s))
  {
    SentBatch(s.conns[s.ring[0]].log, [s.pc.msg], Walk);
  }

  /** Two bus steps: the end is moved and the ring steps on. */
  function SteppedOn(s: State): State
    requires s.pc.Retarget? && s.ring != []
  {
    Advanced(Retargeted(s))
  }

  lemma OvershootGoesOn(s: State)
    requires NoDup(s.ring) && Misaimed(s) && s.pc.stop == Second(s.ring)
    ensures var u := SteppedOn(s);
      && BusStep(BusStep(s)) == u && u.pc == Send(s.pc.msg, Third(s.ring))
      && u.ring == Rotated(s.ring) && u.ring[0] == s.pc.stop && u.conns == s.conns && u.hist == s.hist
  {
    FollowerDistance(s.ring, 1);
  }

  lemma EndIsSent(s: State)
    requires Delivers(s) && Misaimed(s) && s.pc.stop == Second(s.ring)
    ensures Position(s.conns[s.pc.stop]) == |s.hist|
  {
    assert IndexOf(s.ring, s.ring[1]) <= 1;
  }

  /** If the lost end is the next connection, the walk goes on to it and sends it the message again. */
  lemma OvershootRepeats(s: State)
    requires Delivers(s) && NoDup(s.ring) && Misaimed(s) && s.pc.stop == Second(s.ring)
    ensures SteppedOn(s).pc.Send? && BusStep(BusStep(BusStep(s))) == SentTo(SteppedOn(s))
    ensures RepeatsTo(s, SentTo(SteppedOn(s)), s.pc.stop)
  {
    OvershootGoesOn(s);
    EndIsSent(s);
    SecondSendRepeats(SteppedOn(s));
  }

  /** By the later state a connection has been walked the message in hand once more than the bus took messages
      since its insertion. */
  ghost predicate RepeatsTo(s: State, t: State, c: nat)
    requires s.hist != []
  {
    && c in s.conns && c in t.conns && t.hist == s.hist
    && Walked(t.conns[c].log) == Walked(s.conns[c].log) + [s.hist[|s.hist| - 1]]
    && Position(t.conns[c]) == |t.hist| + 1 && !Slices(t)
  }

  lemma DivertedDeleteDelivers(s: State, wantsReplay: bool)
    requires Delivers(s) && Membership(s) && HubStays(s) && s.pc.Delete? && CanBus(Connected(s, wantsReplay))
    ensures Delivers(Deleted(Connected(s, wantsReplay)))
  {
    var t := Connected(s, wantsReplay);
    ConnectDelivers(s, wantsReplay);
    ConnectKeepsMembership(s, wantsReplay);
    DeleteDelivers(t);
  }

  /** One pod that connects just before a removal is enough: if the walk's end was to be removed, the newcomer is
      removed in its place, the end is moved on nevertheless, and three bus steps later the walk has sent its
      message to its start again. */
  lemma ConnectMakesOvershoot(s: State, wantsReplay: bool)
    requires Delivers(s) && Membership(s) && HubStays(s) && s.pc.Delete?
    requires s.pc.at.AtWalk? && s.pc.at.stop == s.pc.at.next && s.pc.at.stop == Second(s.ring)
    ensures CanBus(Connected(s, wantsReplay))
    ensures var d := Deleted(Connected(s, wantsReplay));
      && Misaimed(d) && d.hist == s.hist && SteppedOn(d).pc.Send?
      && BusStep(BusStep(BusStep(d))) == SentTo(SteppedOn(d))
      && RepeatsTo(d, SentTo(SteppedOn(d)), Second(s.ring))
  {
    ConnectDivertsRemoval(s, wantsReplay);
    DivertedDeleteDelivers(s, wantsReplay);
    var d := Deleted(Connected(s, wantsReplay));
    assert |s.ring| >= 2 && Second(s.ring) in s.ring;
    assert d.pc == Retarget(s.pc.msg, s.pc.at.stop, s.pc.at.next);
    OvershootRepeats(d);
  }

  // ---- one step too few: members left out ----

  /** If the lost end is the current connection, the walk ends at once and leaves everyone else without the message. */
  lemma UndershootMisses(s: State)
    requires Delivers(s) && NoDup(s.ring) && Misaimed(s) && s.pc.stop == s.ring[0]
    ensures var t := SteppedOn(s);
      && BusStep(BusStep(s)) == t
      && t.pc == Push(s.pc.msg) && t.hist == s.hist
      && forall c :: c in t.ring && c != s.pc.stop ==> c in t.conns && Position(t.conns[c]) == |t.hist| - 1
  {
    var t := SteppedOn(s);
    assert IndexOf(s.ring, s.ring[0]) == 0;
    forall c | c in t.ring && c != s.pc.stop ensures Position(t.conns[c]) == |t.hist| - 1 {
      var i :| 0 <= i < |s.ring| && s.ring[i] == c;
    }
  }
}
