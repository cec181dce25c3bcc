/** Whom a removal or a replay hits when pods connect while the bus goroutine prepares the next connection. */
module Removals {
  import opened Sequences
  import opened Rings
  import opened Feedback
  import opened Connections
  import opened MsgBuffers
  import opened Systems
  import opened SystemSafety

  /** From state `i` to state `j` no connection is removed and the ring does not step on. */
  ghost predicate Grows(r: Run, i: nat, j: nat) {
    && IsRun(r) && i <= j < |r.states|
    && forall k :: i <= k < j ==> r.acts[k].Bus? ==> !r.states[k].pc.Delete? && !r.states[k].pc.Advance?
  }

  /** At most one newcomer, right behind the current connection. */
  predicate GrowsByOne(s: State, t: State) {
    (t.maxID == s.maxID && t.ring == s.ring) || (t.maxID == s.maxID + 1 && t.ring == Inserted(s.ring, t.maxID))
  }

  /** The ring is unchanged, or its second place is the latest connection's; `c` has not left. */
  predicate Grown(s: State, t: State, c: nat) {
    && c in t.ring && s.maxID <= t.maxID
    && if t.maxID == s.maxID then t.ring == s.ring else Second(t.ring) == t.maxID
  }

  lemma GrowsOn(s: State, t: State, u: State, c: nat)
    requires Grown(s, t, c) && GrowsByOne(t, u)
    ensures Grown(s, u, c)
  {
    if u.maxID != t.maxID {
      var k := IndexOf(t.ring, c);
      assert u.ring[if k == 0 then 0 else k + 1] == c;
    }
  }

  lemma {:induction false} SecondWhileGrowing(r: Run, i: nat, j: nat, c: nat)
    requires Grows(r, i, j) && c in r.states[i].ring
    ensures Grown(r.states[i], r.states[j], c)
    decreases j - i
  {
    if i < j {
      SecondWhileGrowing(r, i, j - 1, c);
      RunStep(r, j - 1);
      GrowsOn(r.states[i], r.states[j - 1], r.states[j], c);
    }
  }

  lemma DeletedIsSecond(s: State, c: nat)
    requires NoDup(s.ring) && s.pc.Delete? && CanBus(s) && c in s.ring
    ensures c !in Deleted(s).ring <==> c == Second(s.ring)
  {
  }

  /** Whichever connection was next at some time before a removal, with nothing removed and no step in between, the
      removal hits it if and only if no pod has connected since. */
  lemma RemovalHitsNextIff(r: Run, i: nat, j: nat)
    requires Grows(r, i, j) && j < |r.acts| && r.acts[j].Bus? && r.states[j].pc.Delete?
    ensures r.states[i].ring != []
    ensures Second(r.states[i].ring) !in r.states[j + 1].ring <==> r.states[j].maxID == r.states[i].maxID
  {
    AlwaysSafe(r, i);
    AlwaysSafe(r, j);
    var c := Second(r.states[i].ring);
    assert c in r.states[i].ring;
    SecondWhileGrowing(r, i, j, c);
    RunStep(r, j);
    DeletedIsSecond(r.states[j], c);
  }

  /** Between this peek and that removal the bus goroutine makes one step, the check. */
  ghost predicate OneCheck(r: Run, i: nat, j: nat) {
    && IsRun(r) && i < j < |r.acts| && r.states[i].pc.Peek? && r.acts[i].Bus? && r.acts[j].Bus?
    && forall k :: i < k < j ==> r.acts[k].Bus? ==> r.states[k].pc.Check?
  }

  /** The connection that `prepareNext` peeked at and checked is the one it removes if and only if no pod connected
      between the peek and the removal. */
  lemma RemovalHitsCheckedIff(r: Run, i: nat, j: nat)
    requires OneCheck(r, i, j) && r.states[j].pc.Delete?
    ensures r.states[i + 1].pc.Check?
    ensures r.states[i + 1].pc.target !in r.states[j + 1].ring <==> r.states[j].maxID == r.states[i].maxID
  {
    NeverCrashes(r, i);
    RunStep(r, i);
    RemovalHitsNextIff(r, i, j);
  }

  /** The buffer goes to the connection that is next by then, and nobody else is sent anything. */
  ghost predicate ReplayWentTo(s: State, t: State, to: nat) {
    && to in s.conns && t.conns.Keys == s.conns.Keys
    && t.conns[to].log == s.conns[to].log + Tagged(Contents(s.buffer), Replayed)
    && forall d :: d in s.conns && d != to ==> t.conns[d] == s.conns[d]
  }

  /** The connection it checked is the one that gets the replay if and only if no pod connected between the peek and
      the replay; otherwise the latest connection gets it, and nobody else. */
  lemma ReplayGoesToCheckedIff(r: Run, i: nat, j: nat)
    requires OneCheck(r, i, j) && r.states[j].pc.ReplayNext?
    ensures r.states[i + 1].pc.Check? && r.states[j].ring != []
    ensures var to := Second(r.states[j].ring);
      && ReplayWentTo(r.states[j], r.states[j + 1], to)
      && (to == r.states[i + 1].pc.target <==> r.states[j].maxID == r.states[i].maxID)
      && (to == r.states[i + 1].pc.target || to == r.states[j].maxID)
  {
    NeverCrashes(r, j);
    PeekedSecond(r, i, j);
    RunStep(r, j);
  }

  lemma PeekedSecond(r: Run, i: nat, j: nat)
    requires OneCheck(r, i, j)
    ensures r.states[i + 1].pc.Check? && r.states[j].ring != []
    ensures var c, to := r.states[i + 1].pc.target, Second(r.states[j].ring);
      if r.states[j].maxID == r.states[i].maxID then to == c else to == r.states[j].maxID && c != to
  {
    AlwaysSafe(r, i);
    RunStep(r, i);
    var c := Second(r.states[i].ring);
    assert c in r.states[i].ring;
    SecondWhileGrowing(r, i, j, c);
  }

  /** A pod that connects just before a removal is closed in the place of the connection to be removed, before
      anything was sent to it; the ring and everyone else are as they were. */
  lemma ConnectDivertsRemoval(s: State, wantsReplay: bool)
    requires Membership(s) && s.pc.Delete? && s.ring != []
    ensures var t := Connected(s, wantsReplay);
      && CanBus(t)
      && var u := Deleted(t);
        && BusStep(t) == u && u.ring == s.ring && u.hist == s.hist
        && !u.conns[t.maxID].connected && u.conns[t.maxID].log == []
        && forall c :: c in s.conns ==> c in u.conns && u.conns[c] == s.conns[c]
  {
    var t := Connected(s, wantsReplay);
    assert Second(t.ring) == t.maxID && t.maxID !in s.conns;
  }

  // ---- a walk starts at a connection that was kept ----

  /** The check about to be made before a walk keeps its connection. */
  predicate Keeping(s: State) {
    && s.pc.Check? && s.pc.at.AtStart?
    && Decide(StatusOf(s.conns[s.pc.target].failed, s.conns[s.pc.target].feedback)).Keep?
  }

  /** Step `k` checked a connection before a walk and kept it, and nothing was removed from then to state `i`. */
  ghost predicate KeptSince(r: Run, k: nat, i: nat)
    requires k < |r.acts| && k < |r.states|
  {
    r.acts[k].Bus? && Keeping(r.states[k]) && Grows(r, k, i)
  }

  predicate KeepsBeforeWalk(pc: Pc) {
    (pc.ReplayNext? || pc.Flush? || pc.Advance?) && pc.at.AtStart?
  }

  lemma BusKeepsFirst(s: State, t: State)
    requires CanBus(s) && t == BusStep(s) && KeepsBeforeWalk(t.pc)
    ensures Keeping(s) || (KeepsBeforeWalk(s.pc) && !s.pc.Advance?)
  {
  }

  lemma KeepsFirst(s: State, a: Action, t: State)
    requires CanStep(s, a) && t == Step(s, a) && KeepsBeforeWalk(t.pc)
    ensures if a.Bus? then Keeping(s) || (KeepsBeforeWalk(s.pc) && !s.pc.Advance?) else s.pc == t.pc
  {
    if a.Bus? {
      BusKeepsFirst(s, t);
    }
  }

  lemma KeepsFirstOf(r: Run, i: nat)
    requires IsRun(r) && i < |r.acts| && KeepsBeforeWalk(r.states[i + 1].pc)
    ensures var s := r.states[i];
      if r.acts[i].Bus? then Keeping(s) || (KeepsBeforeWalk(s.pc) && !s.pc.Advance?) else KeepsBeforeWalk(s.pc)
  {
    RunStep(r, i);
    KeepsFirst(r.states[i], r.acts[i], r.states[i + 1]);
  }

  lemma {:induction false} KeptBeforeWalk(r: Run, i: nat) returns (k: nat)
    requires IsRun(r) && i < |r.states| && KeepsBeforeWalk(r.states[i].pc)
    ensures k < i && KeptSince(r, k, i)
  {
    if i == 0 {
      assert false;
    }
    KeepsFirstOf(r, i - 1);
    if r.acts[i - 1].Bus? && Keeping(r.states[i - 1]) {
      k := i - 1;
    } else {
      k := KeptBeforeWalk(r, i - 1);
    }
  }

  /** When a walk steps onto its first receiver, a connection was checked before and kept, with nothing removed since;
      whoever was next at that check is the first receiver if and only if no pod has connected since. */
  lemma WalksStartPrepared(r: Run, i: nat) returns (k: nat)
    requires IsRun(r) && i < |r.acts| && r.acts[i].Bus? && r.states[i].pc.Advance? && r.states[i].pc.at.AtStart?
    ensures k < i && KeptSince(r, k, i) && r.states[k].ring != [] && r.states[i + 1].pc.Send?
    ensures r.states[i + 1].ring != [] && r.states[i + 1].ring[0] == r.states[i + 1].pc.stop
    ensures r.states[i + 1].ring[0] == Second(r.states[k].ring) <==> r.states[i].maxID == r.states[k].maxID
  {
    k := KeptBeforeWalk(r, i);
    AlwaysSafe(r, k);
    NeverCrashes(r, i);
    RunStep(r, i);
    var c := Second(r.states[k].ring);
    assert c in r.states[k].ring;
    SecondWhileGrowing(r, k, i, c);
  }
}
