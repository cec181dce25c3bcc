/** Which connection receives each message first. */
module Rotation {
  import opened Sequences
  import opened Rings
  import opened Systems
  import opened SystemSafety

  predicate AtStartPc(pc: Pc) {
    match pc
    case Peek(_, at) => at.AtStart?
    case Check(_, at, _) => at.AtStart?
    case Delete(_, at, _) => at.AtStart?
    case ReplayNext(_, at, _, _) => at.AtStart?
    case Flush(_, at, _) => at.AtStart?
    case Advance(_, at) => at.AtStart?
    case _ => false
  }

  /** The end of the walk in progress; re-targeting only follows a removal. */
  predicate EndsAt(pc: Pc, stop: nat) {
    match pc
    case Peek(_, at) => at.AtWalk? && at.stop == stop
    case Check(_, at, _) => at.AtWalk? && at.stop == stop
    case Delete(_, at, _) => at.AtWalk? && at.stop == stop
    case ReplayNext(_, at, _, _) => at.AtWalk? && at.stop == stop
    case Flush(_, at, _) => at.AtWalk? && at.stop == stop
    case Advance(_, at) => at.AtWalk? && at.stop == stop
    case Send(_, e) => e == stop
    case PeekNext(_, e) => e == stop
    case _ => false
  }

  ghost predicate TurnOf(ring: seq<nat>, first: seq<nat>) {
    exists j :: 0 <= j < |first| && ring == From(first, j)
  }

  /** Where the bus is relative to its last walk, as long as the ring has not changed since. */
  ghost predicate SinceLast(s: State, last: Start) {
    last.ring != [] && NoDup(last.ring) && last.epoch <= s.epoch &&
    (last.epoch == s.epoch ==>
      if BetweenWalks(s.pc) then s.ring == last.ring
      else EndsAt(s.pc, last.ring[0]) && TurnOf(s.ring, last.ring))
  }

  /** Walks that start in the same epoch follow one another round the ring. */
  ghost predicate Successive(starts: seq<Start>) {
    forall i :: 0 <= i < |starts| - 1 ==>
      starts[i].epoch == starts[i + 1].epoch ==> starts[i + 1].ring == Rotated(starts[i].ring)
  }

  ghost predicate Rotates(s: State) {
    && Successive(s.starts)
    && (s.starts != [] ==> SinceLast(s, s.starts[|s.starts| - 1]))
    && |s.starts| == |s.hist| - if AtStartPc(s.pc) then 1 else 0
  }

  lemma TurnGoesOn(ring: seq<nat>, first: seq<nat>)
    requires TurnOf(ring, first) && NoDup(first)
    ensures TurnOf(Rotated(ring), first)
    ensures Rotated(ring)[0] == first[0] ==> Rotated(ring) == first
  {
    var j :| 0 <= j < |first| && ring == From(first, j);
    RotatedFrom(first, j);
    if j + 1 == |first| {
      assert Rotated(ring) == From(first, 0);
    } else {
      assert Rotated(ring)[0] == first[j + 1];
    }
  }

  lemma WalkGoesOn(s: State, last: Start)
    requires SinceLast(s, last) && NoDup(s.ring) && s.ring != [] && s.pc.Advance? && s.pc.at.AtWalk?
    ensures SinceLast(Advanced(s), last)
  {
    if last.epoch == s.epoch {
      TurnGoesOn(s.ring, last.ring);
    }
  }

  lemma WalkOnRotates(s: State)
    requires Rotates(s) && NoDup(s.ring) && s.ring != [] && s.pc.Advance? && s.pc.at.AtWalk?
    ensures Rotates(Advanced(s))
  {
    var t := Advanced(s);
    assert t.starts == s.starts && t.hist == s.hist && !AtStartPc(t.pc);
    if s.starts != [] {
      WalkGoesOn(s, s.starts[|s.starts| - 1]);
    }
  }

  lemma StartRotates(s: State)
    requires Rotates(s) && NoDup(s.ring) && s.ring != [] && s.pc.Advance? && s.pc.at.AtStart?
    ensures Rotates(Advanced(s))
  {
    var t := Advanced(s);
    RotatedKeeps(s.ring);
    assert t.ring == From(t.ring, 0);
    assert TurnOf(t.ring, t.ring);
  }

  lemma ChangeRotates(s: State, t: State)
    requires Rotates(s) && t.starts == s.starts && t.hist == s.hist && t.epoch > s.epoch
    requires AtStartPc(t.pc) == AtStartPc(s.pc)
    ensures Rotates(t)
  {
  }

  predicate BetweenWalks(pc: Pc) {
    pc.Idle? || pc.Push? || AtStartPc(pc)
  }

  /** The bus goroutine goes on inside the same walk, or between the same two. */
  predicate SamePlace(s: State, t: State) {
    && t.starts == s.starts && t.ring == s.ring && t.epoch == s.epoch
    && |t.hist| - (if AtStartPc(t.pc) then 1 else 0) == |s.hist| - (if AtStartPc(s.pc) then 1 else 0)
    && BetweenWalks(t.pc) == BetweenWalks(s.pc)
  }

  lemma QuietStays(s: State)
    requires s.ring != [] && CanBus(s) && !s.pc.Advance? && !s.pc.Delete?
    ensures SamePlace(s, BusStep(s))
  {
  }

  lemma QuietRotates(s: State)
    requires Rotates(s) && Safe(s) && CanBus(s) && !s.pc.Advance? && !s.pc.Delete?
    ensures Rotates(BusStep(s))
  {
    var t := BusStep(s);
    QuietStays(s);
    forall stop | EndsAt(s.pc, stop) ensures EndsAt(t.pc, stop) {
    }
  }

  lemma StepRotates(s: State, a: Action, t: State)
    requires Rotates(s) && Safe(s) && CanStep(s, a) && t == Step(s, a)
    ensures Rotates(t)
  {
    match a
    case Bus =>
      if s.pc.Advance? {
        if s.pc.at.AtWalk? {
          WalkOnRotates(s);
        } else {
          StartRotates(s);
        }
      } else if s.pc.Delete? {
        ChangeRotates(s, Deleted(s));
      } else {
        QuietRotates(s);
      }
    case Connect(wantsReplay) => ChangeRotates(s, Connected(s, wantsReplay));
    case At(c, act) =>
    case Emit(c, m) =>
  }

  lemma {:induction false} AlwaysRotates(r: Run, i: nat)
    requires IsRun(r) && i < |r.states|
    ensures Rotates(r.states[i])
  {
    if i > 0 {
      AlwaysRotates(r, i - 1);
      AlwaysSafe(r, i - 1);
      RunStep(r, i - 1);
      StepRotates(r.states[i - 1], r.acts[i - 1], r.states[i]);
    }
  }

  /** The first receivers of the `n` messages from number `m` on. */
  function FirstReceivers(starts: seq<Start>, m: nat, n: nat): seq<nat>
    requires m + n <= |starts|
    requires forall i :: 0 <= i < |starts| ==> starts[i].ring != []
  {
    seq(n, j requires 0 <= j < n => starts[m + j].ring[0])
  }

  lemma {:induction false} StartsTurn(starts: seq<Start>, m: nat, j: nat)
    requires Successive(starts) && m + j < |starts|
    requires forall i :: m <= i <= m + j ==> starts[i].epoch == starts[m].epoch
    requires j < |starts[m].ring|
    ensures starts[m + j].ring == From(starts[m].ring, j)
  {
    if j > 0 {
      StartsTurn(starts, m, j - 1);
    }
  }

  /** Start number `k` is that of message number `k`: when the bus steps onto a first receiver, the message it is
      about to send there has the number of the start it records. */
  lemma StartIsOfMessage(r: Run, i: nat)
    requires IsRun(r) && i < |r.acts| && r.acts[i].Bus? && r.states[i].pc.Advance? && r.states[i].pc.at.AtStart?
    ensures var s, t := r.states[i], r.states[i + 1]; var k := |s.starts|;
      && k < |s.hist| && t.hist == s.hist && t.ring != [] && t.pc == Send(s.hist[k], t.ring[0])
      && t.starts == s.starts + [Start(t.ring, t.epoch)]
  {
    NeverCrashes(r, i);
    AlwaysRotates(r, i);
    AlwaysGrounded(r, i);
    RunStep(r, i);
  }

  /** While the ring does not change, `n` consecutive messages on a ring of `n` start at its members in
      ring order, so each member is the first receiver of exactly one of them. */
  lemma FirstReceiverRotates(r: Run, i: nat, m: nat)
    requires IsRun(r) && i < |r.states| && m < |r.states[i].starts|
    requires m + |r.states[i].starts[m].ring| <= |r.states[i].starts|
    requires forall j :: m <= j < m + |r.states[i].starts[m].ring| ==>
      r.states[i].starts[j].epoch == r.states[i].starts[m].epoch
    ensures forall k :: 0 <= k < |r.states[i].starts| ==> r.states[i].starts[k].ring != []
    ensures FirstReceivers(r.states[i].starts, m, |r.states[i].starts[m].ring|) == r.states[i].starts[m].ring
    ensures NoDup(r.states[i].starts[m].ring)
    ensures |r.states[i].starts| <= |r.states[i].hist| <= |r.states[i].starts| + 1
  {
    StartsAreRings(r, i);
    AlwaysRotates(r, i);
    var starts := r.states[i].starts;
    forall j | 0 <= j < |starts[m].ring| ensures starts[m + j].ring[0] == starts[m].ring[j] {
      StartsTurn(starts, m, j);
    }
  }

  ghost predicate StartsOnRings(starts: seq<Start>) {
    forall k :: 0 <= k < |starts| ==> starts[k].ring != [] && NoDup(starts[k].ring)
  }

  lemma AdvanceStartsOnRing(s: State)
    requires StartsOnRings(s.starts) && NoDup(s.ring) && s.ring != [] && s.pc.Advance?
    ensures StartsOnRings(Advanced(s).starts)
  {
    RotatedKeeps(s.ring);
  }

  lemma StepStartsOnRing(s: State, a: Action, t: State)
    requires StartsOnRings(s.starts) && NoDup(s.ring) && s.ring != [] && CanStep(s, a) && t == Step(s, a)
    ensures StartsOnRings(t.starts)
  {
    if a.Bus? {
      if s.pc.Advance? {
        AdvanceStartsOnRing(s);
      }
    }
  }

  lemma {:induction false} StartsAreRings(r: Run, i: nat)
    requires IsRun(r) && i < |r.states|
    ensures StartsOnRings(r.states[i].starts)
  {
    if i > 0 {
      StartsAreRings(r, i - 1);
      AlwaysSafe(r, i - 1);
      RunStep(r, i - 1);
      StepStartsOnRing(r.states[i - 1], r.acts[i - 1], r.states[i]);
    }
  }
}
