/** Who holds as many failed messages as the high-water mark, in every run. */
module Marks {
  import opened Sequences
  import opened Feedback
  import opened Connections
  import opened Systems
  import opened SystemSafety
  import opened Replays

  /** The connection holds at least as many failed messages as the high-water mark. */
  predicate Over(s: State, c: nat) {
    c in s.conns && |s.conns[c].failed| >= HIGH_WATER_MARK
  }

  /** The connection was checked and is to be removed. */
  predicate Pending(s: State, c: nat) {
    s.pc.Delete? && s.pc.target == c
  }

  /** A connection that is about to be sent its failed messages once more is below the mark. */
  predicate FlushesBelow(s: State) {
    s.pc.Flush? || s.pc.ReplayNext? ==> !Over(s, s.pc.target)
  }

  lemma CheckMarks(s: State)
    requires s.pc.Check?
    ensures var t := Checked(s);
      FlushesBelow(t) && (Over(s, s.pc.target) ==> Over(t, s.pc.target)) && (Over(t, s.pc.target) ==> Pending(t, s.pc.target))
  {
    var c := s.conns[s.pc.target];
    RemovalRule(c.failed, c.feedback);
  }

  lemma BusMarks(s: State, c: nat)
    requires FlushesBelow(s) && NoDup(s.ring) && s.ring != [] && CanBus(s)
    ensures var t := BusStep(s);
      && FlushesBelow(t) && (Over(s, c) ==> Over(t, c)) && (Over(t, c) ==> Over(s, c) || Pending(t, c))
      && (Pending(s, c) && Hits(s) ==> c !in t.ring)
  {
    if s.pc.Check? {
      CheckMarks(s);
    }
  }

  lemma StepMarks(s: State, a: Action, t: State, c: nat)
    requires FlushesBelow(s) && Membership(s) && s.ring != [] && CanStep(s, a) && t == Step(s, a)
    ensures FlushesBelow(t) && (Over(s, c) ==> Over(t, c)) && (Over(t, c) ==> Over(s, c) || Pending(t, c))
    ensures Pending(s, c) ==> if a.Bus? then Hits(s) ==> c !in t.ring else Pending(t, c)
  {
    match a
    case Bus => BusMarks(s, c);
    case Connect(_) => assert s.maxID + 1 !in s.conns;
    case At(d, act) => ActKeepsHistory(s.conns[d], act);
    case Emit(_, _) =>
  }

  lemma {:induction false} AlwaysFlushesBelow(r: Run, i: nat)
    requires IsRun(r) && i < |r.states|
    ensures FlushesBelow(r.states[i])
  {
    if i > 0 {
      AlwaysFlushesBelow(r, i - 1);
      NextMarks(r, i - 1, 0);
    }
  }

  lemma NextMarks(r: Run, i: nat, c: nat)
    requires IsRun(r) && i < |r.acts| && FlushesBelow(r.states[i])
    ensures var s, t := r.states[i], r.states[i + 1];
      && FlushesBelow(t) && (Over(s, c) ==> Over(t, c)) && (Over(t, c) ==> Over(s, c) || Pending(t, c))
      && (Pending(s, c) ==> if r.acts[i].Bus? then Hits(s) ==> c !in t.ring else Pending(t, c))
  {
    AlwaysSafe(r, i);
    RunStep(r, i);
    StepMarks(r.states[i], r.acts[i], r.states[i + 1], c);
  }

  /** In step `k` a connection at the mark was to be removed, and another one was removed in its place. */
  ghost predicate SparedAt(r: Run, k: nat, c: nat)
    requires k < |r.acts| && k < |r.states|
  {
    r.acts[k].Bus? && Pending(r.states[k], c) && Over(r.states[k], c) && !Hits(r.states[k])
  }

  ghost predicate Spared(r: Run, i: nat, c: nat)
    requires i <= |r.acts| && i <= |r.states|
  {
    exists k :: 0 <= k < i && SparedAt(r, k, c)
  }

  lemma {:induction false} StaysOver(r: Run, k: nat, i: nat, c: nat)
    requires IsRun(r) && k <= i < |r.states| && Over(r.states[k], c)
    ensures Over(r.states[i], c)
    decreases i - k
  {
    if k < i {
      StaysOver(r, k, i - 1, c);
      AlwaysFlushesBelow(r, i - 1);
      NextMarks(r, i - 1, c);
    }
  }

  lemma {:induction false} OverIsSpared(r: Run, i: nat, c: nat)
    requires IsRun(r) && i < |r.states| && c in r.states[i].ring && Over(r.states[i], c)
    ensures Spared(r, i, c) || Pending(r.states[i], c)
  {
    if i > 0 {
      AlwaysFlushesBelow(r, i - 1);
      NextMarks(r, i - 1, c);
      if Over(r.states[i - 1], c) {
        MemberWas(r, i - 1, c);
        OverIsSpared(r, i - 1, c);
        if !Spared(r, i - 1, c) && r.acts[i - 1].Bus? {
          assert SparedAt(r, i - 1, c);
        }
      }
    }
  }

  /** In every run, a member that is not about to be removed holds 64 failed messages or more if and only if it was to
      be removed for that before, and another connection was removed in its place. */
  lemma AtMarkIff(r: Run, i: nat, c: nat)
    requires IsRun(r) && i < |r.states| && c in r.states[i].ring && !Pending(r.states[i], c)
    ensures c in r.states[i].conns
    ensures |r.states[i].conns[c].failed| >= 64 <==> Spared(r, i, c)
  {
    AlwaysSafe(r, i);
    if Over(r.states[i], c) {
      OverIsSpared(r, i, c);
    }
    if k :| 0 <= k < i && SparedAt(r, k, c) {
      StaysOver(r, k, i, c);
    }
  }

  /** Every member holds fewer than 64 failed messages, unless it is about to be removed. */
  lemma FailedStaysBelowMark(r: Run, i: nat, c: nat)
    requires Undiverted(r, i) && c in r.states[i].ring && !Pending(r.states[i], c)
    ensures |r.states[i].conns[c].failed| < 64
  {
    AtMarkIff(r, i, c);
  }
}
