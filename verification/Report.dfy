/** From handlers and owners to the bus: every report is drained once and in order, and every failed message is sent
    once more for each failure reported. */
module Reports {
  import opened Messages
  import opened Rings
  import opened Feedback
  import opened Connections
  import opened MsgBuffers
  import opened Systems
  import opened SystemSafety
  import opened Owners

  /** An installation of a non-nil onFunc is complete. */
  predicate HasAsked(acts: seq<Action>, c: nat) {
    acts != [] &&
    var past := acts[..|acts| - 1];
    (acts[|acts| - 1] == At(c, Installed) && HasOnFunc(past, c)) || HasAsked(past, c)
  }

  /** What the last of the actions reports to the bus about `c`; the first onFunc asks for a replay if one is wanted. */
  function ReportOf(past: seq<Action>, last: Action, c: nat, wantsReplay: bool): seq<Feedback> {
    if !last.At? || last.conn != c then []
    else match last.act
      case Report(m, ok) => [if ok then Success else Failed(m)]
      case Left => [Disconnect]
      case Installed => if wantsReplay && HasOnFunc(past, c) && !HasAsked(past, c) then [Replay] else []
      case _ => []
  }

  /** Everything reported about `c`, in order. */
  function Reported(acts: seq<Action>, c: nat, wantsReplay: bool): seq<Feedback> {
    if acts == [] then []
    else
      var past := acts[..|acts| - 1];
      Reported(past, c, wantsReplay) + ReportOf(past, acts[|acts| - 1], c, wantsReplay)
  }

  /** What the checks of `c` have drained in the first `i` steps, in order. */
  function Drained(r: Run, i: nat, c: nat): seq<Feedback>
    requires i <= |r.acts| && i <= |r.states|
  {
    if i == 0 then []
    else Drained(r, i - 1, c) + if r.acts[i - 1].Bus? then DrainedBy(r.states[i - 1], c) else []
  }

  /** What a bus step drains of `c`. */
  function DrainedBy(s: State, c: nat): seq<Feedback> {
    if s.pc.Check? && s.pc.target == c then s.conns[c].feedback else []
  }

  function FeedbackOf(s: State, c: nat): seq<Feedback> {
    if c in s.conns then s.conns[c].feedback else []
  }

  predicate Wants(s: State, c: nat, wantsReplay: bool) {
    c in s.conns ==> s.conns[c].pod.wantsReplay == wantsReplay
  }

  /** The pod knows whether it has an onFunc and whether it has asked for its replay. */
  predicate Knows(p: Pod, acts: seq<Action>, c: nat) {
    p.listening == HasOnFunc(acts, c) && p.replayOnce == HasAsked(acts, c)
  }

  lemma ActReports(conn: Conn, a: Act, past: seq<Action>, acts: seq<Action>, c: nat)
    requires CanAct(conn, a) && acts == past + [At(c, a)] && Knows(conn.pod, past, c)
    ensures Knows(DoAct(conn, a).pod, acts, c) && DoAct(conn, a).pod.wantsReplay == conn.pod.wantsReplay
    ensures DoAct(conn, a).feedback == conn.feedback + ReportOf(past, At(c, a), c, conn.pod.wantsReplay)
  {
    assert acts[..|acts| - 1] == past;
    match a
    case Install(_, _) =>
    case Installed =>
    case Report(_, _) =>
    case RecordSend(_) =>
    case FilterUUID(_, _) =>
    case FilterType(_, _) =>
    case Leave =>
    case Left =>
    case Stop =>
    case _ => assert DoAct(conn, a).pod == conn.pod && DoAct(conn, a).feedback == conn.feedback;
  }

  lemma CheckDrains(s: State, c: nat)
    requires s.pc.Check?
    ensures DrainedBy(s, c) + FeedbackOf(Checked(s), c) == FeedbackOf(s, c)
  {
  }

  lemma BusDrains(s: State, t: State, c: nat)
    requires CanBus(s) && t == BusStep(s)
    ensures DrainedBy(s, c) + FeedbackOf(t, c) == FeedbackOf(s, c)
  {
    if s.pc.Check? {
      CheckDrains(s, c);
    }
  }

  lemma BusKnows(s: State, t: State, c: nat)
    requires CanBus(s) && t == BusStep(s)
    ensures PodOf(t, c) == PodOf(s, c)
  {
    if c in s.conns {
      BusKeepsPods(s, c);
    }
  }

  lemma StepKnows(s: State, a: Action, t: State, past: seq<Action>, acts: seq<Action>, c: nat)
    requires Membership(s) && CanStep(s, a) && t == Step(s, a) && acts == past + [a] && Knows(PodOf(s, c), past, c)
    ensures Knows(PodOf(t, c), acts, c)
    ensures c in s.conns ==> c in t.conns && t.conns[c].pod.wantsReplay == s.conns[c].pod.wantsReplay
  {
    assert acts[..|acts| - 1] == past;
    match a
    case At(d, act) =>
      if d == c {
        ActReports(s.conns[c], act, past, acts, c);
      }
    case Bus => BusKnows(s, t, c);
    case Connect(_) => assert s.maxID + 1 !in s.conns;
    case Emit(_, _) =>
  }

  lemma {:induction false} AlwaysKnows(r: Run, i: nat, c: nat)
    requires IsRun(r) && i < |r.states|
    ensures Knows(PodOf(r.states[i], c), r.acts[..i], c)
  {
    if i > 0 {
      AlwaysKnows(r, i - 1, c);
      AlwaysSafe(r, i - 1);
      RunStep(r, i - 1);
      assert r.acts[..i] == r.acts[..i - 1] + [r.acts[i - 1]];
      StepKnows(r.states[i - 1], r.acts[i - 1], r.states[i], r.acts[..i - 1], r.acts[..i], c);
    }
  }

  lemma StepReports(s: State, a: Action, t: State, past: seq<Action>, c: nat, wantsReplay: bool)
    requires Membership(s) && CanStep(s, a) && t == Step(s, a)
    requires Knows(PodOf(s, c), past, c) && Wants(s, c, wantsReplay)
    ensures (if a.Bus? then DrainedBy(s, c) else []) + FeedbackOf(t, c)
      == FeedbackOf(s, c) + ReportOf(past, a, c, wantsReplay)
  {
    match a
    case At(d, act) =>
      if d == c {
        ActReports(s.conns[c], act, past, past + [a], c);
      }
    case Bus => BusDrains(s, t, c);
    case Connect(_) => assert s.maxID + 1 !in s.conns;
    case Emit(_, _) =>
  }

  lemma NextReports(r: Run, i: nat, c: nat, wantsReplay: bool)
    requires IsRun(r) && i < |r.acts| && Wants(r.states[i + 1], c, wantsReplay)
    ensures Wants(r.states[i], c, wantsReplay)
    ensures (if r.acts[i].Bus? then DrainedBy(r.states[i], c) else []) + FeedbackOf(r.states[i + 1], c)
      == FeedbackOf(r.states[i], c) + ReportOf(r.acts[..i], r.acts[i], c, wantsReplay)
  {
    AlwaysSafe(r, i);
    AlwaysKnows(r, i, c);
    RunStep(r, i);
    StepKnows(r.states[i], r.acts[i], r.states[i + 1], r.acts[..i], r.acts[..i] + [r.acts[i]], c);
    StepReports(r.states[i], r.acts[i], r.states[i + 1], r.acts[..i], c, wantsReplay);
  }

  lemma Regroup(drained: seq<Feedback>, more: seq<Feedback>, now: seq<Feedback>, was: seq<Feedback>,
                latest: seq<Feedback>, reported: seq<Feedback>)
    requires more + now == was + latest && drained + was == reported
    ensures (drained + more) + now == reported + latest
  {
    assert (drained + more) + now == drained + (more + now);
    assert drained + (was + latest) == (drained + was) + latest;
  }

  lemma {:induction false} AlwaysReported(r: Run, i: nat, c: nat, wantsReplay: bool)
    requires IsRun(r) && i < |r.states| && Wants(r.states[i], c, wantsReplay)
    ensures Drained(r, i, c) + FeedbackOf(r.states[i], c) == Reported(r.acts[..i], c, wantsReplay)
  {
    if i > 0 {
      var past, a, s := r.acts[..i - 1], r.acts[i - 1], r.states[i - 1];
      NextReports(r, i - 1, c, wantsReplay);
      AlwaysReported(r, i - 1, c, wantsReplay);
      assert r.acts[..i][..i - 1] == past;
      Regroup(Drained(r, i - 1, c), if a.Bus? then DrainedBy(s, c) else [], FeedbackOf(r.states[i], c),
              FeedbackOf(s, c), ReportOf(past, a, c, wantsReplay), Reported(past, c, wantsReplay));
    }
  }

  /** In every state of every run, what the checks of a connection have drained followed by what waits in its feedback
      channel is exactly what its handlers and its owner have reported, in order. */
  lemma ReportsAreDrained(r: Run, i: nat, c: nat)
    requires IsRun(r) && i < |r.states| && c in r.states[i].conns
    ensures var conn := r.states[i].conns[c];
      Drained(r, i, c) + conn.feedback == Reported(r.acts[..i], c, conn.pod.wantsReplay)
  {
    AlwaysReported(r, i, c, r.states[i].conns[c].pod.wantsReplay);
  }

  // ---- what becomes of failures ----

  /** Messages sent by a flush, in order of the calls. */
  function Resent(log: seq<Sent>): seq<Message> {
    if log == [] then []
    else
      var last := log[|log| - 1];
      Resent(log[..|log| - 1]) + if last.origin.Flushed? then [last.msg] else []
  }

  lemma {:induction false} ResentBatch(log: seq<Sent>, ms: seq<Message>, o: Origin)
    ensures Resent(log + Tagged(ms, o)) == Resent(log) + if o.Flushed? then ms else []
    decreases ms
  {
    if ms == [] {
      assert log + Tagged(ms, o) == log;
    } else {
      var k := |ms| - 1;
      ResentBatch(log, ms[..k], o);
      TaggedLast(log, ms, o);
      assert ms == ms[..k] + [ms[k]];
    }
  }

  /** The failures the bus has heard of: sent once more, or still held. */
  function Heard(s: State, c: nat): seq<Message> {
    if c in s.conns then Resent(s.conns[c].log) + s.conns[c].failed else []
  }

  lemma CheckHears(s: State, c: nat)
    requires s.pc.Check?
    ensures Heard(Checked(s), c) == Heard(s, c) + FailedOf(DrainedBy(s, c))
  {
    assert FailedOf([]) == [];
  }

  lemma FlushHears(s: State, c: nat)
    requires s.pc.Flush?
    ensures Heard(FlushedTo(s), c) == Heard(s, c)
  {
    var conn := s.conns[s.pc.target];
    ResentBatch(conn.log, conn.failed, Flushed);
  }

  lemma ReplayHears(s: State, c: nat)
    requires s.pc.ReplayNext? && s.ring != []
    ensures Heard(ReplayedTo(s), c) == Heard(s, c)
  {
    ResentBatch(s.conns[Second(s.ring)].log, Contents(s.buffer), Replayed);
  }

  lemma SendHears(s: State, c: nat)
    requires s.pc.Send? && s.ring != []
    ensures Heard(SentTo(s), c) == Heard(s, c)
  {
    ResentBatch(s.conns[s.ring[0]].log, [s.pc.msg], Walk);
  }

  lemma BusHears(s: State, t: State, c: nat)
    requires CanBus(s) && t == BusStep(s) && s.ring != []
    ensures Heard(t, c) == Heard(s, c) + FailedOf(DrainedBy(s, c))
  {
    assert FailedOf([]) == [];
    match s.pc
    case Check(_, _, _) => CheckHears(s, c);
    case Flush(_, _, _) => FlushHears(s, c);
    case ReplayNext(_, _, _, _) => ReplayHears(s, c);
    case Send(_, _) => SendHears(s, c);
    case _ =>
  }

  lemma StepHears(s: State, a: Action, t: State, c: nat)
    requires Membership(s) && s.ring != [] && CanStep(s, a) && t == Step(s, a)
    ensures Heard(t, c) == Heard(s, c) + FailedOf(if a.Bus? then DrainedBy(s, c) else [])
  {
    assert FailedOf([]) == [];
    match a
    case Bus => BusHears(s, t, c);
    case Connect(_) => assert s.maxID + 1 !in s.conns;
    case At(d, act) => ActKeepsHistory(s.conns[d], act);
    case Emit(_, _) =>
  }

  lemma {:induction false} AlwaysHeard(r: Run, i: nat, c: nat)
    requires IsRun(r) && i < |r.states|
    ensures Heard(r.states[i], c) == FailedOf(Drained(r, i, c))
  {
    if i > 0 {
      AlwaysHeard(r, i - 1, c);
      AlwaysSafe(r, i - 1);
      RunStep(r, i - 1);
      StepHears(r.states[i - 1], r.acts[i - 1], r.states[i], c);
      FailedOfConcat(Drained(r, i - 1, c), if r.acts[i - 1].Bus? then DrainedBy(r.states[i - 1], c) else []);
    } else {
      assert FailedOf([]) == [];
    }
  }

  /** In every state of every run, the failures reported about a connection are, in order, those sent to it once more,
      those the bus holds, and those still in its feedback channel. */
  lemma FailuresAreResent(r: Run, i: nat, c: nat)
    requires IsRun(r) && i < |r.states| && c in r.states[i].conns
    ensures var conn := r.states[i].conns[c];
      Resent(conn.log) + conn.failed + FailedOf(conn.feedback)
        == FailedOf(Reported(r.acts[..i], c, conn.pod.wantsReplay))
  {
    AlwaysHeard(r, i, c);
    ReportsAreDrained(r, i, c);
    FailedOfConcat(Drained(r, i, c), r.states[i].conns[c].feedback);
  }
}
