/** What a pod is at any time, told from what its owner did: its onFunc, the types it lets in, whether it is dead. */
module Owners {
  import opened Messages
  import opened Filters
  import opened Connections
  import opened Systems
  import opened SystemSafety

  /** The pod was last given an onFunc, and not nil. */
  predicate HasOnFunc(acts: seq<Action>, c: nat) {
    acts != [] &&
    var last := acts[|acts| - 1];
    if last.At? && last.conn == c && last.act.Install? then last.act.on else HasOnFunc(acts[..|acts| - 1], c)
  }

  /** The only type the onFunc in place was given for, if it was. */
  function GivenFor(acts: seq<Action>, c: nat): Option<string> {
    if acts == [] then None
    else
      var last := acts[|acts| - 1];
      if last.At? && last.conn == c && last.act.Install? then last.act.only else GivenFor(acts[..|acts| - 1], c)
  }

  /** The last word on one type since the onFunc was replaced: it was named by hand, or the onFunc is for it. */
  function WordOn(acts: seq<Action>, c: nat, kind: string): Option<bool> {
    if acts == [] then None
    else
      var last, past := acts[|acts| - 1], acts[..|acts| - 1];
      if !last.At? || last.conn != c then WordOn(past, c, kind)
      else match last.act
        case Install(_, _) => None
        case Installed => if GivenFor(past, c) == Some(kind) then Some(true) else WordOn(past, c, kind)
        case FilterType(k, allow) => if k == kind then Some(allow) else WordOn(past, c, kind)
        case _ => WordOn(past, c, kind)
  }

  /** The onFunc in place was given for one type, and its installation is complete. */
  predicate Choosy(acts: seq<Action>, c: nat) {
    acts != [] &&
    var last, past := acts[|acts| - 1], acts[..|acts| - 1];
    if last.At? && last.conn == c && last.act.Install? then false
    else if last == At(c, Installed) && GivenFor(past, c).Some? then true
    else Choosy(past, c)
  }

  /** The last word on the type decides; without one, it is let in unless the onFunc is for another. */
  predicate LetsIn(acts: seq<Action>, c: nat, kind: string) {
    if WordOn(acts, c, kind).Some? then WordOn(acts, c, kind).value else !Choosy(acts, c)
  }

  predicate WasStopped(acts: seq<Action>, c: nat) {
    exists i :: 0 <= i < |acts| && (acts[i] == At(c, Leave) || acts[i] == At(c, Stop))
  }

  /** How often an act took place at `c`. */
  function Times(acts: seq<Action>, c: nat, a: Act): nat {
    if acts == [] then 0 else Times(acts[..|acts| - 1], c, a) + if acts[|acts| - 1] == At(c, a) then 1 else 0
  }

  /** The entry a filter has for a type. */
  function Entry(f: Filter, kind: string): Option<bool> {
    if kind in f.kinds then Some(f.kinds[kind]) else None
  }

  /** The pod of `c` is what the given actions make it, as far as the type is concerned. */
  ghost predicate PodIs(p: Pod, acts: seq<Action>, c: nat, kind: string) {
    && p.listening == HasOnFunc(acts, c)
    && (p.installing.Some? ==> p.installing.value == GivenFor(acts, c))
    && Entry(p.filter, kind) == WordOn(acts, c, kind)
    && p.filter.kindInclusive == !Choosy(acts, c)
    && p.dead == WasStopped(acts, c)
    && p.leaving + Times(acts, c, Left) == Times(acts, c, Leave)
  }

  lemma StoppedOneLonger(acts: seq<Action>, c: nat)
    requires acts != []
    ensures var last := acts[|acts| - 1];
      WasStopped(acts, c) <==> WasStopped(acts[..|acts| - 1], c) || last == At(c, Leave) || last == At(c, Stop)
  {
    var past := acts[..|acts| - 1];
    if i :| 0 <= i < |acts| && (acts[i] == At(c, Leave) || acts[i] == At(c, Stop)) {
      assert i < |past| ==> past[i] == acts[i];
    }
    if i :| 0 <= i < |past| && (past[i] == At(c, Leave) || past[i] == At(c, Stop)) {
      assert acts[i] == past[i];
    }
  }

  lemma ActMakes(conn: Conn, a: Act, acts: seq<Action>, c: nat, kind: string)
    requires CanAct(conn, a) && acts != [] && acts[|acts| - 1] == At(c, a)
    requires PodIs(conn.pod, acts[..|acts| - 1], c, kind)
    ensures PodIs(DoAct(conn, a).pod, acts, c, kind)
  {
    StoppedOneLonger(acts, c);
    match a
    case Install(_, _) =>
    case Installed =>
    case RecordSend(_) =>
    case FilterUUID(_, _) =>
    case FilterType(_, _) =>
    case Leave =>
    case Left =>
    case Stop =>
    case _ => assert DoAct(conn, a).pod == conn.pod;
  }

  lemma OthersMakeNothing(p: Pod, acts: seq<Action>, c: nat, kind: string)
    requires acts != [] && !(acts[|acts| - 1].At? && acts[|acts| - 1].conn == c)
    requires PodIs(p, acts[..|acts| - 1], c, kind)
    ensures PodIs(p, acts, c, kind)
  {
    StoppedOneLonger(acts, c);
  }

  /** The pod of a connection; before there is one, a new pod. */
  function PodOf(s: State, c: nat): Pod {
    if c in s.conns then s.conns[c].pod else NewPod(false)
  }

  lemma BusKeepsPods(s: State, c: nat)
    requires CanBus(s) && c in s.conns
    ensures c in BusStep(s).conns && BusStep(s).conns[c].pod == s.conns[c].pod
  {
  }

  lemma OthersKeepPod(s: State, a: Action, t: State, c: nat)
    requires Membership(s) && CanStep(s, a) && t == Step(s, a) && !(a.At? && a.conn == c)
    ensures PodOf(t, c).(recorded := multiset{}) == PodOf(s, c).(recorded := multiset{}) || (a.Connect? && c !in s.conns)
    ensures a.Connect? && c !in s.conns ==> PodOf(t, c).(wantsReplay := false) == NewPod(false)
  {
    if a.Bus? && c in s.conns {
      BusKeepsPods(s, c);
    }
  }

  lemma StepMakes(s: State, a: Action, t: State, acts: seq<Action>, c: nat, kind: string)
    requires Membership(s) && CanStep(s, a) && t == Step(s, a) && acts != [] && acts[|acts| - 1] == a
    requires PodIs(PodOf(s, c), acts[..|acts| - 1], c, kind)
    ensures PodIs(PodOf(t, c), acts, c, kind)
  {
    if a.At? && a.conn == c {
      ActMakes(s.conns[c], a.act, acts, c, kind);
    } else {
      OthersKeepPod(s, a, t, c);
      OthersMakeNothing(PodOf(s, c), acts, c, kind);
    }
  }

  lemma {:induction false} AlwaysPodIs(r: Run, i: nat, c: nat, kind: string)
    requires IsRun(r) && i < |r.states|
    ensures PodIs(PodOf(r.states[i], c), r.acts[..i], c, kind)
  {
    if i > 0 {
      AlwaysPodIs(r, i - 1, c, kind);
      AlwaysSafe(r, i - 1);
      RunStep(r, i - 1);
      assert r.acts[..i][..i - 1] == r.acts[..i - 1];
      StepMakes(r.states[i - 1], r.acts[i - 1], r.states[i], r.acts[..i], c, kind);
    }
  }

  /** In every state of every run, a pod has an onFunc if and only if the last one it was given was not nil, and its
      filter permits a type if and only if the last word on that type since then let it in or, where there is none,
      the onFunc is for all types. */
  lemma LetsInIff(r: Run, i: nat, c: nat, kind: string)
    requires IsRun(r) && i < |r.states| && c in r.states[i].conns
    ensures var p := r.states[i].conns[c].pod;
      && (p.listening <==> HasOnFunc(r.acts[..i], c))
      && (Permits(p.filter.kinds, p.filter.kindInclusive, kind) <==> LetsIn(r.acts[..i], c, kind))
  {
    AlwaysPodIs(r, i, c, kind);
    assert PodOf(r.states[i], c) == r.states[i].conns[c].pod;
  }

  /** Every disconnect is reported once, or still waits to be. */
  lemma LeavingIsReported(r: Run, i: nat, c: nat)
    requires IsRun(r) && i < |r.states| && c in r.states[i].conns
    ensures r.states[i].conns[c].pod.leaving + Times(r.acts[..i], c, Left) == Times(r.acts[..i], c, Leave)
  {
    AlwaysPodIs(r, i, c, "");
    assert PodOf(r.states[i], c) == r.states[i].conns[c].pod;
  }

  /** A pod is dead if and only if its owner disconnected it or its worker found the channel closed and drained. */
  lemma DeadIff(r: Run, i: nat, c: nat)
    requires IsRun(r) && i < |r.states| && c in r.states[i].conns
    ensures r.states[i].conns[c].pod.dead <==> WasStopped(r.acts[..i], c)
  {
    AlwaysPodIs(r, i, c, "");
    assert PodOf(r.states[i], c) == r.states[i].conns[c].pod;
  }

  /** And from then on its `Send` does nothing, for good. */
  lemma DeadSendsNothing(r: Run, i: nat, j: nat, c: nat, m: Message)
    requires IsRun(r) && i < j < |r.acts| && (r.acts[i] == At(c, Leave) || r.acts[i] == At(c, Stop))
    ensures r.acts[j] != At(c, RecordSend(m))
  {
    AlwaysPodIs(r, j, c, "");
    RunStep(r, j);
    assert r.acts[..j][i] == r.acts[i];
  }
}
