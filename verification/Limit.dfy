/** The capacity of the channels, and the lock around the onFunc. */
module Limits {
  import opened Messages
  import opened Connections
  import opened Systems
  import opened SystemSafety

  /** The pod's channels are not overfull, and its onFunc is not replaced while it runs. */
  predicate WithinLimits(c: Conn) {
    && |c.flow.queue| <= 128
    && |c.feedback| <= 128
    && (c.pod.installing.Some? ==> c.flow.running == multiset{})
  }

  ghost predicate AllWithinLimits(s: State) {
    |s.busChan| <= 256 && forall c :: c in s.conns ==> WithinLimits(s.conns[c])
  }

  lemma ActKeepsLimits(c: Conn, a: Act)
    requires WithinLimits(c) && CanAct(c, a)
    ensures WithinLimits(DoAct(c, a))
  {
    match a
    case Receive(m) => assert |c.flow.queue - multiset{m}| == |c.flow.queue| - 1;
    case Write(m) =>
    case Handle(m) =>
    case Report(m, ok) =>
    case Install(_, _) =>
    case Installed =>
    case Left =>
    case _ =>
  }

  lemma BusKeepsLimits(s: State)
    requires AllWithinLimits(s) && CanBus(s)
    ensures AllWithinLimits(BusStep(s))
  {
  }

  lemma StepKeepsLimits(s: State, a: Action, t: State)
    requires AllWithinLimits(s) && CanStep(s, a) && t == Step(s, a)
    ensures AllWithinLimits(t)
  {
    match a
    case Bus => BusKeepsLimits(s);
    case Connect(_) => assert |NO_FLOW.queue| == 0;
    case At(c, act) => ActKeepsLimits(s.conns[c], act);
    case Emit(_, _) =>
  }

  /** In every state of every run no more than 256 messages wait for the bus and no more than 128 in each of a pod's
      two channels, and no message is in an onFunc that is being replaced. */
  lemma {:induction false} AlwaysWithinLimits(r: Run, i: nat)
    requires IsRun(r) && i < |r.states|
    ensures AllWithinLimits(r.states[i])
  {
    if i > 0 {
      AlwaysWithinLimits(r, i - 1);
      RunStep(r, i - 1);
      StepKeepsLimits(r.states[i - 1], r.acts[i - 1], r.states[i]);
    }
  }

  /** Nothing can reach the pod's worker any more. */
  predicate Drained(c: Conn) {
    !c.connected && !c.open && c.flow.writing == multiset{} && c.flow.queue == multiset{}
  }

  lemma BusKeepsDrained(s: State, c: nat)
    requires CanBus(s) && c in s.conns && Drained(s.conns[c])
    ensures c in BusStep(s).conns && Drained(BusStep(s).conns[c])
  {
  }

  lemma StepKeepsDrained(s: State, a: Action, t: State, c: nat)
    requires Membership(s) && CanStep(s, a) && t == Step(s, a) && c in s.conns && Drained(s.conns[c])
    ensures c in t.conns && Drained(t.conns[c]) && !(a.At? && a.conn == c && a.act.Receive?)
  {
    match a
    case Bus => BusKeepsDrained(s, c);
    case Connect(_) => assert s.maxID + 1 !in s.conns;
    case At(d, act) =>
    case Emit(_, _) =>
  }

  lemma {:induction false} StaysDrained(r: Run, i: nat, j: nat, c: nat)
    requires IsRun(r) && i <= j < |r.states| && c in r.states[i].conns && Drained(r.states[i].conns[c])
    ensures c in r.states[j].conns && Drained(r.states[j].conns[c])
    decreases j - i
  {
    if i < j {
      StaysDrained(r, i, j - 1, c);
      AlwaysSafe(r, j - 1);
      RunStep(r, j - 1);
      StepKeepsDrained(r.states[j - 1], r.acts[j - 1], r.states[j], c);
    }
  }

  /** A pod's worker stops only once its connection has been removed and every queued message has been received, and
      nothing is received after that. */
  lemma WorkerStopsDrained(r: Run, i: nat, j: nat, c: nat, m: Message)
    requires IsRun(r) && i <= j < |r.acts| && r.acts[i] == At(c, Stop)
    ensures c in r.states[i].conns && c !in r.states[i].ring && r.states[i].conns[c].flow.queue == multiset{}
    ensures r.acts[j] != At(c, Receive(m))
  {
    AlwaysSafe(r, i);
    RunStep(r, i);
    assert Sound(r.states[i].conns[c]);
    StaysDrained(r, i, j, c);
    RunStep(r, j);
  }
}
