/** From the pods into the history: nothing that is sent is lost, doubled or overtaken on its way to the bus. */
module Intakes {
  import opened Messages
  import opened Connections
  import opened Systems
  import opened SystemSafety
  import opened Delivery
  import opened Owners

  /** What pods have put on the bus channel, in order. */
  function Emitted(acts: seq<Action>): seq<Message> {
    if acts == [] then []
    else
      var last := acts[|acts| - 1];
      Emitted(acts[..|acts| - 1]) + if last.Emit? then [last.msg] else []
  }

  function One(b: bool): nat {
    if b then 1 else 0
  }

  /** How often one pod has put `m` there. */
  function EmittedBy(acts: seq<Action>, c: nat, m: Message): nat {
    if acts == [] then 0
    else EmittedBy(acts[..|acts| - 1], c, m) + One(acts[|acts| - 1] == Emit(c, m))
  }

  /** How often a call of `Send` of one pod has recorded `m` in its filter. */
  function RecordedBy(acts: seq<Action>, c: nat, m: Message): nat {
    if acts == [] then 0
    else RecordedBy(acts[..|acts| - 1], c, m) + One(acts[|acts| - 1] == At(c, RecordSend(m)))
  }

  lemma BusKeepsIntake(s: State)
    requires CanBus(s)
    ensures BusStep(s).hist + BusStep(s).busChan == s.hist + s.busChan
  {
    if s.pc.Idle? {
      assert s.busChan == [s.busChan[0]] + s.busChan[1..];
    }
  }

  lemma StepKeepsIntake(s: State, a: Action, t: State)
    requires CanStep(s, a) && t == Step(s, a)
    ensures t.hist + t.busChan == s.hist + s.busChan + if a.Emit? then [a.msg] else []
  {
    if a.Bus? {
      BusKeepsIntake(s);
    }
  }

  /** In every state of every run, what the bus has taken followed by what waits in its channel is exactly what the
      pods have put there, in the order they did. */
  lemma {:induction false} HistoryIsEmitted(r: Run, i: nat)
    requires IsRun(r) && i < |r.states|
    ensures r.states[i].hist + r.states[i].busChan == Emitted(r.acts[..i])
  {
    if i > 0 {
      HistoryIsEmitted(r, i - 1);
      RunStep(r, i - 1);
      StepKeepsIntake(r.states[i - 1], r.acts[i - 1], r.states[i]);
      assert r.acts[..i][..i - 1] == r.acts[..i - 1];
    }
  }

  /** How many calls of `Send` have recorded `m` but not yet put it on the channel. */
  function Recorded(s: State, c: nat, m: Message): nat {
    if c in s.conns then s.conns[c].pod.recorded[m] else 0
  }

  lemma BusKeepsRecorded(s: State, c: nat, m: Message)
    requires CanBus(s)
    ensures Recorded(BusStep(s), c, m) == Recorded(s, c, m)
  {
  }

  lemma ActRecords(c: Conn, a: Act, m: Message)
    requires CanAct(c, a)
    ensures DoAct(c, a).pod.recorded[m] == c.pod.recorded[m] + One(a == RecordSend(m))
  {
    match a
    case RecordSend(n) => assert DoAct(c, a).pod.recorded == c.pod.recorded + multiset{n};
    case _ => assert DoAct(c, a).pod.recorded == c.pod.recorded;
  }

  lemma StepRecords(s: State, a: Action, t: State, c: nat, m: Message)
    requires Membership(s) && CanStep(s, a) && t == Step(s, a)
    ensures Recorded(t, c, m) + One(a == Emit(c, m)) == Recorded(s, c, m) + One(a == At(c, RecordSend(m)))
  {
    match a
    case Bus => BusKeepsRecorded(s, c, m);
    case Connect(_) => assert s.maxID + 1 !in s.conns;
    case At(d, act) => ActRecords(s.conns[d], act, m);
    case Emit(_, _) =>
  }

  /** In every state of every run, each recorded send has put its message on the channel once or is still to. */
  lemma {:induction false} RecordedIsEmitted(r: Run, i: nat, c: nat, m: Message)
    requires IsRun(r) && i < |r.states|
    ensures RecordedBy(r.acts[..i], c, m) == EmittedBy(r.acts[..i], c, m) + Recorded(r.states[i], c, m)
  {
    if i > 0 {
      RecordedIsEmitted(r, i - 1, c, m);
      AlwaysSafe(r, i - 1);
      RunStep(r, i - 1);
      StepRecords(r.states[i - 1], r.acts[i - 1], r.states[i], c, m);
      assert r.acts[..i][..i - 1] == r.acts[..i - 1];
    }
  }

  /** Up to the first misaimed step, whenever the bus is idle with nothing waiting, every member has been walked to
      with exactly what all pods have put on the channel, in that order, from the first message it was born for. */
  lemma EmittedIsWalked(r: Run, i: nat, c: nat)
    requires Aimed(r, i) && r.states[i].pc.Idle? && r.states[i].busChan == [] && c in r.states[i].ring
    ensures c in r.states[i].conns && r.states[i].conns[c].born <= |Emitted(r.acts[..i])|
    ensures Walked(r.states[i].conns[c].log) == Emitted(r.acts[..i])[r.states[i].conns[c].born..]
  {
    HistoryIsEmitted(r, i);
    assert r.states[i].hist + [] == r.states[i].hist;
    WalksDeliverSlices(r, i, c);
  }

  /** A connection is born for the message after those taken when it was inserted, or for the one then in hand, and its
      pod wants a replay if and only if it was connected so. */
  lemma BornAtInsertion(r: Run, i: nat, j: nat)
    requires IsRun(r) && i < j < |r.states| && r.acts[i].Connect?
    ensures var s := r.states[i]; var c := s.maxID + 1;
      && c !in s.conns && c in r.states[j].conns
      && r.states[j].conns[c].born == (if s.pc.Idle? || s.pc.Push? then |s.hist| else |s.hist| - 1)
      && r.states[j].conns[c].pod.wantsReplay == r.acts[i].wantsReplay
  {
    var c := r.states[i].maxID + 1;
    AlwaysSafe(r, i);
    NeverCrashes(r, i);
    RunStep(r, i);
    assert c in r.states[i + 1].conns;
    RunKeepsPast(r, i + 1, j, c);
    RunKeepsWants(r, i + 1, j, c);
  }

  lemma StepKeepsWants(s: State, a: Action, t: State, c: nat)
    requires Membership(s) && CanStep(s, a) && t == Step(s, a) && c in s.conns
    ensures c in t.conns && t.conns[c].pod.wantsReplay == s.conns[c].pod.wantsReplay
  {
    match a
    case Bus => BusKeepsPods(s, c);
    case Connect(_) => assert s.maxID + 1 !in s.conns;
    case At(d, act) => assert DoAct(s.conns[d], act).pod.wantsReplay == s.conns[d].pod.wantsReplay;
    case Emit(_, _) =>
  }

  lemma {:induction false} RunKeepsWants(r: Run, i: nat, j: nat, c: nat)
    requires IsRun(r) && i <= j < |r.states| && c in r.states[i].conns
    ensures c in r.states[j].conns && r.states[j].conns[c].pod.wantsReplay == r.states[i].conns[c].pod.wantsReplay
    decreases j - i
  {
    if i < j {
      RunKeepsWants(r, i, j - 1, c);
      AlwaysSafe(r, j - 1);
      RunStep(r, j - 1);
      StepKeepsWants(r.states[j - 1], r.acts[j - 1], r.states[j], c);
    }
  }
}
