/** Which messages reach a pod's onFunc, and when those it sent itself do. */
module OwnMessages {
  import opened Messages
  import opened Filters
  import opened Connections
  import opened Systems
  import opened SystemSafety
  import opened Owners

  /** The pod's filter denies this UUID. */
  predicate Denied(c: Conn, uuid: string) {
    uuid in c.pod.filter.uuids && !c.pod.filter.uuids[uuid]
  }

  predicate Denies(s: State, c: nat, uuid: string) {
    c in s.conns && Denied(s.conns[c], uuid)
  }

  /** Sending a message, or filtering its UUID by hand, denies it. */
  predicate Bars(a: Action, c: nat, uuid: string) {
    a.At? && a.conn == c && ((a.act.RecordSend? && a.act.msg.Message? && a.act.msg.uuid == uuid) || a.act == FilterUUID(uuid, false))
  }

  /** Replacing the onFunc, or letting the UUID through by hand, lifts the denial. */
  predicate Lifts(a: Action, c: nat, uuid: string) {
    a.At? && a.conn == c && (a.act.Install? || a.act == FilterUUID(uuid, true))
  }

  /** Step `i` was the last word on this UUID before state `j`, and it was to deny it. */
  predicate BarredSince(r: Run, i: nat, j: nat, c: nat, uuid: string)
    requires i < j <= |r.acts|
  {
    Bars(r.acts[i], c, uuid) && forall k :: i < k < j ==> !Lifts(r.acts[k], c, uuid)
  }

  ghost predicate BarredBefore(r: Run, j: nat, c: nat, uuid: string)
    requires j <= |r.acts|
  {
    exists i :: 0 <= i < j && BarredSince(r, i, j, c, uuid)
  }

  lemma ActDenies(c: Conn, a: Act, id: nat, uuid: string)
    requires CanAct(c, a)
    ensures Denied(DoAct(c, a), uuid) <==>
      Bars(At(id, a), id, uuid) || (Denied(c, uuid) && !Lifts(At(id, a), id, uuid))
  {
  }

  lemma StepDenies(s: State, a: Action, t: State, c: nat, uuid: string)
    requires Membership(s) && CanStep(s, a) && t == Step(s, a)
    ensures Denies(t, c, uuid) <==> Bars(a, c, uuid) || (Denies(s, c, uuid) && !Lifts(a, c, uuid))
  {
    match a
    case Bus =>
      if c in s.conns {
        BusKeepsPods(s, c);
      }
    case Connect(_) => assert s.maxID + 1 !in s.conns;
    case At(d, act) => ActDenies(s.conns[d], act, d, uuid);
    case Emit(_, _) =>
  }

  lemma BarredOneLonger(r: Run, j: nat, k: nat, c: nat, uuid: string)
    requires j < |r.acts| && k == j + 1
    ensures BarredBefore(r, k, c, uuid) <==>
      Bars(r.acts[j], c, uuid) || (BarredBefore(r, j, c, uuid) && !Lifts(r.acts[j], c, uuid))
  {
    if Bars(r.acts[j], c, uuid) {
      assert BarredSince(r, j, k, c, uuid);
    }
    if BarredBefore(r, j, c, uuid) && !Lifts(r.acts[j], c, uuid) {
      var i :| 0 <= i < j && BarredSince(r, i, j, c, uuid);
      assert BarredSince(r, i, k, c, uuid);
    }
    if BarredBefore(r, k, c, uuid) && !Bars(r.acts[j], c, uuid) {
      var i :| 0 <= i < k && BarredSince(r, i, k, c, uuid);
      assert i != j && BarredSince(r, i, j, c, uuid);
    }
  }

  /** A pod's filter denies a UUID if and only if the pod sent or barred it, and since then neither its onFunc was
      replaced nor the UUID let through by hand. */
  lemma {:induction false} DeniesIff(r: Run, j: nat, c: nat, uuid: string)
    requires IsRun(r) && j < |r.states|
    ensures Denies(r.states[j], c, uuid) <==> BarredBefore(r, j, c, uuid)
  {
    if j > 0 {
      DeniesIff(r, j - 1, c, uuid);
      AlwaysSafe(r, j - 1);
      RunStep(r, j - 1);
      StepDenies(r.states[j - 1], r.acts[j - 1], r.states[j], c, uuid);
      BarredOneLonger(r, j - 1, j, c, uuid);
    }
  }

  /** No pod's filter ever denies what it has no entry for, among UUIDs. */
  ghost predicate Inclusive(s: State) {
    forall c :: c in s.conns ==> s.conns[c].pod.filter.uuidInclusive
  }

  lemma ActKeepsInclusive(c: Conn, a: Act)
    requires CanAct(c, a) && c.pod.filter.uuidInclusive
    ensures DoAct(c, a).pod.filter.uuidInclusive
  {
    match a
    case Install(_, _) => assert DoAct(c, a).pod.filter == OPEN;
    case Installed =>
    case RecordSend(_) =>
    case FilterUUID(_, _) =>
    case FilterType(_, _) =>
    case _ => assert DoAct(c, a).pod.filter == c.pod.filter;
  }

  lemma StepKeepsInclusiveAt(s: State, a: Action, t: State, c: nat)
    requires CanStep(s, a) && t == Step(s, a) && c in t.conns
    requires c in s.conns ==> s.conns[c].pod.filter.uuidInclusive
    ensures t.conns[c].pod.filter.uuidInclusive
  {
    match a
    case Bus =>
      if c in s.conns {
        BusKeepsPods(s, c);
      }
    case Connect(_) =>
    case At(d, act) =>
      if c == d {
        ActKeepsInclusive(s.conns[c], act);
      }
    case Emit(_, _) =>
  }

  lemma StepKeepsInclusive(s: State, a: Action, t: State)
    requires Inclusive(s) && CanStep(s, a) && t == Step(s, a)
    ensures Inclusive(t)
  {
    forall c | c in t.conns ensures t.conns[c].pod.filter.uuidInclusive {
      StepKeepsInclusiveAt(s, a, t, c);
    }
  }

  lemma {:induction false} AlwaysInclusive(r: Run, i: nat)
    requires IsRun(r) && i < |r.states|
    ensures Inclusive(r.states[i])
  {
    if i > 0 {
      AlwaysInclusive(r, i - 1);
      RunStep(r, i - 1);
      StepKeepsInclusive(r.states[i - 1], r.acts[i - 1], r.states[i]);
    }
  }

  /** By what has happened so far: the pod has an onFunc, the message's type is let in, and its UUID has not been
      barred since the onFunc was last replaced or the UUID let through. */
  ghost predicate Hears(r: Run, j: nat, c: nat, m: Message)
    requires j <= |r.acts| && m.Message?
  {
    HasOnFunc(r.acts[..j], c) && LetsIn(r.acts[..j], c, m.kind) && !BarredBefore(r, j, c, m.uuid)
  }

  lemma CallsIff(r: Run, j: nat, c: nat, m: Message)
    requires IsRun(r) && j < |r.states| && c in r.states[j].conns && m.Message?
    ensures Calls(r.states[j].conns[c], m) <==> Hears(r, j, c, m)
  {
    DeniesIff(r, j, c, m.uuid);
    AlwaysInclusive(r, j);
    LetsInIff(r, j, c, m.kind);
    assert Denies(r.states[j], c, m.uuid) <==> Denied(r.states[j].conns[c], m.uuid);
  }

  /** A handler's message has gone into onFunc, or been dropped; everything else of the connection is as it was. */
  predicate HandedOver(c: Conn, d: Conn, m: Message, heard: bool) {
    && d == c.(flow := d.flow)
    && d.flow == c.flow.(received := d.flow.received, running := d.flow.running, dropped := d.flow.dropped)
    && d.flow.received == c.flow.received - multiset{m}
    && d.flow.running == (if heard then c.flow.running + multiset{m} else c.flow.running)
    && d.flow.dropped == (if heard then c.flow.dropped else c.flow.dropped + multiset{m})
  }

  /** In every run, a handler puts its message into the onFunc if and only if the pod has one, lets in the type, and has
      not barred the UUID since; otherwise the message is dropped. Walks, replays and flushes all end here. */
  lemma HearsIff(r: Run, j: nat, c: nat, m: Message)
    requires IsRun(r) && j < |r.acts| && r.acts[j] == At(c, Handle(m)) && m.Message?
    ensures c in r.states[j].conns && c in r.states[j + 1].conns
    ensures HandedOver(r.states[j].conns[c], r.states[j + 1].conns[c], m, Hears(r, j, c, m))
  {
    RunStep(r, j);
    CallsIff(r, j, c, m);
  }

  /** How many copies of `m` are inside the onFunc. */
  function Running(s: State, c: nat, m: Message): nat {
    if c in s.conns then s.conns[c].flow.running[m] else 0
  }

  lemma ActRuns(c: Conn, a: Act, n: Message)
    requires CanAct(c, a) && n.Message?
    ensures DoAct(c, a).flow.running[n] <= c.flow.running[n] + if a == Handle(n) && Calls(c, n) then 1 else 0
  {
    match a
    case Handle(m) =>
    case Report(m, ok) => assert DoAct(c, a).flow.running == c.flow.running - multiset{m};
    case _ => assert DoAct(c, a).flow.running == c.flow.running;
  }

  lemma BusRunsNothing(s: State, c: nat, n: Message)
    requires CanBus(s)
    ensures Running(BusStep(s), c, n) == Running(s, c, n)
  {
  }

  lemma StepRuns(s: State, a: Action, t: State, c: nat, n: Message)
    requires Membership(s) && CanStep(s, a) && t == Step(s, a) && n.Message?
    ensures Running(t, c, n) <= Running(s, c, n) || (c in s.conns && Calls(s.conns[c], n))
  {
    match a
    case At(d, act) => ActRuns(s.conns[d], act, n);
    case Bus => BusRunsNothing(s, c, n);
    case Connect(_) =>
    case Emit(_, _) =>
  }

  /** From the moment a pod's `Send` has recorded a message until its onFunc is replaced or the UUID is let
      through by hand, no step puts a message with that UUID into its onFunc. */
  lemma NeverHearsItself(r: Run, i: nat, j: nat, c: nat, m: Message, n: Message)
    requires IsRun(r) && i < j < |r.acts|
    requires r.acts[i] == At(c, RecordSend(m)) && m.Message? && n.Message? && n.uuid == m.uuid
    requires forall k :: i < k < j ==> !Lifts(r.acts[k], c, m.uuid)
    ensures Running(r.states[j + 1], c, n) <= Running(r.states[j], c, n)
  {
    AlwaysSafe(r, j);
    RunStep(r, j);
    if Running(r.states[j + 1], c, n) > Running(r.states[j], c, n) {
      StepRuns(r.states[j], r.acts[j], r.states[j + 1], c, n);
      CallsIff(r, j, c, n);
      assert BarredSince(r, i, j, c, m.uuid);
    }
  }
}
