/** The withdraw barrier as an interleaved system: the withdrawing goroutine, the counting goroutine, and each
    connection's withdraw listener and read loop. One withdraw, during which the hub's lock keeps the table as it is. */
module Withdraws {

  /** Waiting for the signal, about to send the withdraw, offering its error, about to say it is done, gone. */
  datatype Listener = Waiting | Sending | Reporting | Acking | Finished

  datatype Reader = Reading | Offering | Stopped

  /** A signaler: the tokens in its two channels and its flags. */
  datatype Signals = Signals(withdrawChan: nat, doneChan: nat, selfWithdrawn: bool, peerWithdrawn: bool)

  const NO_SIGNALS := Signals(0, 0, false, false)

  /** One connection: its signaler and its two goroutines. `attempts` counts the calls of `SendWithdraw` that
      returned, `counted` the tokens the counter received from it. */
  datatype Peer = Peer(signals: Signals, listener: Listener, reader: Reader, attempts: nat, counted: nat)

  /** The withdrawing goroutine: `left` are the connections to signal, `raised` the one whose flag is up
      already; then it waits, and returns. */
  datatype Caller = Signalling(left: set<string>, raised: set<string>) | Awaiting | ReturnedNil | ReturnedTimeout

  /** The counting goroutine, with the connections left in this pass. */
  datatype Counter = NotStarted | Scanning(rest: set<string>) | Telling | Ended

  datatype State = State(peers: map<string, Peer>, caller: Caller, counter: Counter, count: int)

  datatype ReadOutcome = GotMessage | GotWithdraw | GotError

  datatype Action =
    | Raise(uuid: string)
    | Signal(uuid: string)
    | StartCounting
    | Hear(uuid: string)
    | Attempt(uuid: string, ok: bool)
    | ErrorTaken(uuid: string)
    | SayDone(uuid: string)
    | Read(uuid: string, outcome: ReadOutcome)
    | ReadErrorTaken(uuid: string)
    | Poll(uuid: string)
    | EndPass
    | Tell
    | TimeOut

  const CHAN_SIZE := 1

  /** A started connection no withdraw has touched; its peer may have withdrawn already. */
  predicate Untouched(p: Peer) {
    && p.signals == NO_SIGNALS.(peerWithdrawn := p.signals.peerWithdrawn) && p.listener.Waiting?
    && p.attempts == 0 && p.counted == 0
  }

  ghost predicate Initial(s: State) {
    && (forall u :: u in s.peers ==> Untouched(s.peers[u]))
    && s.caller == Signalling(s.peers.Keys, {}) && s.counter == NotStarted
  }

  predicate CanStep(s: State, a: Action) {
    match a
    case Raise(u) => u in s.peers && s.caller.Signalling? && u in s.caller.left && s.caller.raised == {}
    case Signal(u) =>
      u in s.peers && s.caller.Signalling? && s.caller.raised == {u} && s.peers[u].signals.withdrawChan < CHAN_SIZE
    case StartCounting => s.caller == Signalling({}, {})
    case Hear(u) => u in s.peers && s.peers[u].listener.Waiting? && s.peers[u].signals.withdrawChan > 0
    case Attempt(u, ok) => u in s.peers && s.peers[u].listener.Sending?
    case ErrorTaken(u) => u in s.peers && s.peers[u].listener.Reporting?
    case SayDone(u) => u in s.peers && s.peers[u].listener.Acking? && s.peers[u].signals.doneChan < CHAN_SIZE
    case Read(u, outcome) => u in s.peers && s.peers[u].reader.Reading?
    case ReadErrorTaken(u) => u in s.peers && s.peers[u].reader.Offering?
    case Poll(u) => u in s.peers && s.counter.Scanning? && u in s.counter.rest
    case EndPass => s.counter == Scanning({})
    case Tell => s.counter.Telling? && s.caller.Awaiting?
    case TimeOut => s.caller.Awaiting?
  }

  /** What an action does to the signaler of the connection it is about. */
  function Marked(g: Signals, a: Action): Signals {
    match a
    case Raise(_) => g.(selfWithdrawn := true)
    case Signal(_) => g.(withdrawChan := g.withdrawChan + 1)
    case Hear(_) => if g.withdrawChan > 0 then g.(withdrawChan := g.withdrawChan - 1) else g
    case SayDone(_) => g.(doneChan := g.doneChan + 1)
    case Read(_, GotWithdraw) => g.(peerWithdrawn := true)
    case Poll(_) => if g.doneChan > 0 then g.(doneChan := g.doneChan - 1) else g
    case _ => g
  }

  /** A read that fails on a connection with a raised flag is not an error. */
  predicate Excused(g: Signals) {
    g.selfWithdrawn || g.peerWithdrawn
  }

  /** What an action does to the connection it is about. */
  function Touched(p: Peer, a: Action): Peer {
    var q := p.(signals := Marked(p.signals, a));
    match a
    case Hear(_) => if p.signals.withdrawChan > 0 then q.(listener := Sending) else q
    case Attempt(_, ok) => q.(attempts := p.attempts + 1, listener := if ok then Acking else Reporting)
    case ErrorTaken(_) => q.(listener := Acking)
    case SayDone(_) => q.(listener := Finished)
    case Read(_, GotMessage) => q
    case Read(_, GotWithdraw) => q.(reader := Stopped)
    case Read(_, GotError) => q.(reader := if Excused(p.signals) then Stopped else Offering)
    case ReadErrorTaken(_) => q.(reader := Stopped)
    case Poll(_) => if p.signals.doneChan > 0 then q.(counted := p.counted + 1) else q
    case _ => q
  }

  function Step(s: State, a: Action): State
    requires CanStep(s, a)
  {
    match a
    case Raise(u) => s.(peers := s.peers[u := Touched(s.peers[u], a)], caller := s.caller.(raised := {u}))
    case Signal(u) =>
      s.(peers := s.peers[u := Touched(s.peers[u], a)], caller := Signalling(s.caller.left - {u}, {}))
    case StartCounting => s.(caller := Awaiting, counter := Scanning(s.peers.Keys), count := |s.peers|)
    case Poll(u) =>
      s.(peers := s.peers[u := Touched(s.peers[u], a)],
         counter := Scanning(s.counter.rest - {u}),
         count := if s.peers[u].signals.doneChan > 0 then s.count - 1 else s.count)
    case EndPass => s.(counter := if s.count == 0 then Telling else Scanning(s.peers.Keys))
    case Tell => s.(counter := Ended, caller := ReturnedNil)
    case TimeOut => s.(caller := ReturnedTimeout)
    case _ => s.(peers := s.peers[a.uuid := Touched(s.peers[a.uuid], a)])
  }

  datatype Run = Run(states: seq<State>, acts: seq<Action>)

  /** Step `i` of the run follows the rules. */
  ghost predicate Follows(r: Run, i: nat)
    requires |r.states| == |r.acts| + 1 && i < |r.acts|
  {
    CanStep(r.states[i], r.acts[i]) && r.states[i + 1] == Step(r.states[i], r.acts[i])
  }

  ghost predicate IsRun(r: Run) {
    && |r.states| == |r.acts| + 1
    && Initial(r.states[0])
    && forall i {:trigger Follows(r, i)} :: 0 <= i < |r.acts| ==> Follows(r, i)
  }

  lemma RunStep(r: Run, i: nat)
    requires IsRun(r) && i < |r.acts|
    ensures CanStep(r.states[i], r.acts[i]) && r.states[i + 1] == Step(r.states[i], r.acts[i])
  {
    assert Follows(r, i);
  }

  // ---- what every step keeps ----

  function One(b: bool): nat {
    if b then 1 else 0
  }

  /** Each connection is at one place of the handshake: one signal, one attempt, one token, counted once.
      `signalled` says whether the caller has signalled it. */
  predicate InOrder(p: Peer, signalled: bool) {
    && p.signals.withdrawChan + One(!p.listener.Waiting?) == One(signalled)
    && p.attempts == One(p.listener.Reporting? || p.listener.Acking? || p.listener.Finished?)
    && p.signals.doneChan + p.counted == One(p.listener.Finished?)
    && (signalled ==> p.signals.selfWithdrawn)
  }

  predicate Signalled(s: State, u: string) {
    s.caller.Signalling? ==> u !in s.caller.left
  }

  ghost function Counted(s: State): set<string> {
    set u | u in s.peers && s.peers[u].counted > 0
  }

  ghost predicate PeersInOrder(s: State) {
    forall u :: u in s.peers ==> InOrder(s.peers[u], Signalled(s, u))
  }

  predicate CallerInOrder(s: State) {
    && (s.caller.Signalling? ==> s.caller.raised <= s.caller.left <= s.peers.Keys)
    && (s.caller.Signalling? ==> forall u :: u in s.caller.raised ==> s.peers[u].signals.selfWithdrawn)
    && (s.caller.Signalling? <==> s.counter.NotStarted?)
    && (s.caller.ReturnedNil? <==> s.counter.Ended?)
  }

  /** The count is what the counter has yet to receive. */
  ghost predicate CountInOrder(s: State) {
    if s.counter.NotStarted? then Counted(s) == {}
    else s.count == |s.peers| - |Counted(s)| && (s.counter.Telling? || s.counter.Ended? ==> s.count == 0)
  }

  ghost predicate Sound(s: State) {
    PeersInOrder(s) && CallerInOrder(s) && CountInOrder(s)
  }

  lemma StepKeepsPeers(s: State, a: Action)
    requires Sound(s) && CanStep(s, a)
    ensures PeersInOrder(Step(s, a))
  {
    forall u | u in Step(s, a).peers ensures InOrder(Step(s, a).peers[u], Signalled(Step(s, a), u)) {
    }
  }

  /** Whoever is counted has finished, and was not counted before. */
  lemma PollCounts(s: State, u: string)
    requires Sound(s) && CanStep(s, Poll(u))
    ensures CountInOrder(Step(s, Poll(u)))
  {
    var t := Step(s, Poll(u));
    assert InOrder(s.peers[u], Signalled(s, u));
    if s.peers[u].signals.doneChan > 0 {
      assert u !in Counted(s) && Counted(t) == Counted(s) + {u};
    } else {
      assert Counted(t) == Counted(s);
    }
    assert t.peers.Keys == s.peers.Keys && |t.peers.Keys| == |t.peers| && |s.peers.Keys| == |s.peers|;
  }

  lemma QuietCounts(s: State, a: Action)
    requires Sound(s) && CanStep(s, a) && !a.Poll?
    ensures CountInOrder(Step(s, a))
  {
    var t := Step(s, a);
    assert Counted(t) == Counted(s);
    assert t.peers.Keys == s.peers.Keys && |t.peers.Keys| == |t.peers| && |s.peers.Keys| == |s.peers|;
  }

  lemma StepKeepsSound(s: State, a: Action)
    requires Sound(s) && CanStep(s, a)
    ensures Sound(Step(s, a))
  {
    StepKeepsPeers(s, a);
    if a.Poll? {
      PollCounts(s, a.uuid);
    } else {
      QuietCounts(s, a);
    }
  }

  lemma {:induction false} AlwaysSound(r: Run, i: nat)
    requires IsRun(r) && i < |r.states|
    ensures Sound(r.states[i])
  {
    if i > 0 {
      AlwaysSound(r, i - 1);
      RunStep(r, i - 1);
      StepKeepsSound(r.states[i - 1], r.acts[i - 1]);
    } else {
      assert Counted(r.states[0]) == {};
    }
  }

  // ---- what that means ----

  /** The count is the number of connections less the tokens received, none of which came from the same
      connection as another; it never goes below zero. */
  lemma CountIsExact(r: Run, i: nat)
    requires IsRun(r) && i < |r.states| && !r.states[i].counter.NotStarted?
    ensures var s := r.states[i];
      && s.count == |s.peers| - |Counted(s)| && 0 <= s.count
      && forall u :: u in s.peers ==> s.peers[u].counted <= 1
  {
    AlwaysSound(r, i);
    var s := r.states[i];
    SubsetSize(Counted(s), s.peers.Keys);
    forall u | u in s.peers ensures s.peers[u].counted <= 1 {
      assert InOrder(s.peers[u], Signalled(s, u));
    }
  }

  lemma {:induction false} SubsetSize(a: set<string>, b: set<string>)
    requires a <= b
    ensures |a| <= |b|
    ensures |a| == |b| ==> a == b
  {
    if a != {} {
      var x :| x in a;
      SubsetSize(a - {x}, b - {x});
    }
  }

  /** The barrier: a withdraw that returns nil has seen every connection's one attempt to send the withdraw
      finish, and its listener say it is done. */
  lemma BarrierHolds(r: Run, i: nat, u: string)
    requires IsRun(r) && i < |r.states| && r.states[i].caller.ReturnedNil? && u in r.states[i].peers
    ensures var p := r.states[i].peers[u];
      p.listener.Finished? && p.attempts == 1 && p.counted == 1 && p.signals.doneChan == 0 && p.signals.selfWithdrawn
  {
    AlwaysSound(r, i);
    var s := r.states[i];
    SubsetSize(Counted(s), s.peers.Keys);
    assert |s.peers.Keys| == |s.peers|;
    assert u in Counted(s);
    assert InOrder(s.peers[u], Signalled(s, u));
  }

  /** The counter is told to stop exactly when the last connection has been counted. */
  lemma CountIsZeroIff(r: Run, i: nat)
    requires IsRun(r) && i < |r.states| && !r.states[i].counter.NotStarted?
    ensures var s := r.states[i];
      s.count == 0 <==> forall u :: u in s.peers ==> s.peers[u].counted == 1
  {
    CountIsExact(r, i);
    var s := r.states[i];
    SubsetSize(Counted(s), s.peers.Keys);
    assert |s.peers.Keys| == |s.peers|;
    if forall u :: u in s.peers ==> s.peers[u].counted == 1 {
      assert Counted(s) == s.peers.Keys;
    }
    if s.count == 0 {
      forall u | u in s.peers ensures s.peers[u].counted == 1 {
        assert u in Counted(s);
      }
    }
  }

  /** Nobody is sent a withdraw before its flag is up, so a read that fails after that is not an error. */
  lemma FlagBeforeAttempt(r: Run, i: nat, u: string)
    requires IsRun(r) && i < |r.states| && u in r.states[i].peers
    requires r.states[i].peers[u].attempts > 0
    ensures r.states[i].peers[u].signals.selfWithdrawn
    ensures i + 1 < |r.states| ==>
      u in r.states[i + 1].peers && (r.states[i + 1].peers[u].reader.Offering? ==> r.states[i].peers[u].reader.Offering?)
  {
    AlwaysSound(r, i);
    assert InOrder(r.states[i].peers[u], Signalled(r.states[i], u));
    if i + 1 < |r.states| {
      RunStep(r, i);
    }
  }

  /** A raised flag stays up. */
  lemma {:induction false} FlagsStayUp(r: Run, i: nat, j: nat, u: string)
    requires IsRun(r) && i <= j < |r.states| && u in r.states[i].peers
    ensures u in r.states[j].peers
    ensures r.states[i].peers[u].signals.selfWithdrawn ==> r.states[j].peers[u].signals.selfWithdrawn
    ensures r.states[i].peers[u].signals.peerWithdrawn ==> r.states[j].peers[u].signals.peerWithdrawn
    decreases j - i
  {
    if i < j {
      FlagsStayUp(r, i, j - 1, u);
      RunStep(r, j - 1);
    }
  }

  /** The action is one of the first `i`. */
  ghost predicate Done(r: Run, i: nat, a: Action)
    requires i <= |r.acts|
  {
    exists k :: 0 <= k < i && r.acts[k] == a
  }

  /** In every state of every run, a connection's own flag is up if and only if the withdraw has raised it, and its
      peer's if and only if the peer's withdraw has been read, before the run or in it. */
  lemma {:induction false} FlagsIff(r: Run, i: nat, u: string)
    requires IsRun(r) && i < |r.states| && u in r.states[0].peers
    ensures u in r.states[i].peers
    ensures var g := r.states[i].peers[u].signals;
      && (g.selfWithdrawn <==> Done(r, i, Raise(u)))
      && (g.peerWithdrawn <==> r.states[0].peers[u].signals.peerWithdrawn || Done(r, i, Read(u, GotWithdraw)))
  {
    if i > 0 {
      FlagsIff(r, i - 1, u);
      RunStep(r, i - 1);
    }
  }

  /** A read that fails is reported if and only if by then neither the own flag was raised nor the peer's withdraw read. */
  lemma ReadErrorIff(r: Run, i: nat, u: string)
    requires IsRun(r) && i < |r.acts| && r.acts[i] == Read(u, GotError) && u in r.states[0].peers
    ensures u in r.states[i + 1].peers
    ensures r.states[i + 1].peers[u].reader.Offering? <==>
      !r.states[0].peers[u].signals.peerWithdrawn && !Done(r, i, Raise(u)) && !Done(r, i, Read(u, GotWithdraw))
  {
    FlagsIff(r, i, u);
    RunStep(r, i);
  }

  /** The flags that are up among the connections still to be signalled are the caller's `raised`, one at most. */
  ghost predicate OneUp(s: State) {
    s.caller.Signalling? ==>
      && (forall u, v :: u in s.caller.raised && v in s.caller.raised ==> u == v)
      && (forall u :: u in s.peers && u in s.caller.left && s.peers[u].signals.selfWithdrawn ==> u in s.caller.raised)
  }

  lemma {:induction false} AlwaysOneUp(r: Run, i: nat)
    requires IsRun(r) && i < |r.states|
    ensures OneUp(r.states[i])
  {
    if i > 0 {
      AlwaysOneUp(r, i - 1);
      RunStep(r, i - 1);
    }
  }

  /** Connections are signalled one after the other: never are two flags up without their tokens sent. */
  lemma SignalledOneByOne(r: Run, i: nat, u: string, v: string)
    requires IsRun(r) && i < |r.states| && u in r.states[i].peers && v in r.states[i].peers && u != v
    requires r.states[i].peers[u].signals.selfWithdrawn && r.states[i].peers[v].signals.selfWithdrawn
    ensures Signalled(r.states[i], u) || Signalled(r.states[i], v)
  {
    AlwaysOneUp(r, i);
  }

  lemma {:induction false} StaysStopped(r: Run, i: nat, j: nat, u: string)
    requires IsRun(r) && i <= j < |r.states| && u in r.states[i].peers && !r.states[i].peers[u].reader.Reading?
    ensures u in r.states[j].peers && !r.states[j].peers[u].reader.Reading?
    decreases j - i
  {
    if i < j {
      StaysStopped(r, i, j - 1, u);
      RunStep(r, j - 1);
    }
  }

  /** After the peer's withdraw or a failed read nothing more is read. */
  lemma NothingReadAfterEnd(r: Run, i: nat, j: nat, u: string, end: ReadOutcome, outcome: ReadOutcome)
    requires IsRun(r) && i < j < |r.acts| && r.acts[i] == Read(u, end) && !end.GotMessage?
    ensures r.acts[j] != Read(u, outcome)
  {
    RunStep(r, i);
    StaysStopped(r, i + 1, j, u);
    RunStep(r, j);
  }

  lemma StepReports(s: State, a: Action, u: string)
    requires CanStep(s, a) && u in s.peers
    ensures u in Step(s, a).peers
    ensures var p, q := s.peers[u], Step(s, a).peers[u];
      && (a == Attempt(u, false) ==> q.listener.Reporting?)
      && (a == ErrorTaken(u) ==> p.listener.Reporting? && !q.listener.Reporting?)
      && (a != Attempt(u, false) && a != ErrorTaken(u) ==> p.listener.Reporting? == q.listener.Reporting?)
  {
  }

  /** An attempt to send the withdraw has failed if and only if its error is being offered or has been taken. */
  lemma {:induction false} FailedAttemptIsReported(r: Run, i: nat, u: string)
    requires IsRun(r) && i < |r.states| && u in r.states[0].peers
    ensures u in r.states[i].peers
    ensures Done(r, i, Attempt(u, false)) <==> r.states[i].peers[u].listener.Reporting? || Done(r, i, ErrorTaken(u))
  {
    if i > 0 {
      FailedAttemptIsReported(r, i - 1, u);
      RunStep(r, i - 1);
      StepReports(r.states[i - 1], r.acts[i - 1], u);
    }
  }

  // ---- the barrier opens ----

  ghost predicate Reaches(s: State, acts: seq<Action>, t: State)
    decreases |acts|
  {
    if acts == [] then t == s else CanStep(s, acts[0]) && Reaches(Step(s, acts[0]), acts[1..], t)
  }

  lemma {:induction false} ReachesOn(s: State, first: seq<Action>, t: State, second: seq<Action>, v: State)
    requires Reaches(s, first, t) && Reaches(t, second, v)
    ensures Reaches(s, first + second, v)
    decreases |first|
  {
    if first == [] {
      assert first + second == second;
    } else {
      ReachesOn(Step(s, first[0]), first[1..], t, second, v);
      assert (first + second)[1..] == first[1..] + second;
    }
  }

  lemma ReachesFirst(s: State, a: Action, more: seq<Action>, t: State)
    requires CanStep(s, a) && Reaches(Step(s, a), more, t)
    ensures Reaches(s, [a] + more, t)
  {
    assert ([a] + more)[1..] == more;
  }

  ghost predicate AllFinished(s: State) {
    forall u :: u in s.peers ==> s.peers[u].listener.Finished?
  }

  lemma PollFinished(s: State, u: string)
    requires Sound(s) && AllFinished(s) && CanStep(s, Poll(u))
    ensures var next := Step(s, Poll(u));
      && Sound(next) && AllFinished(next) && next.peers.Keys == s.peers.Keys && Counted(next) == Counted(s) + {u}
  {
    StepKeepsSound(s, Poll(u));
    assert InOrder(s.peers[u], Signalled(s, u));
  }

  /** The rest of a pass over finished connections counts all of them that were not counted before. */
  lemma {:induction false} PassCounts(s: State) returns (acts: seq<Action>, t: State)
    requires Sound(s) && AllFinished(s) && s.caller.Awaiting? && s.counter.Scanning? && s.counter.rest <= s.peers.Keys
    ensures Reaches(s, acts, t) && Sound(t) && AllFinished(t) && t.caller.Awaiting? && t.counter == Scanning({})
    ensures t.peers.Keys == s.peers.Keys && Counted(t) == Counted(s) + s.counter.rest
    decreases s.counter.rest
  {
    if s.counter.rest == {} {
      acts, t := [], s;
    } else {
      var u :| u in s.counter.rest;
      var next := Step(s, Poll(u));
      PollFinished(s, u);
      var more;
      more, t := PassCounts(next);
      acts := [Poll(u)] + more;
      assert Counted(next) + next.counter.rest == Counted(s) + s.counter.rest;
      ReachesFirst(s, Poll(u), more, t);
    }
  }

  /** After a full pass over finished connections the withdraw can return nil. */
  lemma FullPassReturns(s: State) returns (acts: seq<Action>, t: State)
    requires Sound(s) && s.caller.Awaiting? && s.counter == Scanning({}) && Counted(s) == s.peers.Keys
    ensures Reaches(s, acts, t) && t.caller.ReturnedNil?
  {
    assert |s.peers.Keys| == |s.peers|;
    var told := Step(s, EndPass);
    t := Step(told, Tell);
    ReachesOn(s, [EndPass], told, [Tell], t);
    acts := [EndPass] + [Tell];
  }

  /** After a pass that leaves some uncounted, the next one counts them and the withdraw can return nil. */
  lemma NextPassReturns(s: State) returns (acts: seq<Action>, t: State)
    requires Sound(s) && AllFinished(s) && s.caller.Awaiting? && s.counter == Scanning({}) && s.count != 0
    ensures Reaches(s, acts, t) && t.caller.ReturnedNil?
  {
    var again := Step(s, EndPass);
    StepKeepsSound(s, EndPass);
    var pass, full := PassCounts(again);
    assert Counted(full) == full.peers.Keys;
    var last;
    last, t := FullPassReturns(full);
    ReachesOn(again, pass, full, last, t);
    acts := [EndPass] + (pass + last);
    ReachesFirst(s, EndPass, pass + last, t);
  }

  /** Once every listener has finished, nothing but the timeout keeps the withdraw from returning nil. */
  lemma FinishedCanReturn(r: Run, i: nat) returns (acts: seq<Action>, t: State)
    requires IsRun(r) && i < |r.states|
    requires AllFinished(r.states[i]) && r.states[i].caller.Awaiting?
    ensures Reaches(r.states[i], acts, t) && t.caller.ReturnedNil?
  {
    var s := r.states[i];
    AlwaysSound(r, i);
    RestIsKnown(r, i);
    if s.counter.Telling? {
      return [Tell], Step(s, Tell);
    }
    var first, mid := PassCounts(s);
    var last;
    if mid.count == 0 {
      SubsetSize(Counted(mid), mid.peers.Keys);
      assert |mid.peers.Keys| == |mid.peers|;
      last, t := FullPassReturns(mid);
    } else {
      last, t := NextPassReturns(mid);
    }
    ReachesOn(s, first, mid, last, t);
    acts := first + last;
  }

  lemma {:induction false} RestIsKnown(r: Run, i: nat)
    requires IsRun(r) && i < |r.states|
    ensures r.states[i].counter.Scanning? ==> r.states[i].counter.rest <= r.states[i].peers.Keys
  {
    if i > 0 {
      RestIsKnown(r, i - 1);
      RunStep(r, i - 1);
    }
  }
}
