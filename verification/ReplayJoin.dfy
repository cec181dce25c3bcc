/** When a replay joins the live traffic without a gap, a repeat or a step back. */
module ReplayJoins {
  import opened Messages
  import opened Sequences
  import opened Feedback
  import opened Connections
  import opened MsgBuffers
  import opened Systems
  import opened SystemSafety
  import opened Delivery
  import opened Replays

  /** Apart from flushes, what the connection was sent is one contiguous stretch of the bus history. */
  ghost predicate Seamless(c: Conn, hist: seq<Message>) {
    Position(c) <= |hist| && exists a :: 0 <= a <= Position(c) && Fresh(c.log) == hist[a..Position(c)]
  }

  /** The window a replay during message `upto` sends: the last 128 messages before it. */
  function Window(hist: seq<Message>, upto: nat): seq<Message>
    requires upto <= |hist|
  {
    LastN(hist[..upto], BUFFER_SIZE)
  }

  lemma WindowIsSlice(hist: seq<Message>, upto: nat)
    requires upto <= |hist|
    ensures |Window(hist, upto)| <= upto
    ensures Window(hist, upto) == hist[upto - |Window(hist, upto)|..upto]
    ensures upto > 0 ==> |Window(hist, upto)| > 0
  {
  }

  lemma JoinedAtBirthIsSeamless(c: Conn, hist: seq<Message>)
    requires Spliced(c, hist) && c.joined.Some?
    requires c.joined.value.at == c.born || c.joined.value.upto == 0
    ensures Seamless(c, hist)
  {
    var Joined(at, upto) := c.joined.value;
    WindowIsSlice(hist, upto);
    var a := if upto == 0 then c.born else upto - |Window(hist, upto)|;
    if upto == 0 {
      assert Fresh(c.log) == hist[c.born..at] + hist[at..Position(c)] == hist[a..Position(c)];
    } else {
      assert at == upto && hist[c.born..at] == [];
      assert Fresh(c.log) == hist[a..upto] + hist[upto..Position(c)] == hist[a..Position(c)];
    }
  }

  lemma SeamlessIsJoinedAtBirth(c: Conn, hist: seq<Message>, a: nat)
    requires Spliced(c, hist) && c.joined.Some? && NoDup(hist)
    requires a <= Position(c) && Fresh(c.log) == hist[a..Position(c)]
    requires c.joined.value.at != c.born
    ensures c.joined.value.upto == 0
  {
    var Joined(at, upto) := c.joined.value;
    WindowIsSlice(hist, upto);
    assert |Fresh(c.log)| == Position(c) - c.born + |Window(hist, upto)|;
    assert Fresh(c.log)[0] == hist[c.born];
    assert Fresh(c.log)[0] == hist[a];
    assert a == c.born;
  }

  /** With distinct messages, a replay joins seamlessly exactly when it came before anything was walked to
      the connection, or there was nothing to replay. */
  lemma SeamlessIff(r: Run, i: nat, c: nat)
    requires Steady(r, i) && c in r.states[i].conns
    requires Spaced(r.states[i].hist, BUFFER_SIZE) && NoDup(r.states[i].hist)
    requires r.states[i].conns[c].joined.Some?
    ensures var conn := r.states[i].conns[c];
      Seamless(conn, r.states[i].hist) <==> conn.joined.value.at == conn.born || conn.joined.value.upto == 0
  {
    AlwaysSpliced(r, i);
    var conn, hist := r.states[i].conns[c], r.states[i].hist;
    assert Spliced(conn, hist);
    if conn.joined.value.at == conn.born || conn.joined.value.upto == 0 {
      JoinedAtBirthIsSeamless(conn, hist);
    } else if Seamless(conn, hist) {
      var a :| 0 <= a <= Position(conn) && Fresh(conn.log) == hist[a..Position(conn)];
      SeamlessIsJoinedAtBirth(conn, hist, a);
    }
  }

  lemma LateReplayRepeats(c: Conn, hist: seq<Message>)
    requires Spliced(c, hist) && c.joined.Some? && c.born < c.joined.value.upto
    ensures !NoDup(Fresh(c.log))
  {
    var Joined(at, upto) := c.joined.value;
    WindowIsSlice(hist, upto);
    var f, w := Fresh(c.log), |Window(hist, upto)|;
    assert f[upto - 1 - c.born] == hist[upto - 1];
    assert f[at - c.born + w - 1] == Window(hist, upto)[w - 1] == hist[upto - 1];
  }

  /** One message, then a window that ends before it, then what follows it: no message twice. */
  lemma OutOfOrderHasNoDup(hist: seq<Message>, low: nat, upto: nat, end: nat)
    requires NoDup(hist) && low <= upto < end <= |hist|
    ensures NoDup([hist[upto]] + hist[low..upto] + hist[upto + 1..end])
  {
  }

  lemma EarlyReplayDoesNotRepeat(c: Conn, hist: seq<Message>)
    requires Spliced(c, hist) && c.joined.Some? && NoDup(hist) && c.joined.value.upto <= c.born
    ensures NoDup(Fresh(c.log))
  {
    var Joined(at, upto) := c.joined.value;
    WindowIsSlice(hist, upto);
    var low := upto - |Window(hist, upto)|;
    if at == c.born {
      assert hist[c.born..at] == [];
      assert Fresh(c.log) == hist[low..upto] + hist[upto..Position(c)] == hist[low..Position(c)];
    } else {
      assert c.born == upto && at == upto + 1;
      assert hist[upto..upto + 1] == [hist[upto]];
      OutOfOrderHasNoDup(hist, low, upto, Position(c));
    }
  }

  /** With distinct messages, a replay repeats no message exactly when no message before the one then in
      hand had been walked to the connection. */
  lemma RepeatsNothingIff(r: Run, i: nat, c: nat)
    requires Steady(r, i) && c in r.states[i].conns
    requires Spaced(r.states[i].hist, BUFFER_SIZE) && NoDup(r.states[i].hist)
    requires r.states[i].conns[c].joined.Some?
    ensures var conn := r.states[i].conns[c]; NoDup(Fresh(conn.log)) <==> conn.joined.value.upto <= conn.born
  {
    AlwaysSpliced(r, i);
    var conn, hist := r.states[i].conns[c], r.states[i].hist;
    assert Spliced(conn, hist);
    if conn.joined.value.upto <= conn.born {
      EarlyReplayDoesNotRepeat(conn, hist);
    } else {
      LateReplayRepeats(conn, hist);
    }
  }

  // ---- a request pending at the first prepared visit ----

  /** The check about to be made of `c` is its first, with a replay request and no disconnect pending. */
  ghost predicate FirstVisit(s: State, c: nat) {
    && s.pc.Check? && s.pc.target == c
    && Fresh(s.conns[c].log) == []
    && Replay in s.conns[c].feedback && Disconnect !in s.conns[c].feedback
  }

  /** The replay to `c` is about to be made while message `k` is in hand, or was. */
  ghost predicate Joining(s: State, c: nat, k: nat) {
    c in s.conns && s.conns[c].born == k &&
    if s.conns[c].joined.None? then
      s.pc.ReplayNext? && s.pc.target == c && |Walked(s.conns[c].log)| == 0 && |s.hist| - 1 == k
    else s.conns[c].joined == Some(Joined(k, k))
  }

  lemma FreshCoversWalked(log: seq<Sent>)
    ensures |Walked(log)| <= |Fresh(log)|
  {
  }

  lemma FirstVisitJoins(s: State, c: nat)
    requires FirstVisit(s, c) && Delivers(s) && Safe(s) && Asked(s) && Born(s)
    ensures s.hist != [] && Joining(BusStep(s), c, |s.hist| - 1)
  {
    var conn := s.conns[c];
    NothingFailedYet(conn);
    RequestsPositive(conn.feedback);
    FreshCoversWalked(conn.log);
    TargetIsOnTime(s);
  }

  lemma StepKeepsJoining(s: State, a: Action, t: State, c: nat, k: nat)
    requires Joining(s, c, k) && Membership(s) && Asked(s) && CanStep(s, a) && t == Step(s, a) && (a.Bus? ==> Hits(s))
    ensures Joining(t, c, k)
  {
    match a
    case At(d, act) => ActKeepsHistory(s.conns[d], act);
    case Connect(_) => assert s.maxID + 1 !in s.conns;
    case Emit(_, _) =>
    case Bus => BusKeepsJoining(s, c, k);
  }

  lemma BusKeepsJoining(s: State, c: nat, k: nat)
    requires Joining(s, c, k) && Hits(s) && Asked(s) && CanBus(s)
    ensures Joining(BusStep(s), c, k)
  {
  }

  lemma NextKeepsJoining(r: Run, i: nat, c: nat, k: nat)
    requires Steady(r, i + 1) && Joining(r.states[i], c, k)
    ensures Joining(r.states[i + 1], c, k)
  {
    AlwaysSafe(r, i);
    AlwaysAsked(r, i);
    RunStep(r, i);
    StepKeepsJoining(r.states[i], r.acts[i], r.states[i + 1], c, k);
  }

  lemma {:induction false} StaysJoining(r: Run, i: nat, j: nat, c: nat, k: nat)
    requires Steady(r, j) && i <= j && Joining(r.states[i], c, k)
    ensures Joining(r.states[j], c, k)
    decreases j - i
  {
    if i < j {
      StaysJoining(r, i, j - 1, c, k);
      NextKeepsJoining(r, j - 1, c, k);
    }
  }

  lemma VisitedFacts(r: Run, i: nat)
    requires Steady(r, i)
    ensures var s := r.states[i]; Delivers(s) && Safe(s) && Asked(s) && Born(s)
  {
    AlwaysSafe(r, i);
    AlwaysDelivers(r, i);
    AlwaysAsked(r, i);
    AlwaysBorn(r, i);
  }

  lemma FirstVisitOfRun(r: Run, i: nat, c: nat)
    requires Steady(r, i + 1) && r.acts[i].Bus? && FirstVisit(r.states[i], c)
    ensures c in r.states[i].conns && r.states[i].hist != []
    ensures Joining(r.states[i + 1], c, |r.states[i].hist| - 1)
  {
    VisitedFacts(r, i);
    FirstVisitJoins(r.states[i], c);
    RunStep(r, i);
  }

  /** Replay without gap or duplicate: if the first check of a connection finds a replay request and no
      disconnect while message `k` is in hand, then from then on, once the replay has been made, the
      connection's sends apart from flushes are the last min(k, 128) messages before message `k`, oldest
      first, followed by message `k` and each later one once. */
  lemma ReplayJoinsLiveTraffic(r: Run, i: nat, j: nat, c: nat)
    requires Steady(r, j) && i < j && r.acts[i].Bus? && FirstVisit(r.states[i], c)
    requires Spaced(r.states[j].hist, BUFFER_SIZE)
    ensures c in r.states[j].conns && r.states[i].hist != [] && |r.states[i].hist| <= |r.states[j].hist|
    ensures var s := r.states[j]; var conn := s.conns[c]; var k := |r.states[i].hist| - 1;
      || (s.pc.ReplayNext? && s.pc.target == c && conn.joined.None?)
      || (k <= Position(conn) <= |s.hist| && Fresh(conn.log) == Window(s.hist, k) + s.hist[k..Position(conn)])
  {
    var k := |r.states[i].hist| - 1;
    FirstVisitOfRun(r, i, c);
    StaysJoining(r, i + 1, j, c, k);
    RunKeepsPast(r, i, j, c);
    AlwaysSpliced(r, j);
  }
}
