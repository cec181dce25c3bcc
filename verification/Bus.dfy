/** The bus loop over the linked ring: one message at a time, walked once round while pods connect and report. */
module Buses {
  import opened Messages
  import opened Sequences
  import opened Rings
  import opened Feedback
  import opened Connections
  import opened MsgBuffers
  import opened Pools
  import Systems

  /** What can happen between two bus steps: a pod connects, or the pod `ahead` places on reports. */
  datatype Event = Connect | Report(ahead: nat, feedback: Feedback)

  function Connects(events: seq<Event>): nat {
    if events == [] then 0 else Connects(events[..|events| - 1]) + if events[|events| - 1].Connect? then 1 else 0
  }

  /** How many pods are still to connect from entry `k` of the script on. */
  function ConnectsLeft(script: seq<seq<Event>>, k: nat): nat
    decreases |script| - k
  {
    if k >= |script| then 0 else Connects(script[k]) + ConnectsLeft(script, k + 1)
  }

  /** The hub's pod has reported neither a failure nor a disconnect. */
  predicate HubQuiet(hub: PodConnection)
    reads hub
  {
    hub.ID == Systems.HUB && hub.failed == [] && FailedOf(hub.feedbackChan) == [] && Disconnect !in hub.feedbackChan
  }

  lemma QuietSettles(failed: seq<Message>, batch: seq<Feedback>)
    requires failed == [] && FailedOf(batch) == [] && Disconnect !in batch
    ensures Decide(StatusOf(failed, batch)).Keep?
    ensures StillFailed(Decide(StatusOf(failed, batch)), failed + FailedOf(batch)) == [] && FailedOf([]) == []
  {
  }

  // ---- one turn round the ring, as positions ----

  /** Where a walk that began at `start` stands: positions below `due` are still to be visited, the others
      have been, and the start comes last. */
  ghost predicate Underway(ring: seq<PodConnection>, visited: seq<PodConnection>, start: PodConnection, due: nat) {
    && 1 <= due <= |ring|
    && DistinctIDs(ring)
    && NoDup(visited)
    && (forall i :: 0 <= i < due ==> ring[i] !in visited)
    && (forall i :: due <= i < |ring| ==> ring[i] in visited)
    && (forall c :: c in visited ==> c in ring)
    && (visited == [] ==> due == |ring| && ring[0] == start)
    && (visited != [] ==> visited[0] == start && due < |ring| && ring[due] == start)
  }

  /** The walk is over: everyone in the ring has been visited, and everyone visited but perhaps the start is there. */
  ghost predicate Complete(ring: seq<PodConnection>, visited: seq<PodConnection>, start: PodConnection) {
    && NoDup(visited) && visited != [] && visited[0] == start
    && (forall c :: c in ring ==> c in visited)
    && (forall c :: c in visited ==> c == start || c in ring)
  }

  lemma JoinUnderway(ring: seq<PodConnection>, joined: seq<PodConnection>, visited: seq<PodConnection>,
                     start: PodConnection, due: nat)
    requires Underway(ring, visited, start, due)
    requires forall c :: c in joined ==> c !in visited
    requires DistinctIDs([ring[0]] + joined + ring[1..])
    ensures Underway([ring[0]] + joined + ring[1..], visited, start, due + |joined|)
  {
  }

  /** After the visit of the current connection and a step onto the next, kept one. */
  lemma KeptUnderway(ring: seq<PodConnection>, visited: seq<PodConnection>, start: PodConnection, due: nat)
    requires Underway(ring, visited, start, due)
    ensures var next := Rotated(ring); var seen := visited + [ring[0]];
      if next[0].ID == start.ID then Complete(next, seen, start) else due >= 2 && Underway(next, seen, start, due - 1)
  {
  }

  /** The same when the next connection was removed; the end of the walk moves on if it was the start. */
  lemma RemovedUnderway(ring: seq<PodConnection>, visited: seq<PodConnection>, start: PodConnection, due: nat)
    requires Underway(ring, visited, start, due) && |ring| >= 2
    ensures var next := Rotated(WithoutSecond(ring)); var seen := visited + [ring[0]];
      var end := if ring[1].ID == start.ID then Third(ring).ID else start.ID;
      if next[0].ID == end then Complete(next, seen, start)
      else end == start.ID && due >= 3 && Underway(next, seen, start, due - 2)
  {
  }

  lemma JoinedIn(ring: seq<PodConnection>, joined: seq<PodConnection>)
    requires ring != []
    ensures var q := [ring[0]] + joined + ring[1..];
      && (forall c :: c in q <==> c in ring || c in joined)
      && Second(q) in q
  {
  }

  /** Either way, the walk is over or is left with fewer visits. */
  lemma StepUnderway(ring: seq<PodConnection>, removed: bool, visited: seq<PodConnection>, start: PodConnection, due: nat)
    returns (left: nat)
    requires Underway(ring, visited, start, due) && (removed ==> |ring| >= 2)
    ensures left < due
    ensures var next := Rotated(if removed then WithoutSecond(ring) else ring);
      && Goes(next, visited + [ring[0]], start, left,
              if removed && Second(ring).ID == start.ID then Third(ring).ID else start.ID)
      && (forall c :: c in next ==> c in ring)
  {
    if removed {
      RemovedUnderway(ring, visited, start, due);
      TurnedIn(WithoutSecond(ring), ring);
      left := if due >= 2 then due - 2 else 0;
    } else {
      KeptUnderway(ring, visited, start, due);
      TurnedIn(ring, ring);
      left := due - 1;
    }
  }

  /** The walk is over if it has met its end, and goes on towards its start otherwise. */
  ghost predicate Goes(ring: seq<PodConnection>, visited: seq<PodConnection>, start: PodConnection, due: nat, end: nat)
    requires ring != []
  {
    if ring[0].ID == end then Complete(ring, visited, start) else end == start.ID && Underway(ring, visited, start, due)
  }

  lemma TurnedIn(part: seq<PodConnection>, ring: seq<PodConnection>)
    requires part == ring || part == WithoutSecond(ring)
    ensures forall c :: c in Rotated(part) ==> c in ring
  {
  }

  lemma JoinedAgain(ring: seq<PodConnection>, joined: seq<PodConnection>, before: seq<PodConnection>, latest: seq<PodConnection>)
    requires ring != [] && before == [ring[0]] + joined + ring[1..]
    ensures [before[0]] + latest + before[1..] == [ring[0]] + (latest + joined) + ring[1..]
  {
  }

  /** A walk as it goes: whom it has visited, how many ring positions are due, and everyone who was or came
      into the ring with what walks had sent them before. */
  datatype WalkState = WalkState(
    msg: Message,
    start: PodConnection,
    visited: seq<PodConnection>,
    due: nat,
    roster: seq<PodConnection>,
    was: seq<seq<Sent>>,
    held: seq<Message>)
  {
    ghost function Joined(joined: seq<PodConnection>): WalkState {
      this.(due := due + |joined|, roster := roster + joined, was := was + Blank(|joined|))
    }

    /** The same walk later on: newcomers have been enrolled, to whom nothing had been walked. */
    ghost predicate From(base: WalkState) {
      && msg == base.msg && start == base.start && held == base.held
      && base.roster <= roster && base.was <= was && |base.was| == |base.roster| && |was| == |roster|
      && forall i :: |base.roster| <= i < |was| ==> was[i] == []
    }

    ghost function Newcomers(n: nat): set<PodConnection>
      requires n <= |roster|
    {
      Members(roster[n..])
    }
  }

  /** Everyone visited has been sent the message by this walk exactly once, and nobody else has. */
  ghost predicate Tally(w: WalkState)
    reads w.roster
  {
    && |w.was| == |w.roster|
    && forall i :: 0 <= i < |w.roster| ==>
         Noted(w.roster[i].log, w.held) == w.was[i] + if w.roster[i] in w.visited then [Sent(w.msg, Walk)] else []
  }

  ghost function Members(ring: seq<PodConnection>): set<PodConnection> {
    set c | c in ring
  }

  // ---- the bus ----

  class MessageBus {
    const pool: ConnectionPool
    const buffer: MsgBuffer
    ghost const hub: PodConnection

    ghost predicate Valid()
      reads this, pool, pool.ring, buffer, hub
    {
      pool.Valid() && buffer.Valid() && hub in pool.ring && HubQuiet(hub)
    }

    /** The buffer's contents, which change only when a round is over. */
    ghost function Held(): seq<Message>
      reads buffer
    {
      if buffer.Valid() then Contents(buffer.Value()) else []
    }

    /** The bus together with its first pod, the hub's. */
    constructor ()
      ensures Valid() && fresh(pool) && fresh(buffer)
      ensures pool.ring == [hub] && fresh(hub)
      ensures buffer.Value() == Empty(Systems.BUFFER_SIZE)
    {
      var p := new ConnectionPool();
      var h := p.Insert();
      pool, hub := p, h;
      buffer := new MsgBuffer(Systems.BUFFER_SIZE);
      assert FailedOf([]) == [];
      assert h in p.ring;
    }

    /** A pod's report lands in its feedback channel; the hub's pod never reports a failure or a disconnect. */
    method Reported(c: PodConnection, f: Feedback)
      requires Valid() && c in pool.ring
      modifies c`feedbackChan
      ensures Valid()
    {
      if c.ID != Systems.HUB || f.Success? || f.Replay? {
        FailedOfAppend(c.feedbackChan, f);
        c.feedbackChan := c.feedbackChan + [f];
      }
    }

    method AddPod() returns (c: PodConnection)
      requires Valid()
      modifies pool, {pool.ring[0]}`next
      ensures Valid() && fresh(c) && c.log == []
      ensures pool.ring == Inserted(old(pool.ring), c)
    {
      ghost var ring := pool.ring;
      c := pool.Insert();
      InsertedHas(ring, c, hub);
    }

    method Occur(event: Event) returns (ghost joined: seq<PodConnection>)
      requires Valid()
      modifies pool, {pool.ring[0]}`next, (set c | c in pool.ring)`feedbackChan
      ensures Valid()
      ensures pool.ring == [old(pool.ring)[0]] + joined + old(pool.ring)[1..]
      ensures |joined| == if event.Connect? then 1 else 0
      ensures forall c :: c in joined ==> fresh(c) && c.log == []
    {
      match event
      case Connect =>
        var c := AddPod();
        joined := [c];
        assert [old(pool.ring)[0], c] == [old(pool.ring)[0]] + [c];
      case Report(ahead, f) =>
        var c := pool.Ahead(ahead);
        Reported(c, f);
        joined := [];
        assert pool.ring == [pool.ring[0]] + [] + pool.ring[1..];
    }

    /** One more event after those that let `joined` into the ring. */
    method OccurNext(event: Event, ghost ring: seq<PodConnection>, ghost joined: seq<PodConnection>)
      returns (ghost all: seq<PodConnection>)
      requires Valid() && ring != [] && pool.ring == [ring[0]] + joined + ring[1..]
      requires forall c :: c in joined ==> c.log == []
      modifies pool, {pool.ring[0]}`next, (set c | c in pool.ring)`feedbackChan
      ensures Valid()
      ensures pool.ring == [ring[0]] + all + ring[1..]
      ensures |all| == |joined| + if event.Connect? then 1 else 0
      ensures forall c :: c in all ==> (fresh(c) || c in joined) && c.log == []
    {
      ghost var before := pool.ring;
      ghost var latest := Occur(event);
      JoinedAgain(ring, joined, before, latest);
      all := latest + joined;
    }

    /** What other goroutines do between two bus steps. New connections go right after the current one. */
    method Interfere(events: seq<Event>) returns (ghost joined: seq<PodConnection>)
      requires Valid()
      modifies pool, {pool.ring[0]}`next, (set c | c in pool.ring)`feedbackChan
      ensures Valid()
      ensures pool.ring == [old(pool.ring)[0]] + joined + old(pool.ring)[1..]
      ensures |joined| == Connects(events)
      ensures forall c :: c in joined ==> fresh(c) && c.log == []
    {
      joined := [];
      assert events[..0] == [];
      for i := 0 to |events|
        invariant Valid() && |joined| == Connects(events[..i])
        invariant pool.ring == [old(pool.ring)[0]] + joined + old(pool.ring)[1..]
        invariant forall c :: c in joined ==> fresh(c) && c.log == []
      {
        assert events[..i + 1][..i] == events[..i];
        joined := OccurNext(events[i], old(pool.ring), joined);
      }
      assert events[..|events|] == events;
    }

    /** `prepareNext` on a ring with the hub: the hub stays. */
    method PrepareNext() returns (removed: bool)
      requires Valid()
      modifies pool, {pool.ring[0]}`next, {Second(pool.ring)}
      ensures Valid()
      ensures removed ==> |old(pool.ring)| >= 2 && Second(old(pool.ring)).next == Third(old(pool.ring))
      ensures removed ==> Second(old(pool.ring)) != hub
      ensures pool.ring == if removed then WithoutSecond(old(pool.ring)) else old(pool.ring)
      ensures var c := Second(old(pool.ring));
        c.log == LogPrepared(old(c.log), old(c.failed), old(c.feedbackChan), Contents(buffer.Value()))
      ensures var c := Second(old(pool.ring));
        c.feedbackChan == [] && removed == Decide(StatusOf(old(c.failed), old(c.feedbackChan))).Remove?
    {
      ghost var ring, next := pool.ring, Second(pool.ring);
      assert next in ring;
      if next == hub {
        QuietSettles(next.failed, next.feedbackChan);
      }
      removed := pool.PrepareNext(buffer);
      if removed {
        WithoutSecondKeeps(ring);
      }
    }

    /** The same, seen by whoever counts. */
    method PrepareAlone(ghost held: seq<Message>) returns (removed: bool)
      requires Valid() && held == Held()
      modifies pool, {pool.ring[0]}`next, {Second(pool.ring)}
      ensures Valid() && forall c :: c in pool.ring ==> c in old(pool.ring)
      ensures removed ==> |old(pool.ring)| >= 2 && Second(old(pool.ring)).next == Third(old(pool.ring))
      ensures pool.ring == if removed then WithoutSecond(old(pool.ring)) else old(pool.ring)
      ensures |pool.ring| + (if removed then 1 else 0) == |old(pool.ring)|
      ensures forall c :: c in old(pool.ring) ==> Noted(c.log, held) == old(Noted(c.log, held))
      ensures var c := Second(old(pool.ring));
        c.feedbackChan == [] && removed == Decide(StatusOf(old(c.failed), old(c.feedbackChan))).Remove?
    {
      ghost var ring, next := pool.ring, Second(pool.ring);
      assert next in ring;
      AnsweredNotes(next.log, Decide(StatusOf(next.failed, next.feedbackChan)), next.failed + FailedOf(next.feedbackChan),
                    held);
      removed := PrepareNext();
      if removed {
        WithoutSecondKeeps(ring);
      }
    }

    /** `next` on a ring with the hub. */
    method Next() returns (conn: PodConnection)
      requires Valid()
      modifies pool`current, pool`ring
      ensures Valid() && pool.ring == Rotated(old(pool.ring)) && conn == pool.ring[0]
    {
      RotatedKeeps(pool.ring);
      conn := pool.Next();
    }

    /** Peeks at the next connection, prepares it and steps on. If it was removed and was the one the walk
        ends at, the walk ends at the one after it instead. */
    method PrepareAndStep(startID: nat, ghost held: seq<Message>) returns (conn: PodConnection, stopID: nat, removed: bool)
      requires Valid() && held == Held()
      modifies pool, {pool.ring[0]}`next, {Second(pool.ring)}
      ensures Valid() && conn == pool.ring[0]
      ensures removed ==> |old(pool.ring)| >= 2
      ensures pool.ring == Rotated(if removed then WithoutSecond(old(pool.ring)) else old(pool.ring))
      ensures stopID == if removed && Second(old(pool.ring)).ID == startID then Third(old(pool.ring)).ID else startID
      ensures forall c :: c in old(pool.ring) ==> Noted(c.log, held) == old(Noted(c.log, held))
      ensures var c := Second(old(pool.ring));
        c.feedbackChan == [] && removed == Decide(StatusOf(old(c.failed), old(c.feedbackChan))).Remove?
    {
      stopID := startID;
      var next := pool.Peek();
      removed := PrepareAlone(held);
      if removed {
        if startID == next.ID {
          stopID := next.next.ID;
        }
      }
      conn := Next();
    }

    /** One iteration of a walk: the current connection is sent the message, nobody else is. */
    method Visit(conn: PodConnection, msg: Message, startID: nat, ghost held: seq<Message>)
      returns (next: PodConnection, stopID: nat, removed: bool)
      requires Valid() && held == Held() && conn == pool.ring[0]
      modifies pool, {conn}`next, {conn}`log, {Second(pool.ring)}
      ensures Valid() && next == pool.ring[0]
      ensures removed ==> |old(pool.ring)| >= 2
      ensures pool.ring == Rotated(if removed then WithoutSecond(old(pool.ring)) else old(pool.ring))
      ensures stopID == if removed && Second(old(pool.ring)).ID == startID then Third(old(pool.ring)).ID else startID
      ensures forall c :: c in old(pool.ring) ==> Noted(c.log, held) == old(Noted(c.log, held)) + if c == conn then [Sent(msg, Walk)] else []
      ensures conn != Second(old(pool.ring)) ==> conn.log == old(conn.log) + [Sent(msg, Walk)]
    {
      SendCurrent(conn, msg, held);
      next, stopID, removed := PrepareAndStep(startID, held);
    }

    method SendCurrent(conn: PodConnection, msg: Message, ghost held: seq<Message>)
      requires Valid() && conn == pool.ring[0]
      modifies {conn}`log
      ensures Valid() && conn.log == old(conn.log) + [Sent(msg, Walk)]
      ensures forall c :: c in pool.ring ==> Noted(c.log, held) == old(Noted(c.log, held)) + if c == conn then [Sent(msg, Walk)] else []
    {
      conn.Send(msg, Walk);
    }

    /** What happens before the k-th send of a walk. */
    method Before(script: seq<seq<Event>>, k: nat) returns (ghost joined: seq<PodConnection>)
      requires Valid()
      modifies pool, {pool.ring[0]}`next, (set c | c in pool.ring)`feedbackChan
      ensures Valid()
      ensures pool.ring == [old(pool.ring)[0]] + joined + old(pool.ring)[1..]
      ensures ConnectsLeft(script, k) == |joined| + ConnectsLeft(script, k + 1)
      ensures forall c :: c in joined ==> fresh(c) && c.log == []
    {
      joined := [];
      if k < |script| {
        joined := Interfere(script[k]);
      } else {
        assert pool.ring == [pool.ring[0]] + [] + pool.ring[1..];
      }
    }

    /** What happens before the k-th send, for the walk: more connections are due. */
    method BeforeVisit(script: seq<seq<Event>>, k: nat,
                       ghost visited: seq<PodConnection>, ghost start: PodConnection, ghost due: nat)
      returns (ghost joined: seq<PodConnection>)
      requires Valid() && Underway(pool.ring, visited, start, due)
      modifies pool, {pool.ring[0]}`next, (set c | c in pool.ring)`feedbackChan
      ensures Valid() && pool.ring[0] == old(pool.ring)[0]
      ensures Underway(pool.ring, visited, start, due + |joined|)
      ensures forall c :: c in pool.ring <==> c in old(pool.ring) || c in joined
      ensures ConnectsLeft(script, k) == |joined| + ConnectsLeft(script, k + 1)
      ensures forall c :: c in joined ==> fresh(c) && c.log == []
    {
      ghost var ring := pool.ring;
      joined := Before(script, k);
      JoinedIn(ring, joined);
      JoinUnderway(ring, joined, visited, start, due);
    }

    /** One visit, for the walk: it is over or is left with fewer visits. */
    method VisitOn(conn: PodConnection, msg: Message, startID: nat, ghost w: WalkState)
      returns (next: PodConnection, stopID: nat, ghost left: nat)
      requires Valid() && conn == pool.ring[0] && startID == w.start.ID && w.held == Held()
      requires Underway(pool.ring, w.visited, w.start, w.due)
      modifies pool, pool.ring
      ensures Valid() && next == pool.ring[0] && left < w.due
      ensures if next.ID == stopID then Complete(pool.ring, w.visited + [conn], w.start)
              else stopID == w.start.ID && Underway(pool.ring, w.visited + [conn], w.start, left)
      ensures forall c :: c in pool.ring ==> c in old(pool.ring)
      ensures forall c :: c in old(pool.ring) ==> Noted(c.log, w.held) == old(Noted(c.log, w.held)) + if c == conn then [Sent(msg, Walk)] else []
    {
      ghost var ring := pool.ring;
      assert Second(ring) in ring;
      var removed;
      next, stopID, removed := Visit(conn, msg, startID, w.held);
      left := StepUnderway(ring, removed, w.visited, w.start, w.due);
    }

    /** The same with the tally kept. */
    method CountedVisit(conn: PodConnection, msg: Message, startID: nat, ghost w: WalkState)
      returns (next: PodConnection, stopID: nat, ghost left: nat)
      requires Valid() && conn == pool.ring[0] && startID == w.start.ID && msg == w.msg
      requires Underway(pool.ring, w.visited, w.start, w.due) && Tally(w) && w.held == Held()
      requires conn in pool.ring && conn !in w.visited
      modifies pool, pool.ring
      ensures Valid() && next == pool.ring[0] && left < w.due
      ensures if next.ID == stopID then Complete(pool.ring, w.visited + [conn], w.start)
              else stopID == w.start.ID && Underway(pool.ring, w.visited + [conn], w.start, left)
      ensures forall c :: c in pool.ring ==> c in old(pool.ring)
      ensures Tally(w.(visited := w.visited + [conn]))
    {
      ghost var ring := pool.ring;
      next, stopID, left := VisitOn(conn, msg, startID, w);
      forall i | 0 <= i < |w.roster|
        ensures Noted(w.roster[i].log, w.held) == w.was[i] + if w.roster[i] in w.visited + [conn] then [Sent(msg, Walk)] else []
      {
        var c := w.roster[i];
        assert c in w.visited + [conn] <==> c in w.visited || c == conn;
        assert c in ring ==> Noted(c.log, w.held) == old(Noted(c.log, w.held)) + if c == conn then [Sent(msg, Walk)] else [];
        assert c !in ring ==> Noted(c.log, w.held) == old(Noted(c.log, w.held));
      }
    }

    /** What happens before the k-th send, with the tally kept. */
    method CountedBefore(script: seq<seq<Event>>, k: nat, ghost w: WalkState)
      returns (ghost v: WalkState, ghost joined: seq<PodConnection>)
      requires Valid() && Underway(pool.ring, w.visited, w.start, w.due) && Tally(w) && w.held == Held()
      modifies pool, {pool.ring[0]}`next, (set c | c in pool.ring)`feedbackChan
      ensures Valid() && pool.ring[0] == old(pool.ring)[0] && pool.ring[0] in pool.ring && pool.ring[0] !in w.visited
      ensures v == w.Joined(joined) && Tally(v) && Underway(pool.ring, v.visited, v.start, v.due)
      ensures forall c :: c in pool.ring ==> c in old(pool.ring) || c in joined
      ensures v.due + ConnectsLeft(script, k + 1) == w.due + ConnectsLeft(script, k)
      ensures forall c :: c in joined ==> fresh(c)
    {
      joined := BeforeVisit(script, k, w.visited, w.start, w.due);
      v := w.Joined(joined);
      JoinTallies(w, joined);
    }

    /** The loop body of a walk: what happens before the k-th send, then the send and the step. */
    method Turn(conn: PodConnection, msg: Message, startID: nat, script: seq<seq<Event>>, k: nat, ghost w: WalkState)
      returns (next: PodConnection, stopID: nat, ghost v: WalkState, ghost joined: seq<PodConnection>)
      requires Valid() && conn == pool.ring[0] && startID == w.start.ID && msg == w.msg
      requires Underway(pool.ring, w.visited, w.start, w.due) && Tally(w) && w.held == Held()
      modifies pool, Members(pool.ring)
      ensures Valid() && next == pool.ring[0] && Tally(v)
      ensures v == w.Joined(joined).(visited := w.visited + [conn], due := v.due)
      ensures if next.ID == stopID then Complete(pool.ring, v.visited, v.start)
              else stopID == v.start.ID && Underway(pool.ring, v.visited, v.start, v.due)
      ensures v.due + ConnectsLeft(script, k + 1) < w.due + ConnectsLeft(script, k)
      ensures Members(pool.ring) <= old(Members(pool.ring)) + Members(joined)
      ensures fresh(Members(joined))
    {
      v, joined := CountedBefore(script, k, w);
      ghost var left;
      next, stopID, left := CountedVisit(conn, msg, startID, v);
      v := v.(visited := v.visited + [conn]);
      v := v.(due := left);
    }

    /** The loop body, for a walk that began as `base`. */
    method TurnFrom(conn: PodConnection, msg: Message, startID: nat, script: seq<seq<Event>>, k: nat,
                    ghost base: WalkState, ghost w: WalkState)
      returns (next: PodConnection, stopID: nat, ghost v: WalkState)
      requires Valid() && conn == pool.ring[0] && startID == base.start.ID && msg == base.msg
      requires Going(base, w, pool.ring) && base.held == Held()
      modifies pool, Members(pool.ring)
      ensures Valid() && next == pool.ring[0] && Kept(base, v, pool.ring)
      ensures if next.ID == stopID then Complete(pool.ring, v.visited, base.start)
              else stopID == base.start.ID && Going(base, v, pool.ring)
      ensures v.due + ConnectsLeft(script, k + 1) < w.due + ConnectsLeft(script, k)
      ensures forall c :: c in v.Newcomers(|base.roster|) ==> c in w.Newcomers(|base.roster|) || fresh(c)
    {
      ghost var joined;
      next, stopID, v, joined := Turn(conn, msg, startID, script, k, w);
      StaysFrom(base, w, v, joined);
    }

    /** Walks the message once round the ring from `start`, while `script[k]` happens before the k-th send.
        Everyone in the ring at the end was visited, and of those visited only the start may have left it. The
        roster is the ring as it was followed by the newcomers; by the tally, those of it visited, and only
        those, have been sent the message by a walk once more than before. */
    method Traverse(msg: Message, start: PodConnection, script: seq<seq<Event>>, ghost base: WalkState)
      returns (ghost w: WalkState)
      requires Valid() && start == pool.ring[0]
      requires base.msg == msg && base.start == start && base.visited == [] && base.roster == pool.ring
      requires Going(base, base, pool.ring) && base.held == Held()
      modifies pool, Members(pool.ring)
      ensures Valid() && Complete(pool.ring, w.visited, start) && Kept(base, w, pool.ring)
      ensures forall c :: c in w.Newcomers(|base.roster|) ==> fresh(c)
    {
      var startID := start.ID;
      var conn := start;
      var k := 0;
      w := base;
      while true
        invariant Valid() && conn == pool.ring[0] && startID == start.ID
        invariant Going(base, w, pool.ring)
        invariant forall c :: c in w.Newcomers(|base.roster|) ==> fresh(c)
        decreases ConnectsLeft(script, k) + w.due
      {
        conn, startID, w := TurnFrom(conn, msg, startID, script, k, base, w);
        k := k + 1;
        if startID == conn.ID {
          break;
        }
      }
    }

    /** Prepares the next connection until one stays, while `waits[k]` happens before round k. Every failed round
        removes one connection, so the rounds end. */
    method Ready(waits: seq<seq<Event>>, ghost held: seq<Message>) returns (failedRounds: nat)
      requires Valid() && held == Held()
      modifies pool, Members(pool.ring)
      ensures Valid() && forall c :: c in pool.ring && c !in old(pool.ring) ==> fresh(c)
      ensures |pool.ring| + failedRounds + ConnectsLeft(waits, failedRounds + 1) == |old(pool.ring)| + ConnectsLeft(waits, 0)
      ensures forall c :: c in old(pool.ring) ==> Noted(c.log, held) == old(Noted(c.log, held))
      ensures forall c :: c in pool.ring && c !in old(pool.ring) ==> Noted(c.log, held) == []
      ensures Second(pool.ring).feedbackChan == []
    {
      failedRounds := 0;
      while true
        invariant Valid() && held == Held() && forall c :: c in pool.ring && c !in old(pool.ring) ==> fresh(c)
        invariant |pool.ring| + failedRounds + ConnectsLeft(waits, failedRounds) == |old(pool.ring)| + ConnectsLeft(waits, 0)
        invariant forall c :: c in old(pool.ring) ==> Noted(c.log, held) == old(Noted(c.log, held))
        invariant forall c :: c in pool.ring && c !in old(pool.ring) ==> Noted(c.log, held) == []
        decreases |pool.ring| + ConnectsLeft(waits, failedRounds)
      {
        var removed := Round(waits, failedRounds, held);
        if !removed {
          break;
        }
        failedRounds := failedRounds + 1;
      }
    }

    /** One round: what happens before it, then the next connection is prepared. */
    method Round(waits: seq<seq<Event>>, k: nat, ghost held: seq<Message>) returns (removed: bool)
      requires Valid() && held == Held()
      modifies pool, Members(pool.ring)
      ensures Valid() && forall c :: c in pool.ring && c !in old(pool.ring) ==> fresh(c)
      ensures |pool.ring| + (if removed then 1 else 0) + ConnectsLeft(waits, k + 1) == |old(pool.ring)| + ConnectsLeft(waits, k)
      ensures forall c :: c in old(pool.ring) ==> Noted(c.log, held) == old(Noted(c.log, held))
      ensures forall c :: c in pool.ring && c !in old(pool.ring) ==> Noted(c.log, held) == []
      ensures !removed ==> Second(pool.ring).feedbackChan == []
    {
      Await(waits, k, held);
      removed := PrepareAlone(held);
    }

    /** What happens before round k. */
    method Await(waits: seq<seq<Event>>, k: nat, ghost held: seq<Message>)
      requires Valid()
      modifies pool, Members(pool.ring)
      ensures Valid() && forall c :: c in pool.ring && c !in old(pool.ring) ==> fresh(c) && Noted(c.log, held) == []
      ensures forall c :: c in old(pool.ring) ==> c in pool.ring
      ensures |pool.ring| + ConnectsLeft(waits, k + 1) == |old(pool.ring)| + ConnectsLeft(waits, k)
      ensures forall c :: c in old(pool.ring) ==> Noted(c.log, held) == old(Noted(c.log, held))
    {
      ghost var ring := pool.ring;
      ghost var joined := Before(waits, k);
      JoinedIn(ring, joined);
    }

    /** Steps onto the first receiver, with everyone in the ring enrolled for a walk from there. */
    method Begin(msg: Message, ghost was: map<PodConnection, seq<Sent>>)
      returns (startingConn: PodConnection, ghost base: WalkState)
      requires Valid() && Second(pool.ring).feedbackChan == [] && was == NotedSoFar(pool.ring, Held())
      modifies pool`current, pool`ring
      ensures Valid() && startingConn in old(pool.ring) && startingConn == pool.ring[0]
      ensures startingConn == Second(old(pool.ring))
      ensures base.msg == msg && base.start == startingConn && base.visited == [] && base.roster == pool.ring
      ensures Going(base, base, pool.ring) && Opens(base, was) && base.held == Held()
    {
      base := Enrol(msg, pool.ring, was, Held());
      startingConn := Next();
    }

    /** Walks the message round from the next connection on, which has just been drained. */
    method WalkRound(msg: Message, script: seq<seq<Event>>, ghost was: map<PodConnection, seq<Sent>>)
      returns (startingConn: PodConnection)
      requires Valid() && Second(pool.ring).feedbackChan == [] && was == NotedSoFar(pool.ring, Held())
      modifies pool, Members(pool.ring)
      ensures Valid() && startingConn in was && startingConn == Second(old(pool.ring))
      ensures forall c :: c in pool.ring && c !in was ==> fresh(c)
      ensures Rounded(was, pool.ring, msg, startingConn, Held())
    {
      ghost var base;
      startingConn, base := Begin(msg, was);
      ghost var w := Traverse(msg, startingConn, script, base);
      assert forall c :: c in w.Newcomers(|base.roster|) ==> c !in was;
      WalkRounds(was, base, w, pool.ring);
    }

    /** One round of the bus loop: a message is taken to everyone, then buffered for later replays. Everyone in the
        ring afterwards has been walked this message once more than before; of those who left, at most the first
        receiver has. */
    method Emit(msg: Message, waits: seq<seq<Event>>, script: seq<seq<Event>>) returns (startingConn: PodConnection)
      requires Valid() && msg.Message?
      modifies pool, Members(pool.ring), buffer
      ensures Valid() && buffer.Value() == Pushed(old(buffer.Value()), msg)
      ensures Rounded(old(NotedSoFar(pool.ring, Held())), pool.ring, msg, startingConn, old(Held()))
    {
      startingConn := ReadyAndWalk(msg, waits, script);
      PushBuffer(msg);
    }

    /** A round of the bus loop but for the buffer. */
    method ReadyAndWalk(msg: Message, waits: seq<seq<Event>>, script: seq<seq<Event>>) returns (startingConn: PodConnection)
      requires Valid()
      modifies pool, Members(pool.ring)
      ensures Valid() && Rounded(old(NotedSoFar(pool.ring, Held())), pool.ring, msg, startingConn, old(Held()))
    {
      ghost var was := NotedSoFar(pool.ring, Held());
      var _ := Ready(waits, Held());
      ghost var ready := NotedSoFar(pool.ring, Held());
      startingConn := WalkRound(msg, script, ready);
      StillRounded(was, ready, pool.ring, msg, startingConn, Held());
    }

    method PushBuffer(msg: Message)
      requires Valid() && msg.Message?
      modifies buffer
      ensures Valid() && buffer.Value() == Pushed(old(buffer.Value()), msg)
    {
      buffer.Push(msg);
    }
  }

  /** The tally is kept, and whoever is in the ring was at the start of the walk or came in since. */
  ghost predicate Kept(base: WalkState, w: WalkState, ring: seq<PodConnection>)
    reads w.roster
  {
    && w.From(base) && Tally(w)
    && Members(ring) <= Members(base.roster) + w.Newcomers(|base.roster|)
  }

  ghost predicate Going(base: WalkState, w: WalkState, ring: seq<PodConnection>)
    reads w.roster
  {
    Kept(base, w, ring) && Underway(ring, w.visited, w.start, w.due)
  }

  /** What walks have sent to each connection. */
  ghost function NotedSoFar(ring: seq<PodConnection>, held: seq<Message>): map<PodConnection, seq<Sent>>
    reads ring
  {
    map c | c in ring :: Noted(c.log, held)
  }

  ghost predicate Opens(base: WalkState, was: map<PodConnection, seq<Sent>>) {
    && |base.was| == |base.roster|
    && was.Keys == Members(base.roster)
    && forall i :: 0 <= i < |base.roster| ==> base.was[i] == was[base.roster[i]]
  }

  /** The message has been walked once more to everyone in the ring, and to nobody else but perhaps the start. */
  ghost predicate Rounded(was: map<PodConnection, seq<Sent>>, ring: seq<PodConnection>, msg: Message, start: PodConnection,
                          held: seq<Message>)
    reads ring, was.Keys
  {
    && (forall c :: c in ring ==> Noted(c.log, held) == (if c in was then was[c] else []) + [Sent(msg, Walk)])
    && (forall c :: c in was && c !in ring ==> Noted(c.log, held) == was[c] + if c == start then [Sent(msg, Walk)] else [])
  }

  /** Some left and some came before the walk, which changed nothing about what had been walked. */
  lemma StillRounded(was: map<PodConnection, seq<Sent>>, ready: map<PodConnection, seq<Sent>>,
                     ring: seq<PodConnection>, msg: Message, start: PodConnection, held: seq<Message>)
    requires Rounded(ready, ring, msg, start, held) && start in ready
    requires forall c :: c in ready ==> ready[c] == if c in was then was[c] else []
    requires forall c :: c in was && c !in ready ==> Noted(c.log, held) == was[c] && c !in ring
    ensures Rounded(was, ring, msg, start, held)
  {
  }

  lemma WalkRounds(was: map<PodConnection, seq<Sent>>, base: WalkState, w: WalkState, ring: seq<PodConnection>)
    requires Complete(ring, w.visited, base.start) && Kept(base, w, ring)
    requires Opens(base, was)
    requires forall c :: c in w.Newcomers(|base.roster|) ==> c !in was
    ensures Rounded(was, ring, base.msg, base.start, base.held)
    ensures forall c :: c in ring && c !in was ==> c in w.Newcomers(|base.roster|)
  {
  }

  lemma StaysFrom(base: WalkState, w: WalkState, v: WalkState, joined: seq<PodConnection>)
    requires w.From(base) && v == w.Joined(joined).(visited := v.visited, due := v.due)
    ensures v.From(base) && v.Newcomers(|base.roster|) == w.Newcomers(|base.roster|) + Members(joined)
  {
    var n := |base.roster|;
    assert v.roster[n..] == w.roster[n..] + joined;
    forall i | n <= i < |v.was| ensures v.was[i] == [] {
    }
  }

  /** Nobody has walked anything to `n` newcomers. */
  function Blank(n: nat): seq<seq<Sent>> {
    seq(n, _ => [])
  }

  lemma EnrolledUnderway(ring: seq<PodConnection>)
    requires DistinctIDs(ring) && ring != []
    ensures Underway(ring, [], ring[0], |ring|)
  {
  }

  ghost function Enrolled(msg: Message, start: PodConnection, ring: seq<PodConnection>, held: seq<Message>): WalkState
    reads ring
  {
    WalkState(msg, start, [], |ring|, ring,
              seq(|ring|, i requires 0 <= i < |ring| reads ring => Noted(ring[i].log, held)), held)
  }

  /** Everyone in the ring is enrolled for a walk from the second connection on. */
  lemma Enrol(msg: Message, ring: seq<PodConnection>, was: map<PodConnection, seq<Sent>>, held: seq<Message>)
    returns (base: WalkState)
    requires DistinctIDs(ring) && ring != [] && was == NotedSoFar(ring, held)
    ensures base.msg == msg && base.start == Second(ring) && base.held == held && base.visited == [] && base.roster == Rotated(ring)
    ensures Going(base, base, Rotated(ring)) && Opens(base, was) && base.start in ring
  {
    RotatedKeeps(ring);
    EnrolledUnderway(Rotated(ring));
    base := Enrolled(msg, Second(ring), Rotated(ring), held);
  }

  lemma JoinTallies(w: WalkState, joined: seq<PodConnection>)
    requires Tally(w) && forall c :: c in joined ==> c !in w.visited && c.log == []
    ensures Tally(w.Joined(joined))
  {
  }

  lemma InsertedHas(ring: seq<PodConnection>, c: PodConnection, h: PodConnection)
    requires h in ring
    ensures h in Inserted(ring, c)
  {
    assert h == ring[0] || h in ring[1..];
  }
}
