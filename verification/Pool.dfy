/** The ring of pod connections as linked objects, and the pool's operations on it. */
module Pools {
  import opened Messages
  import opened Sequences
  import opened Rings
  import opened Feedback
  import opened Connections
  import opened MsgBuffers

  /** A node of the ring. `feedbackChan` is what the pod has reported and the bus has not drained;
      `log` are the calls of `Send` in order, each of which starts a goroutine. */
  class PodConnection {
    const ID: nat
    var next: PodConnection?
    var open: bool
    var feedbackChan: seq<Feedback>
    var failed: seq<Message>
    var connected: bool
    var log: seq<Sent>

    constructor (id: nat)
      ensures ID == id && next == null && connected && open
      ensures feedbackChan == [] && failed == [] && log == []
    {
      ID := id;
      next := null;
      connected, open := true, true;
      feedbackChan, failed, log := [], [], [];
    }

    method Send(msg: Message, origin: Origin)
      modifies this`log
      ensures log == old(log) + [Sent(msg, origin)]
    {
      log := log + [Sent(msg, origin)];
    }

    /** Drains the feedback channel: the failed messages are queued, the rest sets the status. */
    method CheckStatus() returns (status: Status)
      modifies this`feedbackChan, this`failed
      ensures feedbackChan == []
      ensures failed == old(failed) + FailedOf(old(feedbackChan))
      ensures status == StatusOf(old(failed), old(feedbackChan))
    {
      status := Status(false, false, false, NoFault);
      ghost var drained: seq<Feedback> := [];
      assert FailedOf([]) == [];
      while feedbackChan != []
        invariant drained + feedbackChan == old(feedbackChan)
        invariant failed == old(failed) + FailedOf(drained)
        invariant status.hadSuccess == (Success in drained)
        invariant status.wantsReplay == (Replay in drained)
        invariant status.wantsDisconnect == (Disconnect in drained)
        invariant status.error == if FailedOf(drained) != [] then FailedMessage else NoFault
        decreases |feedbackChan|
      {
        var feedbackMsg := feedbackChan[0];
        feedbackChan := feedbackChan[1..];
        FailedOfAppend(drained, feedbackMsg);
        drained := drained + [feedbackMsg];
        match feedbackMsg
        case Success => status := status.(hadSuccess := true);
        case Replay => status := status.(wantsReplay := true);
        case Disconnect => status := status.(wantsDisconnect := true);
        case Failed(msg) =>
          failed := failed + [msg];
          status := status.(error := FailedMessage);
      }
      assert drained == old(feedbackChan);
      if |failed| >= HIGH_WATER_MARK {
        status := status.(error := FailedMessageMax);
      }
    }

    /** Closing a channel twice would panic. */
    method DisconnectPod()
      requires open
      modifies this`connected, this`open
      ensures !connected && !open
    {
      connected := false;
      open := false;
    }

    /** Sends every failed message once more, in order, and forgets them. */
    method FlushFailed()
      modifies this`log, this`failed
      ensures log == old(log) + Tagged(old(failed), Flushed)
      ensures failed == []
    {
      for i := 0 to |failed|
        invariant failed == old(failed)
        invariant log == old(log) + Tagged(old(failed)[..i], Flushed)
      {
        var failedMsg := failed[i];
        Send(failedMsg, Flushed);
        assert failed[..i + 1] == failed[..i] + [failedMsg];
        TaggedLast(old(log), failed[..i + 1], Flushed);
      }
      assert old(failed)[..|failed|] == old(failed);
      if |failed| > 0 {
        failed := [];
      }
    }

    method InsertAfter(conn: PodConnection)
      requires conn != this
      modifies this`next, conn`next
      ensures next == conn
      ensures conn.next == if old(next) == null then this else old(next)
    {
      var after := this;
      if next != null {
        after := next;
      }
      next := conn;
      conn.next := after;
    }
  }

  /** Everything sent to a connection that held `failed` once its batch has been drained and answered. */
  function LogPrepared(log: seq<Sent>, failed: seq<Message>, batch: seq<Feedback>, window: seq<Message>): seq<Sent> {
    Answered(log, Decide(StatusOf(failed, batch)), failed + FailedOf(batch), window)
  }

  /** From position `from` on, every connection's next pointer leads to the next position of the cycle. */
  ghost predicate LinkedFrom(ring: seq<PodConnection>, from: nat)
    reads (set c | c in ring)`next
  {
    forall i {:trigger ring[i].next} :: from <= i < |ring| ==> ring[i].next == ring[NextPos(i, |ring|)]
  }

  lemma LinksRotate(ring: seq<PodConnection>)
    requires LinkedFrom(ring, 0) && DistinctIDs(ring) && ring != []
    ensures LinkedFrom(Rotated(ring), 0) && DistinctIDs(Rotated(ring))
  {
  }

  lemma LinksSkip(ring: seq<PodConnection>)
    requires |ring| >= 2 && LinkedFrom(ring, 1) && ring[0].next == Third(ring) && DistinctIDs(ring)
    ensures LinkedFrom(WithoutSecond(ring), 0) && DistinctIDs(WithoutSecond(ring))
  {
  }

  lemma LinksInsert(ring: seq<PodConnection>, conn: PodConnection)
    requires ring != [] && LinkedFrom(ring, 1) && ring[0].next == conn && conn.next == Second(ring)
    requires DistinctIDs(ring) && conn.ID > 0 && Live(ring, conn.ID - 1) && conn.connected && conn.open
    ensures LinkedFrom(Inserted(ring, conn), 0) && DistinctIDs(Inserted(ring, conn)) && Live(Inserted(ring, conn), conn.ID)
  {
    var q := Inserted(ring, conn);
    assert q[1] == conn;
    forall i | 0 <= i < |q| && i != 1 ensures q[i] == ring[if i == 0 then 0 else i - 1] {
    }
  }

  ghost predicate DistinctIDs(ring: seq<PodConnection>) {
    forall i, j :: 0 <= i < j < |ring| ==> ring[i].ID != ring[j].ID
  }

  /** Everyone in the ring is connected, and their IDs were handed out. */
  ghost predicate Live(ring: seq<PodConnection>, maxID: nat)
    reads (set c | c in ring)`connected, (set c | c in ring)`open
  {
    forall i :: 0 <= i < |ring| ==> 1 <= ring[i].ID <= maxID && ring[i].connected && ring[i].open
  }

  class ConnectionPool {
    var current: PodConnection?
    var maxID: nat
    ghost var ring: seq<PodConnection>

    /** Following `next` from `current` goes round `ring` and comes back; IDs are distinct and were handed out. */
    ghost predicate Valid()
      reads this, (set c | c in ring)`next, (set c | c in ring)`connected, (set c | c in ring)`open
    {
      && (ring == [] ==> current == null)
      && (ring != [] ==> current == ring[0])
      && DistinctIDs(ring)
      && Live(ring, maxID)
      && LinkedFrom(ring, 0)
    }

    constructor ()
      ensures Valid() && ring == [] && maxID == 0
    {
      current := null;
      maxID := 0;
      ring := [];
    }

    method Insert() returns (conn: PodConnection)
      requires Valid()
      modifies this, (if ring == [] then {} else {ring[0]})`next
      ensures Valid() && fresh(conn)
      ensures ring == Inserted(old(ring), conn)
      ensures maxID == old(maxID) + 1 && conn.ID == maxID
      ensures conn.feedbackChan == [] && conn.failed == [] && conn.log == []
    {
      maxID := maxID + 1;
      var id := maxID;
      conn := new PodConnection(id);
      if current == null {
        conn.next := conn;
        current := conn;
        ring := [conn];
      } else {
        InsertAfterCurrent(conn);
      }
    }

    method InsertAfterCurrent(conn: PodConnection)
      requires ring != [] && current == ring[0] && LinkedFrom(ring, 0) && DistinctIDs(ring)
      requires conn.ID > 0 && Live(ring, conn.ID - 1) && conn.connected && conn.open
      modifies this`ring, {ring[0]}`next, conn`next
      ensures ring == Inserted(old(ring), conn)
      ensures LinkedFrom(ring, 0) && DistinctIDs(ring) && Live(ring, conn.ID)
    {
      assert ring[0].next == Second(ring);
      current.InsertAfter(conn);
      LinksInsert(ring, conn);
      ring := Inserted(ring, conn);
    }

    method Peek() returns (conn: PodConnection)
      requires Valid() && ring != []
      ensures conn == Second(ring)
    {
      assert ring[0].next == Second(ring);
      conn := current.next;
    }

    method Next() returns (conn: PodConnection)
      requires Valid() && ring != []
      modifies this`current, this`ring
      ensures Valid() && ring == Rotated(old(ring)) && conn == ring[0]
    {
      assert ring[0].next == Second(ring);
      current := current.next;
      LinksRotate(ring);
      ring := Rotated(ring);
      conn := current;
    }

    /** The removed connection keeps its own next pointer. */
    method DeleteNext()
      requires Valid() && ring != []
      modifies this`current, this`ring, {ring[0]}`next, {Second(ring)}`connected, {Second(ring)}`open
      ensures Valid() && ring == WithoutSecond(old(ring))
      ensures var removed := Second(old(ring));
        && !removed.connected && !removed.open
        && (|old(ring)| > 1 ==> removed.next == Third(old(ring)))
    {
      assert ring[0].next == Second(ring) && Second(ring).next == Third(ring);
      var next := current.next;
      next.DisconnectPod();
      if next == current {
        current := null;
        ring := [];
      } else {
        CutOutNext();
      }
    }

    method CutOutNext()
      requires |ring| >= 2 && current == ring[0] && LinkedFrom(ring, 0) && DistinctIDs(ring)
      requires forall i :: 0 <= i < |ring| && i != 1 ==> 1 <= ring[i].ID <= maxID && ring[i].connected && ring[i].open
      modifies this`ring, {ring[0]}`next
      ensures ring == WithoutSecond(old(ring)) && LinkedFrom(ring, 0) && DistinctIDs(ring) && Live(ring, maxID)
    {
      assert ring[0].next == Second(ring) && Second(ring).next == Third(ring);
      current.next := current.next.next;
      LinksSkip(ring);
      ring := WithoutSecond(ring);
    }

    /** Iterates over the buffer and sends each message to the next connection. */
    method ReplayNext(buffer: MsgBuffer)
      requires Valid() && ring != [] && buffer.Valid()
      modifies {Second(ring)}`log
      ensures Valid()
      ensures Second(ring).log == old(Second(ring).log) + Tagged(Contents(buffer.Value()), Replayed)
    {
      var next := Peek();
      var visited := buffer.Iter();
      for i := 0 to |visited|
        invariant next.log == old(next.log) + Tagged(visited[..i], Replayed)
      {
        next.Send(visited[i], Replayed);
        assert visited[..i + 1] == visited[..i] + [visited[i]];
        TaggedLast(old(next.log), visited[..i + 1], Replayed);
      }
      assert visited[..|visited|] == visited;
    }

    /** The second half of `PrepareNext`: what is done with the next connection once its status is known. */
    method Settle(next: PodConnection, status: Status, buffer: MsgBuffer) returns (removed: bool)
      requires Valid() && ring != [] && buffer.Valid() && next == Second(ring)
      modifies this`current, this`ring, {ring[0]}`next, {next}`failed, {next}`log, {next}`connected, {next}`open
      ensures Valid() && removed == Decide(status).Remove?
      ensures ring == if removed then WithoutSecond(old(ring)) else old(ring)
      ensures next.failed == StillFailed(Decide(status), old(next.failed))
      ensures next.log == Answered(old(next.log), Decide(status), old(next.failed), Contents(buffer.Value()))
      ensures removed ==> !next.connected && !next.open && (|old(ring)| > 1 ==> next.next == Third(old(ring)))
    {
      if status.error != NoFault {
        if status.error == FailedMessageMax {
          DeleteNext();
          return true;
        }
      } else if status.wantsDisconnect {
        DeleteNext();
        return true;
      } else if status.wantsReplay {
        ReplayNext(buffer);
      }
      if status.hadSuccess {
        next.FlushFailed();
      }
      return false;
    }

    /** Checks the next connection and, by the drained batch alone, removes it, replays to it or flushes it. */
    method PrepareNext(buffer: MsgBuffer) returns (removed: bool)
      requires Valid() && ring != [] && buffer.Valid()
      modifies this`current, this`ring, {ring[0]}`next, {Second(ring)}
      ensures Valid()
      ensures ring == if removed then WithoutSecond(old(ring)) else old(ring)
      ensures var c := Second(old(ring)); var verdict := Decide(StatusOf(old(c.failed), old(c.feedbackChan)));
        && removed == verdict.Remove?
        && c.feedbackChan == []
        && c.failed == StillFailed(verdict, old(c.failed) + FailedOf(old(c.feedbackChan)))
        && c.log == LogPrepared(old(c.log), old(c.failed), old(c.feedbackChan), Contents(buffer.Value()))
        && (removed ==> !c.connected && !c.open && (|old(ring)| > 1 ==> c.next == Third(old(ring))))
    {
      var next := Peek();
      var status := next.CheckStatus();
      removed := Settle(next, status, buffer);
    }

    /** The connection `k` steps after the current one. */
    method Ahead(k: nat) returns (conn: PodConnection)
      requires Valid() && ring != []
      ensures conn == ring[After(0, |ring|, k)]
    {
      conn := current;
      ghost var pos: nat := 0;
      var i := 0;
      while i < k
        invariant 0 <= i <= k && pos < |ring| && conn == ring[pos]
        invariant After(pos, |ring|, k - i) == After(0, |ring|, k)
      {
        assert ring[pos].next == ring[NextPos(pos, |ring|)];
        conn := conn.next;
        pos := NextPos(pos, |ring|);
        i := i + 1;
      }
    }
  }
}
