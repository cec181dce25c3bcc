/** What pods report to the bus, and what the bus decides from a drained batch of reports. */
module Feedback {
  import opened Messages

  datatype Feedback = Success | Replay | Disconnect | Failed(msg: Message)

  const HIGH_WATER_MARK := 64

  /** The failed messages of a batch, in order. */
  function FailedOf(batch: seq<Feedback>): seq<Message> {
    if batch == [] then []
    else
      var last := batch[|batch| - 1];
      FailedOf(batch[..|batch| - 1]) + if last.Failed? then [last.msg] else []
  }

  lemma {:induction false} FailedOfConcat(a: seq<Feedback>, b: seq<Feedback>)
    ensures FailedOf(a + b) == FailedOf(a) + FailedOf(b)
  {
    if b == [] {
      assert a + b == a;
    } else {
      var k := |b| - 1;
      FailedOfConcat(a, b[..k]);
      assert (a + b)[..|a + b| - 1] == a + b[..k];
    }
  }

  lemma FailedOfAppend(a: seq<Feedback>, f: Feedback)
    ensures FailedOf(a + [f]) == FailedOf(a) + if f.Failed? then [f.msg] else []
  {
  }

  /** A batch has a failed message exactly when one of its reports is one. */
  lemma {:induction false} FailedOfNonEmpty(batch: seq<Feedback>)
    ensures FailedOf(batch) != [] <==> exists i :: 0 <= i < |batch| && batch[i].Failed?
  {
    if batch != [] {
      var k := |batch| - 1;
      FailedOfNonEmpty(batch[..k]);
      if i :| 0 <= i < |batch| && batch[i].Failed? {
        assert i < k ==> batch[..k][i].Failed?;
      }
    }
  }

  /** How many replay requests a batch holds. */
  function Requests(batch: seq<Feedback>): nat {
    if batch == [] then 0
    else Requests(batch[..|batch| - 1]) + if batch[|batch| - 1] == Replay then 1 else 0
  }

  lemma {:induction false} RequestsPositive(batch: seq<Feedback>)
    ensures Requests(batch) > 0 <==> Replay in batch
  {
    if batch != [] {
      var k := |batch| - 1;
      RequestsPositive(batch[..k]);
      assert batch == batch[..k] + [batch[k]];
    }
  }

  datatype Fault = NoFault | FailedMessage | FailedMessageMax

  datatype Status = Status(hadSuccess: bool, wantsReplay: bool, wantsDisconnect: bool, error: Fault)

  /** The status of a connection that held `failed` and has just drained `batch`. */
  function StatusOf(failed: seq<Message>, batch: seq<Feedback>): Status {
    Status(Success in batch, Replay in batch, Disconnect in batch,
           if |failed| + |FailedOf(batch)| >= HIGH_WATER_MARK then FailedMessageMax
           else if FailedOf(batch) != [] then FailedMessage
           else NoFault)
  }

  /** What the pool does with a connection it has just checked. */
  datatype Verdict = Remove | Keep(replay: bool, flush: bool)

  function Decide(st: Status): Verdict {
    if st.error != NoFault then
      if st.error == FailedMessageMax then Remove else Keep(false, st.hadSuccess)
    else if st.wantsDisconnect then Remove
    else Keep(st.wantsReplay, st.hadSuccess)
  }

  /** The removal rule in terms of the batch: too many failures, or a disconnect with no failure beside it. */
  lemma RemovalRule(failed: seq<Message>, batch: seq<Feedback>)
    ensures Decide(StatusOf(failed, batch)).Remove? <==>
      || |failed| + |FailedOf(batch)| >= 64
      || (Disconnect in batch && forall f :: f in batch ==> !f.Failed?)
  {
    FailedOfNonEmpty(batch);
    if i :| 0 <= i < |batch| && batch[i].Failed? {
      assert batch[i] in batch;
    }
  }

  /** A kept connection replays exactly when it asked to and reported neither a failure nor a disconnect. */
  lemma ReplayRule(failed: seq<Message>, batch: seq<Feedback>)
    requires |failed| < HIGH_WATER_MARK
    ensures Decide(StatusOf(failed, batch)) == Keep(true, Success in batch) <==>
      Replay in batch && Disconnect !in batch && forall f :: f in batch ==> !f.Failed?
  {
    FailedOfNonEmpty(batch);
    if i :| 0 <= i < |batch| && batch[i].Failed? {
      assert batch[i] in batch;
    }
  }
}
