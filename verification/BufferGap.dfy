/** When a slot of the replay buffer has no message: the exact effect of UUIDs that come back. */
module BufferGaps {
  import opened Messages
  import opened Sequences
  import opened MsgBuffers

  ghost predicate AllMessages(ms: seq<Message>) {
    forall i :: 0 <= i < |ms| ==> ms[i].Message?
  }

  function UUIDs(ms: seq<Message>): seq<string>
    requires forall i :: 0 <= i < |ms| ==> ms[i].Message?
  {
    seq(|ms|, i requires 0 <= i < |ms| => ms[i].uuid)
  }

  /** The listed UUIDs, oldest first. */
  function Listed(b: Buffer): seq<string>
    requires Shape(b)
  {
    seq(|b.order|, i requires 0 <= i < |b.order| => b.order[Around(b.startIndex, i, |b.order|)])
  }

  lemma ListedSlides(b: Buffer, m: Message)
    requires Shape(b) && m.Message?
    ensures Listed(Pushed(b, m)) == LastN(Listed(b) + [m.uuid], b.limit)
  {
    var r, n := Pushed(b, m), |b.order|;
    forall i | 0 <= i < |r.order| ensures Listed(r)[i] == LastN(Listed(b) + [m.uuid], b.limit)[i] {
      if n == b.limit && i < n - 1 {
        assert Around(r.startIndex, i, n) == Around(b.startIndex, i + 1, n);
      }
    }
  }

  lemma WindowStep(ms: seq<Message>, limit: nat)
    requires 1 <= limit && AllMessages(ms) && ms != []
    ensures var k := |ms| - 1;
      LastN(UUIDs(ms), limit) == LastN(LastN(UUIDs(ms[..k]), limit) + [ms[k].uuid], limit)
  {
    assert UUIDs(ms)[..|ms| - 1] == UUIDs(ms[..|ms| - 1]);
    WindowGrows(UUIDs(ms), limit);
  }

  /** Whatever comes back, the list is first in, first out. */
  lemma {:induction false} ListedIsWindow(ms: seq<Message>, limit: nat)
    requires 1 <= limit && AllMessages(ms)
    ensures Listed(PushAll(ms, limit)) == LastN(UUIDs(ms), limit)
  {
    if ms != [] {
      var k := |ms| - 1;
      ListedIsWindow(ms[..k], limit);
      ListedSlides(PushAll(ms[..k], limit), ms[k]);
      WindowStep(ms, limit);
    }
  }

  lemma OldestIsListed(b: Buffer)
    requires Shape(b)
    ensures |Listed(b)| == |b.order| && (b.order != [] ==> Listed(b)[0] == b.order[b.startIndex])
  {
  }

  /** Which UUID the next push evicts, if any. */
  lemma Oldest(ms: seq<Message>, limit: nat)
    requires 1 <= limit && AllMessages(ms)
    ensures var b := PushAll(ms, limit);
      if |ms| < limit then |b.order| == |ms|
      else |b.order| == limit && b.order[b.startIndex] == ms[|ms| - limit].uuid
  {
    ListedIsWindow(ms, limit);
    OldestIsListed(PushAll(ms, limit));
  }

  /** Push number `t` is of this UUID and came after every eviction of it: push number `i` is evicted by push
      number `i + limit`. */
  ghost predicate KeptBy(ms: seq<Message>, limit: nat, uuid: string, t: nat)
    requires AllMessages(ms)
  {
    t < |ms| && ms[t].uuid == uuid && forall i :: 0 <= i && i + limit < |ms| && ms[i].uuid == uuid ==> i + limit < t
  }

  ghost predicate Kept(ms: seq<Message>, limit: nat, uuid: string)
    requires AllMessages(ms)
  {
    exists t :: KeptBy(ms, limit, uuid, t)
  }

  /** One push: it keeps its own UUID, and takes away the one it evicts. */
  lemma KeptGrows(ms: seq<Message>, limit: nat, uuid: string)
    requires 1 <= limit && AllMessages(ms) && ms != []
    ensures var k := |ms| - 1;
      Kept(ms, limit, uuid) <==>
        && (Kept(ms[..k], limit, uuid) || ms[k].uuid == uuid)
        && !(k >= limit && ms[k - limit].uuid == uuid)
  {
    var k, p := |ms| - 1, ms[..|ms| - 1];
    if t: nat :| KeptBy(ms, limit, uuid, t) {
      assert k >= limit ==> ms[k - limit].uuid != uuid;
      assert t < k ==> KeptBy(p, limit, uuid, t);
    }
    if (Kept(p, limit, uuid) || ms[k].uuid == uuid) && !(k >= limit && ms[k - limit].uuid == uuid) {
      if ms[k].uuid == uuid {
        assert KeptBy(ms, limit, uuid, k);
      } else {
        var t: nat :| KeptBy(p, limit, uuid, t);
        assert KeptBy(ms, limit, uuid, t);
      }
    }
  }

  /** The map holds a UUID if and only if it was pushed after its last eviction. */
  lemma {:induction false} HeldIff(ms: seq<Message>, limit: nat, uuid: string)
    requires 1 <= limit && AllMessages(ms)
    ensures uuid in PushAll(ms, limit).msgs <==> Kept(ms, limit, uuid)
  {
    if ms != [] {
      var k := |ms| - 1;
      HeldIff(ms[..k], limit, uuid);
      KeptGrows(ms, limit, uuid);
      Oldest(ms[..k], limit);
    }
  }

  /** Under each UUID the map holds a message with that UUID. */
  lemma {:induction false} HeldAreMessages(ms: seq<Message>, limit: nat, uuid: string)
    requires 1 <= limit && AllMessages(ms) && uuid in PushAll(ms, limit).msgs
    ensures var m := PushAll(ms, limit).msgs[uuid]; m.Message? && m.uuid == uuid
  {
    if ms != [] && uuid != ms[|ms| - 1].uuid {
      HeldAreMessages(ms[..|ms| - 1], limit, uuid);
    }
  }

  /** Push number `i` was evicted, push number `j` of the same UUID is still listed, and the UUID was not pushed
      again after that eviction. */
  ghost predicate Gap(ms: seq<Message>, limit: nat, i: nat, j: nat)
    requires AllMessages(ms)
  {
    && i + limit < |ms| && j < |ms| <= j + limit && ms[i].uuid == ms[j].uuid
    && forall t :: i + limit < t < |ms| ==> ms[t].uuid != ms[i].uuid
  }

  ghost predicate HasGap(ms: seq<Message>, limit: nat)
    requires AllMessages(ms)
  {
    exists i, j :: Gap(ms, limit, i, j)
  }

  /** The number of the last push of the same UUID. */
  lemma {:induction false} LastPush(ms: seq<Message>, j: nat) returns (t: nat)
    requires AllMessages(ms) && j < |ms|
    ensures t < |ms| && ms[t].uuid == ms[j].uuid && forall i :: t < i < |ms| ==> ms[i].uuid != ms[j].uuid
    decreases |ms| - j
  {
    if i :| j < i < |ms| && ms[i].uuid == ms[j].uuid {
      t := LastPush(ms, i);
    } else {
      t := j;
    }
  }

  /** A listed UUID is not held if and only if an eviction of it came last. */
  lemma NotKeptIff(ms: seq<Message>, limit: nat, j: nat)
    requires 1 <= limit && AllMessages(ms) && j < |ms| <= j + limit
    ensures !Kept(ms, limit, ms[j].uuid) <==> exists i :: Gap(ms, limit, i, j)
  {
    var u := ms[j].uuid;
    if !Kept(ms, limit, u) {
      var t := LastPush(ms, j);
      assert !KeptBy(ms, limit, u, t);
      var i :| 0 <= i && i + limit < |ms| && ms[i].uuid == u && i + limit >= t;
      assert Gap(ms, limit, i, j);
    }
    if i: nat :| Gap(ms, limit, i, j) {
      if t: nat :| KeptBy(ms, limit, u, t) {
        assert false;
      }
    }
  }

  /** A slot has no message if and only if a UUID that is still listed was evicted since its last push. */
  lemma MissingIff(ms: seq<Message>, limit: nat)
    requires 1 <= limit && AllMessages(ms)
    ensures Nil in Contents(PushAll(ms, limit)) <==> HasGap(ms, limit)
  {
    var b := PushAll(ms, limit);
    ListedIsWindow(ms, limit);
    forall j | 0 <= j < |ms| && |ms| <= j + limit
      ensures Contents(b)[SlotOf(ms, limit, j)] == Nil <==> exists i :: Gap(ms, limit, i, j)
    {
      SlotIsMissing(ms, limit, j);
    }
    if Nil in Contents(b) {
      var x :| 0 <= x < |Contents(b)| && Contents(b)[x] == Nil;
      var j := if |ms| <= limit then x else x + |ms| - limit;
      assert SlotOf(ms, limit, j) == x;
      var i: nat :| Gap(ms, limit, i, j);
    }
    if HasGap(ms, limit) {
      var i: nat, j: nat :| Gap(ms, limit, i, j);
      assert Contents(b)[SlotOf(ms, limit, j)] == Nil;
    }
  }

  /** Where push number `j` is in the contents. */
  function SlotOf(ms: seq<Message>, limit: nat, j: nat): (x: nat)
    requires 1 <= limit && AllMessages(ms) && j < |ms| <= j + limit
    ensures x < |PushAll(ms, limit).order|
  {
    ListedIsWindow(ms, limit);
    if |ms| <= limit then j else j - (|ms| - limit)
  }

  lemma ContentsAreListed(b: Buffer, x: nat)
    requires Shape(b) && x < |b.order|
    ensures Contents(b)[x] == Lookup(b, Listed(b)[x])
  {
  }

  lemma SlotIsOf(ms: seq<Message>, limit: nat, j: nat)
    requires 1 <= limit && AllMessages(ms) && j < |ms| <= j + limit
    ensures Contents(PushAll(ms, limit))[SlotOf(ms, limit, j)] == Lookup(PushAll(ms, limit), ms[j].uuid)
  {
    ListedIsWindow(ms, limit);
    ContentsAreListed(PushAll(ms, limit), SlotOf(ms, limit, j));
  }

  lemma SlotIsMissing(ms: seq<Message>, limit: nat, j: nat)
    requires 1 <= limit && AllMessages(ms) && j < |ms| <= j + limit
    ensures Contents(PushAll(ms, limit))[SlotOf(ms, limit, j)] == Nil <==> exists i :: Gap(ms, limit, i, j)
  {
    var u := ms[j].uuid;
    SlotIsOf(ms, limit, j);
    HeldIff(ms, limit, u);
    NotKeptIff(ms, limit, j);
    if u in PushAll(ms, limit).msgs {
      HeldAreMessages(ms, limit, u);
    }
  }

  /** A UUID pushed twice in a row leaves a slot with no message exactly while its first push has been evicted and its
      second has not: after `limit` - 1 other pushes, so after 127 with the bus's buffer. */
  lemma RepeatLeavesAGapIff(m: Message, others: seq<Message>, limit: nat)
    requires 1 <= limit && m.Message? && Spaced(others, limit)
    requires forall i :: 0 <= i < |others| ==> others[i].uuid != m.uuid
    ensures AllMessages([m, m] + others)
    ensures Nil in Contents(PushAll([m, m] + others, limit)) <==> |others| == limit - 1
  {
    var ms := [m, m] + others;
    forall i | 2 <= i < |ms| ensures ms[i] == others[i - 2] {
    }
    MissingIff(ms, limit);
    if HasGap(ms, limit) {
      var i: nat, j: nat :| Gap(ms, limit, i, j);
      assert j <= i + limit && i < 2;
    }
    if |others| == limit - 1 {
      assert Gap(ms, limit, 0, 1);
    }
  }
}
