/** The bus's replay buffer: a wrapping list of UUIDs and a map from UUID to message. */
module MsgBuffers {
  import opened Messages
  import opened Sequences

  /** The fields of a buffer, as a value. */
  datatype Buffer = Buffer(
    msgs: map<string, Message>,
    order: seq<string>,
    limit: nat,
    startIndex: nat,
    nextIndex: nat)

  function Empty(limit: nat): Buffer {
    Buffer(map[], [], limit, 0, 0)
  }

  /** What every push sequence keeps, whatever the UUIDs: the indices stay in range. */
  predicate Shape(b: Buffer) {
    && 1 <= b.limit
    && |b.order| <= b.limit
    && (|b.order| < b.limit ==> b.startIndex == 0)
    && (b.order != [] ==> b.startIndex < |b.order| && b.nextIndex < |b.order|)
    && (b.order == [] ==> b.nextIndex == 0)
  }

  /** A map lookup as the program does it: a missing key yields nil. */
  function Lookup(b: Buffer, uuid: string): Message {
    if uuid in b.msgs then b.msgs[uuid] else Nil
  }

  /** The buffered messages, oldest first. */
  function Contents(b: Buffer): seq<Message>
    requires Shape(b)
  {
    seq(|b.order|, i requires 0 <= i < |b.order| => Lookup(b, b.order[Around(b.startIndex, i, |b.order|)]))
  }

  /** The map holds exactly the listed UUIDs, each once and under its own key. */
  predicate Intact(b: Buffer) {
    && NoDup(b.order)
    && b.msgs.Keys == (set u | u in b.order)
    && forall u :: u in b.msgs ==> b.msgs[u].Message? && b.msgs[u].uuid == u
  }

  function Pushed(b: Buffer, m: Message): (r: Buffer)
    requires Shape(b) && m.Message?
    ensures Shape(r) && r.limit == b.limit
  {
    var msgs := b.msgs[m.uuid := m];
    if |b.order| == b.limit then
      var evicted := b.order[b.startIndex];
      b.(msgs := msgs - {evicted},
         order := b.order[b.startIndex := m.uuid],
         startIndex := if b.startIndex == |b.order| - 1 then 0 else b.startIndex + 1)
    else
      b.(msgs := msgs, order := b.order + [m.uuid])
  }

  /** A new buffer of size `limit` after the given pushes. */
  function PushAll(ms: seq<Message>, limit: nat): (r: Buffer)
    requires 1 <= limit
    requires forall i :: 0 <= i < |ms| ==> ms[i].Message?
    ensures Shape(r) && r.limit == limit
  {
    if ms == [] then Empty(limit) else Pushed(PushAll(ms[..|ms| - 1], limit), ms[|ms| - 1])
  }

  /** No UUID comes back within `n` pushes of its last use. */
  ghost predicate Spaced(ms: seq<Message>, n: nat) {
    && (forall i :: 0 <= i < |ms| ==> ms[i].Message?)
    && (forall i, j :: 0 <= i < j < |ms| && j - i <= n ==> ms[i].uuid != ms[j].uuid)
  }

  lemma SpacedPrefix(ms: seq<Message>, k: nat, n: nat)
    requires Spaced(ms, n) && k <= |ms|
    ensures Spaced(ms[..k], n)
  {
  }

  lemma GrowSlides(b: Buffer, m: Message)
    requires Shape(b) && Intact(b) && m.Message? && m.uuid !in b.order && |b.order| < b.limit
    ensures Intact(Pushed(b, m))
    ensures Contents(Pushed(b, m)) == Contents(b) + [m]
  {
  }

  lemma EvictKeepsIntact(b: Buffer, m: Message)
    requires Shape(b) && Intact(b) && m.Message? && m.uuid !in b.order && |b.order| == b.limit
    ensures Intact(Pushed(b, m))
  {
    var r := Pushed(b, m);
    var s := b.startIndex;
    assert r.order[s] == m.uuid;
    forall u | u in r.msgs ensures u in r.order {
      if u != m.uuid {
        var i :| 0 <= i < |b.order| && b.order[i] == u;
        assert r.order[i] == u;
      }
    }
    forall u | u in r.order ensures u in r.msgs {
      var i :| 0 <= i < |r.order| && r.order[i] == u;
      assert i != s ==> b.order[i] == u && u in b.msgs && u != b.order[s];
    }
    assert r.msgs.Keys == (set u | u in r.order);
  }

  lemma EvictSlides(b: Buffer, m: Message)
    requires Shape(b) && Intact(b) && m.Message? && m.uuid !in b.order && |b.order| == b.limit
    ensures Contents(Pushed(b, m)) == Contents(b)[1..] + [m]
  {
  }

  /** One push slides the window by one, provided the UUID is not already listed. */
  lemma PushSlides(b: Buffer, m: Message)
    requires Shape(b) && Intact(b) && m.Message? && m.uuid !in b.order
    ensures Intact(Pushed(b, m))
    ensures Contents(Pushed(b, m)) == LastN(Contents(b) + [m], b.limit)
  {
    if |b.order| < b.limit {
      GrowSlides(b, m);
    } else {
      EvictKeepsIntact(b, m);
      EvictSlides(b, m);
      assert LastN(Contents(b) + [m], b.limit) == (Contents(b) + [m])[1..] == Contents(b)[1..] + [m];
    }
  }

  /** A push keeps the buffer intact exactly when its UUID is not already listed. */
  lemma PushKeepsIntactIff(b: Buffer, m: Message)
    requires Shape(b) && Intact(b) && m.Message?
    ensures Intact(Pushed(b, m)) <==> m.uuid !in b.order
  {
    if m.uuid !in b.order {
      PushSlides(b, m);
    } else {
      var r := Pushed(b, m);
      var i := IndexOf(b.order, m.uuid);
      if |b.order| < b.limit {
        assert r.order[i] == r.order[|b.order|];
      } else if i == b.startIndex {
        assert r.order[i] == m.uuid && m.uuid !in r.msgs;
      } else {
        assert r.order[i] == r.order[b.startIndex];
      }
    }
  }

  /** Where in the buffered sequence a listed position shows up. */
  lemma BufferedAt(b: Buffer, p: nat) returns (i: nat)
    requires Shape(b) && Intact(b) && p < |b.order|
    ensures i < |Contents(b)| && Contents(b)[i].Message? && Contents(b)[i].uuid == b.order[p]
  {
    i := if p >= b.startIndex then p - b.startIndex else p + |b.order| - b.startIndex;
    assert Around(b.startIndex, i, |b.order|) == p;
    assert b.order[p] in b.msgs;
  }

  lemma WindowGrows<T>(ms: seq<T>, limit: nat)
    requires ms != [] && 1 <= limit
    ensures LastN(ms, limit) == LastN(LastN(ms[..|ms| - 1], limit) + [ms[|ms| - 1]], limit)
  {
  }

  lemma NotListed(b: Buffer, ms: seq<Message>, limit: nat)
    requires ms != [] && Spaced(ms, limit) && Shape(b) && Intact(b)
    requires Contents(b) == LastN(ms[..|ms| - 1], limit)
    ensures ms[|ms| - 1].uuid !in b.order
  {
    var k := |ms| - 1;
    forall p | 0 <= p < |b.order| ensures b.order[p] != ms[k].uuid {
      var i := BufferedAt(b, p);
      assert Contents(b)[i] == ms[if k <= limit then i else k - limit + i];
    }
  }

  /** The buffer is a sliding window: after any pushes in which no UUID repeats within `limit` + 1
      consecutive pushes it holds exactly the last `limit` of them, oldest first. */
  lemma {:induction false} SlidingWindow(ms: seq<Message>, limit: nat)
    requires 1 <= limit && Spaced(ms, limit)
    ensures Intact(PushAll(ms, limit))
    ensures Contents(PushAll(ms, limit)) == LastN(ms, limit)
    ensures |PushAll(ms, limit).order| <= limit
  {
    if ms == [] {
      assert Contents(Empty(limit)) == [];
    } else {
      var k := |ms| - 1;
      var b := PushAll(ms[..k], limit);
      SpacedPrefix(ms, k, limit);
      SlidingWindow(ms[..k], limit);
      NotListed(b, ms, limit);
      PushSlides(b, ms[k]);
      WindowGrows(ms, limit);
    }
  }

  /** A message still in the window is listed. */
  lemma WindowIsListed(b: Buffer, ms: seq<Message>, i: nat)
    requires Shape(b) && Intact(b) && Contents(b) == LastN(ms, b.limit)
    requires i < |ms| && |ms| - i <= b.limit
    ensures ms[i].Message? && ms[i].uuid in b.order
  {
  }

  /** The buffer is intact after every push. */
  ghost predicate IntactThroughout(ms: seq<Message>, limit: nat)
    requires 1 <= limit && forall i :: 0 <= i < |ms| ==> ms[i].Message?
  {
    forall k :: 0 <= k <= |ms| ==> Intact(PushAll(ms[..k], limit))
  }

  lemma IntactBefore(ms: seq<Message>, limit: nat)
    requires ms != [] && 1 <= limit && forall i :: 0 <= i < |ms| ==> ms[i].Message?
    requires IntactThroughout(ms, limit)
    ensures IntactThroughout(ms[..|ms| - 1], limit)
    ensures Intact(PushAll(ms[..|ms| - 1], limit)) && Intact(PushAll(ms, limit))
  {
    var p := ms[..|ms| - 1];
    forall j | 0 <= j <= |p| ensures Intact(PushAll(p[..j], limit)) {
      assert p[..j] == ms[..j];
    }
    assert ms[..|ms|] == ms;
  }

  lemma SpacedIsIntact(ms: seq<Message>, limit: nat)
    requires 1 <= limit && Spaced(ms, limit)
    ensures IntactThroughout(ms, limit)
  {
    forall k | 0 <= k <= |ms| ensures Intact(PushAll(ms[..k], limit)) {
      SpacedPrefix(ms, k, limit);
      SlidingWindow(ms[..k], limit);
    }
  }

  lemma {:induction false} IntactIsSpaced(ms: seq<Message>, limit: nat)
    requires 1 <= limit && forall i :: 0 <= i < |ms| ==> ms[i].Message?
    requires IntactThroughout(ms, limit)
    ensures Spaced(ms, limit)
  {
    if ms != [] {
      var k := |ms| - 1;
      IntactBefore(ms, limit);
      IntactIsSpaced(ms[..k], limit);
      PushKeepsIntactIff(PushAll(ms[..k], limit), ms[k]);
      LastIsSpaced(ms, limit);
    }
  }

  /** The buffer stays intact through a sequence of pushes if and only if no UUID repeats within `limit` + 1
      consecutive ones. */
  lemma IntactThroughoutIff(ms: seq<Message>, limit: nat)
    requires 1 <= limit && forall i :: 0 <= i < |ms| ==> ms[i].Message?
    ensures IntactThroughout(ms, limit) <==> Spaced(ms, limit)
  {
    if Spaced(ms, limit) {
      SpacedIsIntact(ms, limit);
    }
    if IntactThroughout(ms, limit) {
      IntactIsSpaced(ms, limit);
    }
  }

  lemma LastIsSpaced(ms: seq<Message>, limit: nat)
    requires ms != [] && 1 <= limit && Spaced(ms[..|ms| - 1], limit) && ms[|ms| - 1].Message?
    requires ms[|ms| - 1].uuid !in PushAll(ms[..|ms| - 1], limit).order
    ensures Spaced(ms, limit)
  {
    var k := |ms| - 1;
    SlidingWindow(ms[..k], limit);
    forall i | 0 <= i < k && k - i <= limit ensures ms[i].Message? && ms[i].uuid != ms[k].uuid {
      WindowIsListed(PushAll(ms[..k], limit), ms[..k], i);
    }
    SpacedByLast(ms, limit);
  }

  lemma SpacedByLast(ms: seq<Message>, n: nat)
    requires ms != [] && Spaced(ms[..|ms| - 1], n) && ms[|ms| - 1].Message?
    requires forall i :: 0 <= i < |ms| - 1 && |ms| - 1 - i <= n ==> ms[i].Message? && ms[i].uuid != ms[|ms| - 1].uuid
    ensures Spaced(ms, n)
  {
  }

  /** Nothing that a window yields is missing. */
  lemma WindowHasNoNil(ms: seq<Message>, limit: nat)
    requires 1 <= limit && Spaced(ms, limit)
    ensures Nil !in Contents(PushAll(ms, limit))
  {
    SlidingWindow(ms, limit);
  }

  /** `Next` on an empty buffer changes nothing. */
  function AfterNext(b: Buffer): (r: Buffer)
    requires Shape(b)
    ensures Shape(r)
  {
    if b.order == [] then b else b.(nextIndex := NextPos(b.nextIndex, |b.order|))
  }

  /** What `k` consecutive calls of `Next` return, each on the buffer the one before it left. */
  function Reads(b: Buffer, k: nat): seq<Message>
    requires Shape(b) && b.order != []
    decreases k
  {
    if k == 0 then [] else [Lookup(b, b.order[b.nextIndex])] + Reads(AfterNext(b), k - 1)
  }

  lemma {:induction false} ReadsAt(b: Buffer, k: nat, i: nat)
    requires Shape(b) && b.order != [] && i < k
    ensures |Reads(b, k)| == k && Reads(b, k)[i] == Lookup(b, b.order[After(b.nextIndex, |b.order|, i)])
    decreases k
  {
    if i > 0 {
      ReadsAt(AfterNext(b), k - 1, i - 1);
    } else if k > 1 {
      ReadsAt(AfterNext(b), k - 1, 0);
    }
  }

  /** The messages in slot order. */
  function Slots(b: Buffer): seq<Message> {
    seq(|b.order|, i requires 0 <= i < |b.order| => Lookup(b, b.order[i]))
  }

  lemma ReadsAtSlot(b: Buffer, i: nat)
    requires Shape(b) && b.order != [] && i < |b.order|
    ensures |Reads(b, |b.order|)| == |b.order|
    ensures Reads(b, |b.order|)[i] == Slots(b)[Around(b.nextIndex, i, |b.order|)]
  {
    ReadsAt(b, |b.order|, i);
    AfterIsAround(b.nextIndex, |b.order|, i);
  }

  /** One turn of reads goes through the slots in order from the read index on. */
  lemma ReadsInSlotOrder(b: Buffer)
    requires Shape(b) && b.order != []
    ensures Reads(b, |b.order|) == Slots(b)[b.nextIndex..] + Slots(b)[..b.nextIndex]
  {
    var n, r, s := |b.order|, Reads(b, |b.order|), Slots(b);
    ReadsAtSlot(b, 0);
    forall i | 0 <= i < n ensures r[i] == (s[b.nextIndex..] + s[..b.nextIndex])[i] {
      ReadsAtSlot(b, i);
    }
  }

  lemma ContentsInSlotOrder(b: Buffer)
    requires Shape(b) && b.order != []
    ensures Contents(b) == Slots(b)[b.startIndex..] + Slots(b)[..b.startIndex]
  {
  }

  /** Between pushes, as many calls of `Next` as there are messages return every buffered message exactly once. */
  lemma NextReadsEachOnce(b: Buffer)
    requires Shape(b) && b.order != []
    ensures multiset(Reads(b, |b.order|)) == multiset(Contents(b))
  {
    var s := Slots(b);
    ReadsInSlotOrder(b);
    ContentsInSlotOrder(b);
    TurnedBag(s, b.nextIndex);
    TurnedBag(s, b.startIndex);
  }

  /** A push leaves the reader where it is: the next read returns what it would have returned before, unless the push
      went into that very slot of a full buffer. */
  lemma PushKeepsReader(b: Buffer, m: Message)
    requires Shape(b) && Intact(b) && b.order != [] && m.Message? && m.uuid !in b.order
    ensures Pushed(b, m).order != []
    ensures Reads(Pushed(b, m), 1) ==
      if |b.order| == b.limit && b.startIndex == b.nextIndex then [m] else Reads(b, 1)
  {
    var r := Pushed(b, m);
    assert b.order[b.nextIndex] in b.order;
    assert Reads(r, 1) == [Lookup(r, r.order[r.nextIndex])] + Reads(AfterNext(r), 0);
    assert Reads(b, 1) == [Lookup(b, b.order[b.nextIndex])] + Reads(AfterNext(b), 0);
  }

  // ---- any mix of pushes and reads ----

  datatype Call = PushCall(msg: Message) | NextCall

  function AfterCalls(calls: seq<Call>, limit: nat): (r: Buffer)
    requires 1 <= limit && forall i :: 0 <= i < |calls| ==> calls[i].PushCall? ==> calls[i].msg.Message?
    ensures Shape(r) && r.limit == limit
  {
    if calls == [] then Empty(limit)
    else
      var b := AfterCalls(calls[..|calls| - 1], limit);
      match calls[|calls| - 1]
      case PushCall(m) => Pushed(b, m)
      case NextCall => AfterNext(b)
  }

  function PushesOf(calls: seq<Call>): seq<Message> {
    if calls == [] then []
    else
      var last := calls[|calls| - 1];
      PushesOf(calls[..|calls| - 1]) + if last.PushCall? then [last.msg] else []
  }

  /** Reads move the read index and nothing else. */
  lemma {:induction false} CallsArePushes(calls: seq<Call>, limit: nat)
    requires 1 <= limit && forall i :: 0 <= i < |calls| ==> calls[i].PushCall? ==> calls[i].msg.Message?
    ensures forall i :: 0 <= i < |PushesOf(calls)| ==> PushesOf(calls)[i].Message?
    ensures AfterCalls(calls, limit).(nextIndex := 0) == PushAll(PushesOf(calls), limit).(nextIndex := 0)
  {
    if calls != [] {
      var k := |calls| - 1;
      CallsArePushes(calls[..k], limit);
      if calls[k].PushCall? {
        var ms, m := PushesOf(calls[..k]), calls[k].msg;
        PushIgnoresReads(AfterCalls(calls[..k], limit), PushAll(ms, limit), m);
        assert (ms + [m])[..|ms|] == ms && (ms + [m])[|ms|] == m;
        assert PushAll(ms + [m], limit) == Pushed(PushAll(ms, limit), m);
      } else {
        assert PushesOf(calls) == PushesOf(calls[..k]);
      }
    }
  }

  lemma PushIgnoresReads(b: Buffer, c: Buffer, m: Message)
    requires Shape(b) && Shape(c) && m.Message? && b.(nextIndex := 0) == c.(nextIndex := 0)
    ensures Pushed(b, m).(nextIndex := 0) == Pushed(c, m).(nextIndex := 0)
  {
  }

  lemma NextIsBuffered(b: Buffer)
    requires Shape(b) && Intact(b) && b.order != []
    ensures Reads(b, 1)[0].Message? && Reads(b, 1)[0] in Contents(b)
  {
    var i := BufferedAt(b, b.nextIndex);
    var u := b.order[Around(b.startIndex, i, |b.order|)];
    assert Contents(b)[i] == Lookup(b, u) && u in b.order && u in b.msgs;
  }

  lemma ContentsIgnoreReads(b: Buffer, c: Buffer)
    requires Shape(b) && Shape(c) && b.(nextIndex := 0) == c.(nextIndex := 0)
    ensures Contents(b) == Contents(c) && (Intact(b) <==> Intact(c))
  {
  }

  /** Through any mix of pushes and reads in which no UUID repeats too soon, a read yields one of the last
      `limit` messages pushed, as soon as there is one. */
  lemma NextYieldsFromWindow(calls: seq<Call>, limit: nat)
    requires 1 <= limit && forall i :: 0 <= i < |calls| ==> calls[i].PushCall? ==> calls[i].msg.Message?
    requires Spaced(PushesOf(calls), limit)
    ensures var b := AfterCalls(calls, limit);
      && (b.order == [] <==> PushesOf(calls) == [])
      && (b.order != [] ==> Reads(b, 1)[0].Message? && Reads(b, 1)[0] in LastN(PushesOf(calls), limit))
  {
    var b, ms := AfterCalls(calls, limit), PushesOf(calls);
    CallsArePushes(calls, limit);
    SlidingWindow(ms, limit);
    ContentsIgnoreReads(b, PushAll(ms, limit));
    assert |Contents(b)| == |b.order| && Contents(b) == LastN(ms, limit);
    if b.order != [] {
      NextIsBuffered(b);
    }
  }

  class MsgBuffer {
    var msgs: map<string, Message>
    var order: seq<string>
    const limit: nat
    var startIndex: nat
    var nextIndex: nat

    function Value(): Buffer reads this {
      Buffer(msgs, order, limit, startIndex, nextIndex)
    }

    predicate Valid() reads this {
      Shape(Value())
    }

    constructor (limit: nat)
      requires 1 <= limit
      ensures Valid() && Value() == Empty(limit)
    {
      this.limit := limit;
      msgs, order, startIndex, nextIndex := map[], [], 0, 0;
    }

    method Push(msg: Message)
      requires Valid() && msg.Message?
      modifies this
      ensures Valid() && Value() == Pushed(old(Value()), msg)
    {
      msgs := msgs[msg.uuid := msg];
      var lastIndex := |order| - 1;
      if |order| == limit {
        msgs := msgs - {order[startIndex]};
        order := order[startIndex := msg.uuid];
        if startIndex == lastIndex {
          startIndex := 0;
        } else {
          startIndex := startIndex + 1;
        }
      } else {
        order := order + [msg.uuid];
      }
    }

    method Next() returns (msg: Message)
      requires Valid()
      modifies this`nextIndex
      ensures Valid()
      ensures order == [] ==> msg == Nil && nextIndex == old(nextIndex)
      ensures order != [] ==> Reads(old(Value()), 1) == [msg]
      ensures Value() == AfterNext(old(Value()))
    {
      if |order| == 0 {
        return Nil;
      }
      var uuid := order[nextIndex];
      msg := Lookup(Value(), uuid);
      if nextIndex == |order| - 1 {
        nextIndex := 0;
      } else {
        nextIndex := nextIndex + 1;
      }
    }

    /** Calls the visitor once per slot from the oldest; `visited` is the sequence of its arguments. */
    method Iter() returns (visited: seq<Message>)
      requires Valid()
      ensures visited == Contents(Value())
    {
      visited := [];
      if |order| == 0 {
        return;
      }
      var index := startIndex;
      var lastIndex := |order| - 1;
      var more := true;
      while more
        invariant 0 <= index < |order|
        invariant |visited| <= |order|
        invariant visited == Contents(Value())[..|visited|]
        invariant more ==> |visited| < |order| && index == Around(startIndex, |visited|, |order|)
        invariant !more ==> |visited| == |order|
        decreases |order| - |visited|, more
      {
        var uuid := order[index];
        var msg := Lookup(Value(), uuid);
        visited := visited + [msg];
        if index == lastIndex {
          index := 0;
        } else {
          index := index + 1;
        }
        if index == startIndex {
          more := false;
        }
      }
    }
  }
}
