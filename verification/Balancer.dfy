/** The round-robin list of UUIDs behind a capability. */
module Balancers {
  import opened Sequences

  datatype Rota = Rota(uuids: seq<string>, index: nat)

  const NO_ROTA := Rota([], 0)

  /** What every call keeps: with anything to choose from, the index is in range. */
  predicate InRange(b: Rota) {
    (b.uuids != [] ==> b.index < |b.uuids|) && (b.uuids == [] ==> b.index == 0)
  }

  /** `s` without any `x`. */
  function Without(s: seq<string>, x: string): seq<string> {
    if s == [] then []
    else
      var last := s[|s| - 1];
      Without(s[..|s| - 1], x) + if last == x then [] else [last]
  }

  function Added(b: Rota, uuid: string): Rota {
    b.(uuids := b.uuids + [uuid])
  }

  function Removed(b: Rota, uuid: string): Rota {
    var left := Without(b.uuids, uuid);
    Rota(left, if b.index >= |left| - 1 then |left| / 2 else b.index)
  }

  function Stepped(b: Rota): Rota
    requires InRange(b) && b.uuids != []
  {
    b.(index := NextPos(b.index, |b.uuids|))
  }

  /** Removing takes every occurrence of one UUID and no other. */
  lemma {:induction false} WithoutCounts(s: seq<string>, x: string, y: string)
    ensures multiset(Without(s, x))[y] == if y == x then 0 else multiset(s)[y]
  {
    if s != [] {
      var k := |s| - 1;
      WithoutCounts(s[..k], x, y);
      assert s == s[..k] + [s[k]];
    }
  }

  lemma {:induction false} WithoutKeepsOrder(s: seq<string>, t: seq<string>, x: string)
    ensures Without(s + t, x) == Without(s, x) + Without(t, x)
  {
    if t == [] {
      assert s + t == s;
    } else {
      var k := |t| - 1;
      WithoutKeepsOrder(s, t[..k], x);
      assert (s + t)[..|s + t| - 1] == s + t[..k];
    }
  }

  /** What can happen to a balancer. */
  datatype Op = Add(uuid: string) | Remove(uuid: string) | Next

  /** `Next` on an empty list is out of bounds. */
  predicate CanDo(b: Rota, op: Op) {
    op.Next? ==> b.uuids != []
  }

  function Do(b: Rota, op: Op): Rota
    requires InRange(b) && CanDo(b, op)
  {
    match op
    case Add(u) => Added(b, u)
    case Remove(u) => Removed(b, u)
    case Next => Stepped(b)
  }

  /** The states a run of calls goes through. */
  ghost predicate IsRun(states: seq<Rota>, ops: seq<Op>) {
    && |states| == |ops| + 1
    && states[0] == NO_ROTA
    && forall i :: 0 <= i < |ops| ==>
         InRange(states[i]) ==> CanDo(states[i], ops[i]) && states[i + 1] == Do(states[i], ops[i])
  }

  lemma {:induction false} AlwaysInRange(states: seq<Rota>, ops: seq<Op>, i: nat)
    requires IsRun(states, ops) && i < |states|
    ensures InRange(states[i])
  {
    if i > 0 {
      AlwaysInRange(states, ops, i - 1);
      assert states[i - 1 + 1] == Do(states[i - 1], ops[i - 1]);
    }
  }

  /** The positions that `m` consecutive calls of `Next` read. */
  function Picks(b: Rota, m: nat): seq<nat>
    requires InRange(b) && b.uuids != []
    decreases m
  {
    if m == 0 then [] else [b.index] + Picks(Stepped(b), m - 1)
  }

  lemma {:induction false} PicksAt(b: Rota, m: nat, j: nat)
    requires InRange(b) && b.uuids != [] && j < m
    ensures |Picks(b, m)| == m && Picks(b, m)[j] == After(b.index, |b.uuids|, j)
    decreases m
  {
    if j > 0 {
      PicksAt(Stepped(b), m - 1, j - 1);
    } else if m > 1 {
      PicksAt(Stepped(b), m - 1, 0);
    }
  }

  lemma {:induction false} PicksCount(b: Rota, m: nat, p: nat)
    requires InRange(b) && b.uuids != []
    ensures multiset(Picks(b, m))[p] == Visits(b.index, |b.uuids|, p, m)
    decreases m
  {
    if m > 0 {
      PicksCount(Stepped(b), m - 1, p);
    }
  }

  /** Fairness: from any state a run can reach, `k * n` calls on `n` entries read every position exactly `k`
      times, in cyclic order. */
  lemma NextIsFair(states: seq<Rota>, ops: seq<Op>, i: nat, k: nat, p: nat, j: nat)
    requires IsRun(states, ops) && i < |states| && p < |states[i].uuids| && j < k * |states[i].uuids|
    ensures InRange(states[i])
    ensures var picks := Picks(states[i], k * |states[i].uuids|);
      && multiset(picks)[p] == k
      && |picks| == k * |states[i].uuids|
      && picks[j] == After(states[i].index, |states[i].uuids|, j)
  {
    AlwaysInRange(states, ops, i);
    var b := states[i];
    PicksCount(b, k * |b.uuids|, p);
    FullTurns(b.index, |b.uuids|, p, k);
    PicksAt(b, k * |b.uuids|, j);
  }

  // ---- whose turn it is ----

  /** The entries that `m` consecutive calls of `Next` return. */
  function Turns(b: Rota, m: nat): seq<string>
    requires InRange(b) && b.uuids != []
    decreases m
  {
    if m == 0 then [] else [b.uuids[b.index]] + Turns(Stepped(b), m - 1)
  }

  /** Up to the end of the list the turns go straight on. */
  lemma {:induction false} TurnsStraight(b: Rota, m: nat)
    requires InRange(b) && b.uuids != [] && b.index + m <= |b.uuids|
    ensures Turns(b, m) == b.uuids[b.index..b.index + m]
    decreases m
  {
    if m > 1 {
      TurnsStraight(Stepped(b), m - 1);
    }
  }

  /** A UUID just added has its turn after everyone whose turn was still to come in this round, and they keep theirs. */
  lemma AddedComesLast(b: Rota, uuid: string)
    requires InRange(b)
    ensures InRange(Added(b, uuid)) && Added(b, uuid).uuids != []
    ensures Turns(Added(b, uuid), |b.uuids| - b.index + 1) == b.uuids[b.index..] + [uuid]
  {
    TurnsStraight(Added(b, uuid), |b.uuids| - b.index + 1);
  }

  /** Whose turn it is after a removal. The index stays where it is unless it is then at the end or beyond, so as many of
      the entries whose turn was to come are skipped as were removed from ahead of it; otherwise it is the middle one's
      turn. */
  lemma TurnAfterRemoval(b: Rota, uuid: string)
    requires InRange(b) && b.uuids != [] && Removed(b, uuid).uuids != []
    ensures InRange(Removed(b, uuid))
    ensures b.index + 1 < |Without(b.uuids, uuid)| ==>
      multiset(b.uuids[..b.index])[uuid] < |Without(b.uuids[b.index..], uuid)|
    ensures var left, skipped := Without(b.uuids, uuid), multiset(b.uuids[..b.index])[uuid];
      Turns(Removed(b, uuid), 1) ==
        if b.index + 1 < |left| then Without(b.uuids[b.index..], uuid)[skipped..skipped + 1]
        else [left[|left| / 2]]
  {
    var first, rest := Without(b.uuids[..b.index], uuid), Without(b.uuids[b.index..], uuid);
    assert b.uuids == b.uuids[..b.index] + b.uuids[b.index..];
    WithoutKeepsOrder(b.uuids[..b.index], b.uuids[b.index..], uuid);
    WithoutSize(b.uuids[..b.index], uuid);
    assert |first| + multiset(b.uuids[..b.index])[uuid] == b.index;
    TurnsStraight(Removed(b, uuid), 1);
  }

  lemma {:induction false} WithoutSize(s: seq<string>, x: string)
    ensures |Without(s, x)| + multiset(s)[x] == |s|
  {
    if s != [] {
      WithoutSize(s[..|s| - 1], x);
      assert s == s[..|s| - 1] + [s[|s| - 1]];
    }
  }

  /** A removal of a UUID that is not listed changes nothing, unless it is the last entry's turn, among three or more. */
  lemma RemovingNobodyIff(b: Rota, uuid: string)
    requires InRange(b) && uuid !in b.uuids
    ensures Removed(b, uuid) == b <==> b.index + 1 != |b.uuids| || |b.uuids| <= 2
  {
    WithoutNobody(b.uuids, uuid);
  }

  lemma {:induction false} WithoutNobody(s: seq<string>, x: string)
    requires x !in s
    ensures Without(s, x) == s
  {
    if s != [] {
      WithoutNobody(s[..|s| - 1], x);
    }
  }

  /** `capability` is the one it was made for. */
  class Balancer {
    ghost const capability: string
    var uuids: seq<string>
    var index: nat

    function Value(): Rota reads this {
      Rota(uuids, index)
    }

    predicate Valid() reads this {
      InRange(Value())
    }

    constructor (ghost capability: string)
      ensures Valid() && Value() == NO_ROTA && this.capability == capability
    {
      this.capability := capability;
      uuids, index := [], 0;
    }

    method Add(uuid: string)
      requires Valid()
      modifies this
      ensures Valid() && Value() == Added(old(Value()), uuid)
    {
      uuids := uuids + [uuid];
    }

    method Remove(uuid: string)
      requires Valid()
      modifies this
      ensures Valid() && Value() == Removed(old(Value()), uuid)
    {
      var newUUIDs := [];
      for i := 0 to |uuids|
        invariant newUUIDs == Without(uuids[..i], uuid)
      {
        assert uuids[..i + 1][..i] == uuids[..i];
        if uuids[i] == uuid {
          continue;
        }
        newUUIDs := newUUIDs + [uuids[i]];
      }
      assert uuids[..|uuids|] == uuids;
      uuids := newUUIDs;
      if index >= |uuids| - 1 {
        index := |uuids| / 2;
      }
    }

    method Next() returns (uuid: string)
      requires Valid() && uuids != []
      modifies this`index
      ensures Valid() && uuid == uuids[old(index)] && Value() == Stepped(old(Value()))
    {
      uuid := uuids[index];
      if index >= |uuids| - 1 {
        index := 0;
      } else {
        index := index + 1;
      }
    }
  }
}
