/** Facts about sequences used by the ring, the buffer and the balancer. */
module Sequences {

  predicate NoDup<T(==)>(s: seq<T>) {
    forall i, j :: 0 <= i < j < |s| ==> s[i] != s[j]
  }

  function IndexOf<T(==)>(s: seq<T>, x: T): (i: nat)
    requires x in s
    ensures i < |s| && s[i] == x && x !in s[..i]
  {
    if s[0] == x then 0 else
      assert x in s[1..];
      1 + IndexOf(s[1..], x)
  }

  /** The last `n` elements, or all of them when there are fewer. */
  function LastN<T>(s: seq<T>, n: nat): seq<T> {
    if |s| <= n then s else s[|s| - n..]
  }

  /** Position `i` steps after `start` on a cycle of `n` positions. */
  function Around(start: nat, i: nat, n: nat): nat
    requires start < n && i < n
  {
    if start + i < n then start + i else start + i - n
  }

  /** The next position on a cycle of `n`. */
  function NextPos(pos: nat, n: nat): (r: nat)
    requires pos < n
    ensures r < n
  {
    if pos + 1 == n then 0 else pos + 1
  }

  /** The position `k` steps further, any number of times round. */
  function After(pos: nat, n: nat, k: nat): (r: nat)
    requires pos < n
    ensures r < n
    decreases k
  {
    if k == 0 then pos else After(NextPos(pos, n), n, k - 1)
  }

  /** How many of the `m` positions visited from `pos` on are `p`. */
  function Visits(pos: nat, n: nat, p: nat, m: nat): nat
    requires pos < n
    decreases m
  {
    if m == 0 then 0 else (if pos == p then 1 else 0) + Visits(NextPos(pos, n), n, p, m - 1)
  }

  lemma {:induction false} AfterSplit(pos: nat, n: nat, a: nat, b: nat)
    requires pos < n
    ensures After(pos, n, a + b) == After(After(pos, n, a), n, b)
    decreases a
  {
    if a > 0 {
      AfterSplit(NextPos(pos, n), n, a - 1, b);
      assert a - 1 + b == a + b - 1;
    }
  }

  lemma {:induction false} VisitsSplit(pos: nat, n: nat, p: nat, a: nat, b: nat)
    requires pos < n
    ensures Visits(pos, n, p, a + b) == Visits(pos, n, p, a) + Visits(After(pos, n, a), n, p, b)
    decreases a
  {
    if a > 0 {
      VisitsSplit(NextPos(pos, n), n, p, a - 1, b);
      assert a - 1 + b == a + b - 1;
    }
  }

  /** Without wrapping, `m` steps visit a stretch of consecutive positions. */
  lemma {:induction false} Straight(pos: nat, n: nat, p: nat, m: nat)
    requires pos < n && pos + m <= n
    ensures Visits(pos, n, p, m) == if pos <= p < pos + m then 1 else 0
    ensures After(pos, n, m) == if pos + m == n then 0 else pos + m
    decreases m
  {
    if m > 0 && pos + 1 < n {
      Straight(pos + 1, n, p, m - 1);
    }
  }

  /** One turn meets every position exactly once and comes back. */
  lemma OneTurn(pos: nat, n: nat, p: nat)
    requires pos < n && p < n
    ensures Visits(pos, n, p, n) == 1
    ensures After(pos, n, n) == pos
  {
    Straight(pos, n, p, n - pos);
    Straight(0, n, p, pos);
    VisitsSplit(pos, n, p, n - pos, pos);
    AfterSplit(pos, n, n - pos, pos);
  }

  /** Going round `k` times meets every position exactly `k` times. */
  lemma {:induction false} FullTurns(pos: nat, n: nat, p: nat, k: nat)
    requires pos < n && p < n
    ensures Visits(pos, n, p, k * n) == k
    ensures After(pos, n, k * n) == pos
    decreases k
  {
    if k > 0 {
      assert k * n == n + (k - 1) * n;
      OneTurn(pos, n, p);
      FullTurns(pos, n, p, k - 1);
      VisitsSplit(pos, n, p, n, (k - 1) * n);
      AfterSplit(pos, n, n, (k - 1) * n);
    }
  }

  /** Within one turn, stepping on is adding and wrapping once. */
  lemma AfterIsAround(pos: nat, n: nat, i: nat)
    requires pos < n && i < n
    ensures After(pos, n, i) == Around(pos, i, n)
  {
    if pos + i < n {
      Straight(pos, n, pos, i);
    } else {
      Straight(pos, n, pos, n - pos);
      Straight(0, n, 0, pos + i - n);
      AfterSplit(pos, n, n - pos, pos + i - n);
    }
  }

  lemma TurnedBag<T>(s: seq<T>, a: nat)
    requires a <= |s|
    ensures multiset(s[a..] + s[..a]) == multiset(s)
  {
    assert s == s[..a] + s[a..];
  }

  /** Every position is met within one turn. */
  lemma ReachedWithinOneTurn(pos: nat, n: nat, p: nat) returns (i: nat)
    requires pos < n && p < n
    ensures i < n && After(pos, n, i) == p
  {
    if p >= pos {
      i := p - pos;
      Straight(pos, n, p, i);
    } else {
      i := n - pos + p;
      Straight(pos, n, p, n - pos);
      Straight(0, n, p, p);
      AfterSplit(pos, n, n - pos, p);
    }
  }
}
