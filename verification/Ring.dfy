/** The connection ring as a cyclic sequence: position 0 is the pool's current connection. */
module Rings {
  import opened Sequences

  /** A new element goes right after the current one. */
  function Inserted<T>(r: seq<T>, x: T): seq<T> {
    if r == [] then [x] else [r[0], x] + r[1..]
  }

  /** One step forward. */
  function Rotated<T>(r: seq<T>): seq<T> {
    if r == [] then [] else r[1..] + [r[0]]
  }

  /** The element after the current one, which is the current one in a ring of one. */
  function Second<T>(r: seq<T>): T
    requires r != []
  {
    if |r| == 1 then r[0] else r[1]
  }

  /** The element after the second. */
  function Third<T>(r: seq<T>): T
    requires r != []
  {
    if |r| > 2 then r[2] else r[0]
  }

  /** Cuts out the second element; a ring of one becomes empty. */
  function WithoutSecond<T>(r: seq<T>): seq<T> {
    if |r| <= 1 then [] else [r[0]] + r[2..]
  }

  /** The element after `x`. */
  function Follower<T(==)>(r: seq<T>, x: T): T
    requires x in r
  {
    var i := IndexOf(r, x);
    if i + 1 == |r| then r[0] else r[i + 1]
  }

  function Elements<T>(r: seq<T>): set<T> {
    set x | x in r
  }

  lemma InsertedKeeps<T>(r: seq<T>, x: T)
    requires NoDup(r) && x !in r
    ensures NoDup(Inserted(r, x))
    ensures forall y :: y in Inserted(r, x) <==> y == x || y in r
  {
  }

  lemma RotatedKeeps<T>(r: seq<T>)
    requires NoDup(r)
    ensures NoDup(Rotated(r))
    ensures forall y :: y in Rotated(r) <==> y in r
  {
  }

  lemma WithoutSecondKeeps<T>(r: seq<T>)
    requires NoDup(r) && r != []
    ensures NoDup(WithoutSecond(r))
    ensures forall y :: y in WithoutSecond(r) <==> y in r && y != Second(r)
  {
  }

  /** Starting again at position `j`. */
  function From<T>(r: seq<T>, j: nat): seq<T>
    requires j <= |r|
  {
    r[j..] + r[..j]
  }

  lemma RotatedFrom<T>(r: seq<T>, j: nat)
    requires j < |r|
    ensures Rotated(From(r, j)) == From(r, j + 1)
    ensures From(r, |r|) == r == From(r, 0)
  {
  }
}
