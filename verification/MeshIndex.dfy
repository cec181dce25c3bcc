/** The hub's connection table and the capability index beside it, as values. */
module MeshIndexes {
  import opened Balancers

  /** `table` gives the interests of the handler under each UUID, `balancers` the round-robin list of each
      capability. */
  datatype Index = Index(table: map<string, seq<string>>, balancers: map<string, Rota>)

  const NO_MESH := Index(map[], map[])

  /** How often `uuid` is listed for `capability`. */
  function Listed(balancers: map<string, Rota>, capability: string, uuid: string): nat {
    if capability in balancers then multiset(balancers[capability].uuids)[uuid] else 0
  }

  predicate AllInRange(balancers: map<string, Rota>) {
    forall c :: c in balancers ==> InRange(balancers[c])
  }

  function EnlistOne(balancers: map<string, Rota>, uuid: string, c: string): map<string, Rota> {
    balancers[c := Added(if c in balancers then balancers[c] else NO_ROTA, uuid)]
  }

  /** `uuid` is added to the balancer of each interest in turn; missing balancers are created. */
  function Enlist(balancers: map<string, Rota>, uuid: string, interests: seq<string>): map<string, Rota> {
    if interests == [] then balancers
    else EnlistOne(Enlist(balancers, uuid, interests[..|interests| - 1]), uuid, interests[|interests| - 1])
  }

  /** `uuid` is taken out of every balancer; an emptied balancer stays. */
  function Delist(balancers: map<string, Rota>, uuid: string): map<string, Rota> {
    map c | c in balancers :: Removed(balancers[c], uuid)
  }

  function Entered(ix: Index, uuid: string, interests: seq<string>): Index {
    Index(ix.table[uuid := interests], Enlist(ix.balancers, uuid, interests))
  }

  function Dropped(ix: Index, uuid: string): Index {
    Index(ix.table - {uuid}, Delist(ix.balancers, uuid))
  }

  function Picked(ix: Index, capability: string): Index
    requires capability in ix.balancers
    requires InRange(ix.balancers[capability]) && ix.balancers[capability].uuids != []
  {
    ix.(balancers := ix.balancers[capability := Stepped(ix.balancers[capability])])
  }

  // ---- what each operation does to the counts ----

  lemma {:induction false} EnlistCounts(balancers: map<string, Rota>, uuid: string, interests: seq<string>, c: string, u: string)
    ensures Listed(Enlist(balancers, uuid, interests), c, u)
      == Listed(balancers, c, u) + if u == uuid then multiset(interests)[c] else 0
  {
    if interests != [] {
      var k := |interests| - 1;
      EnlistCounts(balancers, uuid, interests[..k], c, u);
      assert interests == interests[..k] + [interests[k]];
    }
  }

  lemma {:induction false} EnlistInRange(balancers: map<string, Rota>, uuid: string, interests: seq<string>)
    requires AllInRange(balancers)
    ensures AllInRange(Enlist(balancers, uuid, interests))
  {
    if interests != [] {
      EnlistInRange(balancers, uuid, interests[..|interests| - 1]);
    }
  }

  lemma DelistCounts(balancers: map<string, Rota>, uuid: string, c: string, u: string)
    ensures Listed(Delist(balancers, uuid), c, u) == if u == uuid then 0 else Listed(balancers, c, u)
  {
    if c in balancers {
      WithoutCounts(balancers[c].uuids, uuid, u);
    }
  }

  /** Adding a connection leaves every turn in every balancer as it was: the new entries come last. */
  lemma {:induction false} EnterKeepsTurns(balancers: map<string, Rota>, uuid: string, interests: seq<string>, c: string)
    requires c in balancers
    ensures c in Enlist(balancers, uuid, interests)
    ensures var was, now := balancers[c], Enlist(balancers, uuid, interests)[c];
      && now.index == was.index && was.uuids <= now.uuids
      && forall i :: |was.uuids| <= i < |now.uuids| ==> now.uuids[i] == uuid
  {
    if interests != [] {
      EnterKeepsTurns(balancers, uuid, interests[..|interests| - 1], c);
    }
  }

  /** A pick takes one turn of one balancer; the turns after it are those that were to come. */
  lemma PickTakesTurn(ix: Index, c: string, m: nat)
    requires AllInRange(ix.balancers) && c in ix.balancers && ix.balancers[c].uuids != []
    ensures AllInRange(Picked(ix, c).balancers) && Picked(ix, c).table == ix.table
    ensures Picked(ix, c).balancers.Keys == ix.balancers.Keys && Picked(ix, c).balancers[c].uuids == ix.balancers[c].uuids
    ensures Turns(ix.balancers[c], m + 1) ==
      [ix.balancers[c].uuids[ix.balancers[c].index]] + Turns(Picked(ix, c).balancers[c], m)
    ensures forall k :: k in ix.balancers && k != c ==> Picked(ix, c).balancers[k] == ix.balancers[k]
  {
  }

  // ---- agreement of the table and the index ----

  /** Whoever is listed is in the table, and every entry is listed for each of its interests. */
  ghost predicate Agrees(ix: Index) {
    && (forall c, u :: Listed(ix.balancers, c, u) > 0 ==> u in ix.table)
    && (forall c, u :: u in ix.table && c in ix.table[u] ==> Listed(ix.balancers, c, u) > 0)
  }

  /** A UUID is listed for a capability as often as its handler's interests name it. */
  ghost predicate Exact(ix: Index) {
    forall c, u :: Listed(ix.balancers, c, u) == if u in ix.table then multiset(ix.table[u])[c] else 0
  }

  lemma EnterKeepsAgrees(ix: Index, uuid: string, interests: seq<string>)
    requires Agrees(ix)
    ensures Agrees(Entered(ix, uuid, interests))
  {
    var r := Entered(ix, uuid, interests);
    forall c, u ensures Listed(r.balancers, c, u)
        == Listed(ix.balancers, c, u) + if u == uuid then multiset(interests)[c] else 0 {
      EnlistCounts(ix.balancers, uuid, interests, c, u);
    }
  }

  lemma DropKeepsAgrees(ix: Index, uuid: string)
    requires Agrees(ix)
    ensures Agrees(Dropped(ix, uuid))
  {
    var r := Dropped(ix, uuid);
    forall c, u ensures Listed(r.balancers, c, u) == if u == uuid then 0 else Listed(ix.balancers, c, u) {
      DelistCounts(ix.balancers, uuid, c, u);
    }
  }

  lemma DropKeepsExact(ix: Index, uuid: string)
    requires Exact(ix)
    ensures Exact(Dropped(ix, uuid))
  {
    var r := Dropped(ix, uuid);
    forall c, u ensures Listed(r.balancers, c, u) == if u in r.table then multiset(r.table[u])[c] else 0 {
      DelistCounts(ix.balancers, uuid, c, u);
    }
  }

  /** Adding a connection keeps the counts exact if and only if nothing was listed for its UUID yet. */
  lemma EnterKeepsExactIff(ix: Index, uuid: string, interests: seq<string>)
    requires Exact(ix)
    ensures Exact(Entered(ix, uuid, interests)) <==> (uuid in ix.table ==> ix.table[uuid] == [])
  {
    var r := Entered(ix, uuid, interests);
    forall c, u ensures Listed(r.balancers, c, u)
        == Listed(ix.balancers, c, u) + if u == uuid then multiset(interests)[c] else 0 {
      EnlistCounts(ix.balancers, uuid, interests, c, u);
    }
    if uuid in ix.table && ix.table[uuid] != [] {
      var c := ix.table[uuid][0];
      assert Listed(ix.balancers, c, uuid) > 0;
      assert r.table[uuid] == interests;
    }
  }

  /** A balancer has an entry to pick if someone in the table is interested, and with exact counts only then. */
  lemma CanPickIff(ix: Index, c: string)
    requires Agrees(ix) && c in ix.balancers
    ensures (exists u :: u in ix.table && c in ix.table[u]) ==> ix.balancers[c].uuids != []
    ensures Exact(ix) && ix.balancers[c].uuids != [] ==> exists u :: u in ix.table && c in ix.table[u]
  {
    var uuids := ix.balancers[c].uuids;
    if u :| u in ix.table && c in ix.table[u] {
      assert Listed(ix.balancers, c, u) > 0;
    }
    if Exact(ix) && uuids != [] {
      assert multiset(uuids)[uuids[0]] > 0;
      assert Listed(ix.balancers, c, uuids[0]) > 0;
    }
  }

  /** A removal keeps every balancer in the index, and empties exactly those that listed nobody else. */
  lemma DropEmptiesIff(ix: Index, uuid: string, c: string)
    requires c in ix.balancers
    ensures c in Dropped(ix, uuid).balancers
    ensures Dropped(ix, uuid).balancers[c].uuids == [] <==> forall u :: u in ix.balancers[c].uuids ==> u == uuid
  {
    var was, left := ix.balancers[c].uuids, Without(ix.balancers[c].uuids, uuid);
    forall u ensures multiset(left)[u] == if u == uuid then 0 else multiset(was)[u] {
      WithoutCounts(was, uuid, u);
    }
    if left != [] {
      assert multiset(left)[left[0]] > 0;
      assert left[0] in was && left[0] != uuid;
    }
    if u :| u in was && u != uuid {
      assert multiset(left)[u] > 0;
    }
  }

  // ---- runs of the hub ----

  /** `Enter` is `addConnection` alone, which the hub reaches after a look-up under another hold of the lock. */
  datatype Op = Enter(uuid: string, interests: seq<string>) | Drop(uuid: string) | Pick(capability: string)

  predicate CanDo(ix: Index, op: Op) {
    op.Pick? ==> op.capability in ix.balancers && ix.balancers[op.capability].uuids != []
  }

  function Do(ix: Index, op: Op): Index
    requires AllInRange(ix.balancers) && CanDo(ix, op)
  {
    match op
    case Enter(uuid, interests) => Entered(ix, uuid, interests)
    case Drop(uuid) => Dropped(ix, uuid)
    case Pick(capability) => Picked(ix, capability)
  }

  ghost predicate IsRun(states: seq<Index>, ops: seq<Op>) {
    && |states| == |ops| + 1
    && states[0] == NO_MESH
    && forall i :: 0 <= i < |ops| ==>
         AllInRange(states[i].balancers) ==> CanDo(states[i], ops[i]) && states[i + 1] == Do(states[i], ops[i])
  }

  /** Looking up and adding happen as one step. */
  ghost predicate Checked(states: seq<Index>, ops: seq<Op>)
    requires |states| == |ops| + 1
  {
    forall i :: 0 <= i < |ops| && ops[i].Enter? ==> ops[i].uuid !in states[i].table
  }

  lemma DoKeepsAgrees(ix: Index, op: Op)
    requires AllInRange(ix.balancers) && Agrees(ix) && CanDo(ix, op)
    ensures AllInRange(Do(ix, op).balancers) && Agrees(Do(ix, op))
  {
    match op
    case Enter(uuid, interests) =>
      EnlistInRange(ix.balancers, uuid, interests);
      EnterKeepsAgrees(ix, uuid, interests);
    case Drop(uuid) => DropKeepsAgrees(ix, uuid);
    case Pick(capability) =>
      assert forall c, u :: Listed(Do(ix, op).balancers, c, u) == Listed(ix.balancers, c, u);
  }

  lemma DoKeepsExact(ix: Index, op: Op)
    requires AllInRange(ix.balancers) && Exact(ix) && CanDo(ix, op)
    requires op.Enter? ==> op.uuid !in ix.table
    ensures Exact(Do(ix, op))
  {
    match op
    case Enter(uuid, interests) => EnterKeepsExactIff(ix, uuid, interests);
    case Drop(uuid) => DropKeepsExact(ix, uuid);
    case Pick(capability) =>
      assert forall c, u :: Listed(Do(ix, op).balancers, c, u) == Listed(ix.balancers, c, u);
  }

  /** In every state of every run, with adding split from looking up, the index agrees with the table. */
  lemma {:induction false} AlwaysAgrees(states: seq<Index>, ops: seq<Op>, i: nat)
    requires IsRun(states, ops) && i < |states|
    ensures AllInRange(states[i].balancers) && Agrees(states[i])
  {
    if i > 0 {
      AlwaysAgrees(states, ops, i - 1);
      DoKeepsAgrees(states[i - 1], ops[i - 1]);
    }
  }

  /** With look-up and adding as one step, the counts are exact in every state. */
  lemma {:induction false} AlwaysExact(states: seq<Index>, ops: seq<Op>, i: nat)
    requires IsRun(states, ops) && Checked(states, ops) && i < |states|
    ensures Exact(states[i])
  {
    if i > 0 {
      AlwaysExact(states, ops, i - 1);
      AlwaysAgrees(states, ops, i - 1);
      DoKeepsExact(states[i - 1], ops[i - 1]);
    }
  }

  /** Removing a connection right after adding it restores the counts, unless its UUID was listed before. */
  lemma DropUndoesEnter(ix: Index, uuid: string, interests: seq<string>, c: string, u: string)
    requires Agrees(ix) && uuid !in ix.table
    ensures Dropped(Entered(ix, uuid, interests), uuid).table == ix.table
    ensures Listed(Dropped(Entered(ix, uuid, interests), uuid).balancers, c, u) == Listed(ix.balancers, c, u)
  {
    EnlistCounts(ix.balancers, uuid, interests, c, u);
    DelistCounts(Enlist(ix.balancers, uuid, interests), uuid, c, u);
  }
}
