/**
  Communicators and their split.  Every process computes the tables of a new communicator by itself,
  from the list of colours and keys that all members have gathered.
 */
module Communicators {
  import opened Wrappers
  import opened Counting

  const RDMA_UNDEFINED := -1

  datatype CommConfig = CommConfig(color: int, key: int)

  datatype MemCommConfig = MemCommConfig(rootRank: int, key: int)

  /** A communicator as it stands in a process's pool. */
  datatype Comm = Comm(color: int, myCommRank: int, commWorldSize: nat, commRanks: seq<int>, rootRanks: seq<int>)

  // ---------------------------------------------------------------- the tables of a member list

  ghost predicate MemberList(members: seq<nat>, world: nat) {
    NoRepeats(members) && forall i | 0 <= i < |members| :: members[i] < world
  }

  /** commRanks and rootRanks are the two directions of the member list. */
  ghost predicate TablesOf(commRanks: seq<int>, rootRanks: seq<int>, members: seq<nat>, world: nat) {
    && |commRanks| == |rootRanks| == world && |members| <= world
    && (forall i | 0 <= i < world :: rootRanks[i] == if i < |members| then members[i] else -1)
    && (forall i | 0 <= i < |members| :: members[i] < world && commRanks[members[i]] == i)
    && (forall q: nat | q < world && q !in members :: commRanks[q] == -1)
  }

  /** The communicator with these members, at the member with rank `me` in it. */
  ghost predicate CommOf(c: Comm, members: seq<nat>, me: int, world: nat) {
    && MemberList(members, world) && 0 <= me < |members|
    && c.myCommRank == me && c.commWorldSize == |members| && TablesOf(c.commRanks, c.rootRanks, members, world)
  }

  lemma TablesAreDetermined(a: seq<int>, b: seq<int>, a': seq<int>, b': seq<int>, members: seq<nat>, world: nat)
    requires TablesOf(a, b, members, world) && TablesOf(a', b', members, world)
    ensures a == a' && b == b'
  {
    forall q: nat | q < world ensures a[q] == a'[q] {
      if q in members {
        var i :| 0 <= i < |members| && members[i] == q;
      }
    }
  }

  lemma TablesGrow(commRanks: seq<int>, rootRanks: seq<int>, members: seq<nat>, world: nat, q: nat)
    requires TablesOf(commRanks, rootRanks, members, world) && q < world && q !in members && |members| < world
    ensures TablesOf(commRanks[q := |members|], rootRanks[|members| := q], members + [q], world)
  {
    forall i | 0 <= i < |members| ensures members[i] != q {
      assert members[i] in members;
    }
  }

  // ---------------------------------------------------------------- std::sort

  type Sorter = seq<MemCommConfig> -> seq<MemCommConfig>

  ghost predicate SortedByKey(s: seq<MemCommConfig>) {
    forall i, j | 0 <= i < j < |s| :: s[i].key <= s[j].key
  }

  /** A fixed way of sorting by key; what it does with equal keys is left open. */
  ghost predicate IsSorter(sort: Sorter) {
    forall s :: multiset(sort(s)) == multiset(s) && SortedByKey(sort(s))
  }

  function InsertByKey(m: MemCommConfig, s: seq<MemCommConfig>): seq<MemCommConfig> {
    if s == [] || m.key <= s[0].key then [m] + s else [s[0]] + InsertByKey(m, s[1..])
  }

  function KeySort(s: seq<MemCommConfig>): seq<MemCommConfig> {
    if s == [] then [] else InsertByKey(s[0], KeySort(s[1..]))
  }

  lemma SortedCons(m: MemCommConfig, s: seq<MemCommConfig>)
    requires SortedByKey(s) && forall x | x in s :: m.key <= x.key
    ensures SortedByKey([m] + s)
  {
  }

  lemma {:induction false} InsertKeeps(m: MemCommConfig, s: seq<MemCommConfig>)
    requires SortedByKey(s)
    ensures SortedByKey(InsertByKey(m, s)) && multiset(InsertByKey(m, s)) == multiset{m} + multiset(s)
    ensures forall x | x in InsertByKey(m, s) :: x == m || x in s
  {
    if s == [] || m.key <= s[0].key {
      SortedCons(m, s);
    } else {
      assert s == [s[0]] + s[1..];
      InsertKeeps(m, s[1..]);
      forall x | x in InsertByKey(m, s[1..]) ensures s[0].key <= x.key {
        assert x == m || x in s[1..];
      }
      SortedCons(s[0], InsertByKey(m, s[1..]));
    }
  }

  lemma {:induction false} KeySortSorts(s: seq<MemCommConfig>)
    ensures SortedByKey(KeySort(s)) && multiset(KeySort(s)) == multiset(s)
  {
    if s != [] {
      KeySortSorts(s[1..]);
      InsertKeeps(s[0], KeySort(s[1..]));
      assert s == [s[0]] + s[1..];
    }
  }

  /** There are such ways of sorting. */
  lemma SortersExist()
    ensures IsSorter(KeySort)
  {
    forall s ensures multiset(KeySort(s)) == multiset(s) && SortedByKey(KeySort(s)) {
      KeySortSorts(s);
    }
  }

  // ---------------------------------------------------------------- the communicator under construction

  class Communicator {
    const world: nat
    var color: int
    var myCommRank: int
    var commWorldSize: nat
    const commRanks: array<int>
    const rootRanks: array<int>

    ghost predicate Valid()
      reads this
    {
      commRanks != rootRanks && commRanks.Length == rootRanks.Length == world
    }

    ghost predicate Holds(members: seq<nat>)
      reads this, commRanks, rootRanks
    {
      Valid() && TablesOf(commRanks[..], rootRanks[..], members, world)
    }

    constructor (worldSize: nat)
      ensures world == worldSize && color == 0 && myCommRank == 0 && commWorldSize == 0 && Holds([])
      ensures fresh(commRanks) && fresh(rootRanks)
    {
      world, color, myCommRank, commWorldSize := worldSize, 0, 0, 0;
      commRanks := new int[worldSize](_ => -1);
      rootRanks := new int[worldSize](_ => -1);
    }

    /** setRank for the member with the next rank keeps the two tables inverse to each other: they are then
        those of one member more, which isMem finds and the others of which it finds as before. */
    method SetRank(rootRank: nat, commRank: nat, ghost members: seq<nat>)
      requires Valid() && rootRank < world && commRank < world
      modifies commRanks, rootRanks
      ensures old(Holds(members)) && commRank == |members| && rootRank !in members ==> Holds(members + [rootRank])
      ensures forall q: nat | q < world && q != rootRank :: commRanks[q] == old(commRanks[q])
      ensures forall i: nat | i < world && i != commRank :: rootRanks[i] == old(rootRanks[i])
    {
      if old(Holds(members)) && commRank == |members| && rootRank !in members {
        TablesGrow(commRanks[..], rootRanks[..], members, world, rootRank);
      }
      commRanks[rootRank] := commRank;
      rootRanks[commRank] := rootRank;
    }

    method IsMem(rootRank: nat, ghost members: seq<nat>) returns (r: bool)
      requires Holds(members) && rootRank < world
      ensures r <==> rootRank in members
    {
      r := commRanks[rootRank] != -1;
    }

    function Value(): Comm
      reads this, commRanks, rootRanks
    {
      Comm(color, myCommRank, commWorldSize, commRanks[..], rootRanks[..])
    }
  }

  // ---------------------------------------------------------------- who is in the new communicator

  /** The members of the same colour, in the order of their old ranks. */
  ghost function SameColor(parent: seq<nat>, configs: seq<CommConfig>, color: int,
                           upto: nat): (mems: seq<MemCommConfig>)
    requires |parent| == |configs| && upto <= |parent|
  {
    if upto == 0 then []
    else
      SameColor(parent, configs, color, upto - 1) +
      if configs[upto - 1].color == color then [MemCommConfig(parent[upto - 1], configs[upto - 1].key)] else []
  }

  /** The member list of the communicator that the member with old rank `me` gets. */
  ghost function NewConfigs(parent: seq<nat>, configs: seq<CommConfig>, me: int, sort: Sorter): seq<MemCommConfig>
    requires |parent| == |configs| && 0 <= me < |parent|
  {
    if configs[me].color == RDMA_UNDEFINED then [MemCommConfig(parent[me], 0)]
    else sort(SameColor(parent, configs, configs[me].color, |parent|))
  }

  /** Root ranks as numbers; those of a communicator's members are never negative. */
  ghost function RootRanks(mems: seq<MemCommConfig>): (r: seq<nat>)
    requires forall i | 0 <= i < |mems| :: mems[i].rootRank >= 0
    ensures |r| == |mems| && forall i | 0 <= i < |r| :: r[i] == mems[i].rootRank
  {
    seq(|mems|, i requires 0 <= i < |mems| => mems[i].rootRank as nat)
  }

  /** Each rank occurs at most once. */
  ghost predicate DistinctRanks(mems: seq<MemCommConfig>) {
    forall i, j | 0 <= i < j < |mems| :: mems[i].rootRank != mems[j].rootRank
  }

  ghost predicate ExactlyOfColor(mems: seq<MemCommConfig>, parent: seq<nat>, configs: seq<CommConfig>, color: int,
                                 upto: nat)
    requires |parent| == |configs| && upto <= |parent|
  {
    forall m :: m in mems <==>
      exists k :: 0 <= k < upto && configs[k].color == color && m == MemCommConfig(parent[k], configs[k].key)
  }

  lemma {:induction false} SameColorIs(parent: seq<nat>, configs: seq<CommConfig>, color: int, upto: nat, world: nat)
    requires |parent| == |configs| && upto <= |parent| && MemberList(parent, world)
    ensures var mems := SameColor(parent, configs, color, upto);
      && |mems| <= upto && DistinctRanks(mems)
      && ExactlyOfColor(mems, parent, configs, color, upto)
  {
    if upto > 0 {
      SameColorIs(parent, configs, color, upto - 1, world);
      var init := SameColor(parent, configs, color, upto - 1);
      forall i | 0 <= i < |init| ensures init[i].rootRank != parent[upto - 1] {
        assert init[i] in init;
      }
    }
  }

  /** Rearranging keeps elements and their number. */
  lemma Rearranged(a: seq<MemCommConfig>, b: seq<MemCommConfig>)
    requires multiset(a) == multiset(b)
    ensures |a| == |b| && (forall m :: m in a <==> m in b)
    ensures DistinctRanks(a) ==> DistinctRanks(b)
  {
    assert |multiset(a)| == |a| && |multiset(b)| == |b|;
    forall m ensures m in a <==> m in b {
      assert m in a <==> m in multiset(a);
      assert m in b <==> m in multiset(b);
    }
    if DistinctRanks(a) {
      forall i, j | 0 <= i < j < |b| ensures b[i].rootRank != b[j].rootRank {
        DistinctAfter(a, b, i, j);
      }
    }
  }

  lemma DistinctAfter(a: seq<MemCommConfig>, b: seq<MemCommConfig>, i: nat, j: nat)
    requires multiset(a) == multiset(b) && DistinctRanks(a) && i < j < |b|
    ensures b[i].rootRank != b[j].rootRank
  {
    if b[i] == b[j] {
      CountOne(a, b[i]);
      RepeatCounts(b, i, j);
    } else {
      assert b[i] in multiset(a) && b[j] in multiset(a);
      assert b[i] in a && b[j] in a;
      var k :| 0 <= k < |a| && a[k] == b[i];
      var l :| 0 <= l < |a| && a[l] == b[j];
      assert k != l;
    }
  }

  /** What the member list of a new communicator is: all members of the same colour and no one else,
      in the order of their keys; only for the colour -1, which stands for none, it is the caller alone. */
  lemma NewConfigsAre(parent: seq<nat>, configs: seq<CommConfig>, me: int, sort: Sorter, world: nat)
    requires |parent| == |configs| && 0 <= me < |parent| && MemberList(parent, world) && IsSorter(sort)
    ensures var mems := NewConfigs(parent, configs, me, sort);
      && 0 < |mems| <= |parent| && DistinctRanks(mems)
      && (forall i | 0 <= i < |mems| :: 0 <= mems[i].rootRank < world)
      && MemberList(RootRanks(mems), world) && parent[me] in RootRanks(mems)
      && (configs[me].color == -1 ==> RootRanks(mems) == [parent[me]])
      && (configs[me].color != -1 ==>
            SortedByKey(mems) && ExactlyOfColor(mems, parent, configs, configs[me].color, |parent|))
  {
    var mems := NewConfigs(parent, configs, me, sort);
    if configs[me].color == RDMA_UNDEFINED {
      assert RootRanks(mems)[0] == parent[me];
    } else {
      var all := SameColor(parent, configs, configs[me].color, |parent|);
      SameColorIs(parent, configs, configs[me].color, |parent|, world);
      Rearranged(all, mems);
      assert MemCommConfig(parent[me], configs[me].key) in mems;
      var i :| 0 <= i < |mems| && mems[i] == MemCommConfig(parent[me], configs[me].key);
      forall i | 0 <= i < |mems| ensures 0 <= mems[i].rootRank < world {
        assert mems[i] in mems;
      }
      assert RootRanks(mems)[i] == parent[me];
    }
  }

  // ---------------------------------------------------------------- the process

  datatype Error = InvalidArgument | Internal

  class RdmaProcess {
    const myRootRank: nat
    const worldSize: nat
    var commPool: seq<Comm>

    constructor (myRootRank: nat, worldSize: nat)
      requires myRootRank < worldSize
      ensures this.myRootRank == myRootRank && this.worldSize == worldSize && commPool == []
    {
      this.myRootRank, this.worldSize, this.commPool := myRootRank, worldSize, [];
    }

    /** Communicator 0: everyone, with the rank they have in the world. */
    method SetupRootCommWorld()
      requires myRootRank < worldSize
      modifies this
      ensures |commPool| == |old(commPool)| + 1 && commPool[..|old(commPool)|] == old(commPool)
      ensures CommOf(commPool[|old(commPool)|], Everyone(worldSize), myRootRank, worldSize)
      ensures commPool[|old(commPool)|].color == 0
    {
      var comm := new Communicator(worldSize);
      comm.color, comm.myCommRank, comm.commWorldSize := 0, myRootRank, worldSize;
      var rank := 0;
      assert Everyone(0) == [];
      while rank < worldSize
        invariant 0 <= rank <= worldSize && comm.Holds(Everyone(rank)) && comm.world == worldSize
        invariant fresh(comm.commRanks) && fresh(comm.rootRanks)
        invariant commPool == old(commPool)
        invariant comm.color == 0 && comm.myCommRank == myRootRank && comm.commWorldSize == worldSize
      {
        comm.SetRank(rank, rank, Everyone(rank));
        assert Everyone(rank + 1) == Everyone(rank) + [rank];
        rank := rank + 1;
      }
      commPool := commPool + [comm.Value()];
    }

    /** splitComm.  `parent` is the member list of the communicator that is split. */
    method SplitComm(from: int, configs: seq<CommConfig>, sort: Sorter, ghost parent: seq<nat>)
      returns (r: Result<nat, Error>)
      requires IsSorter(sort) && myRootRank < worldSize
      requires 0 <= from < |commPool| ==>
        CommOf(commPool[from], parent, commPool[from].myCommRank, worldSize)
        && |configs| == |parent| && parent[commPool[from].myCommRank] == myRootRank
      modifies this
      ensures !(0 <= from < |old(commPool)|) ==> r == Err(InvalidArgument) && commPool == old(commPool)
      ensures 0 <= from < |old(commPool)| ==>
        var me := old(commPool)[from].myCommRank;
        && r == Ok(|old(commPool)|) && |commPool| == |old(commPool)| + 1 && commPool[..|old(commPool)|] == old(commPool)
        && SplitOff(parent, configs, me, sort, worldSize, commPool[|old(commPool)|])
    {
      if from < 0 || from >= |commPool| {
        return Err(InvalidArgument);
      }
      var me := commPool[from].myCommRank;
      var myColor := configs[me].color;
      var memCommConfigs: seq<MemCommConfig>;
      if myColor == RDMA_UNDEFINED {
        memCommConfigs := [MemCommConfig(commPool[from].rootRanks[me], 0)];
      } else {
        memCommConfigs := CollectColor(commPool[from].rootRanks, configs, myColor, parent);
        memCommConfigs := sort(memCommConfigs);
      }
      NewConfigsAre(parent, configs, me, sort, worldSize);
      assert memCommConfigs == NewConfigs(parent, configs, me, sort);
      var newComm := BuildComm(myColor, memCommConfigs, worldSize, myRootRank);
      commPool := commPool + [newComm];
      r := Ok(|commPool| - 1);
    }
  }

  ghost function Everyone(n: nat): (members: seq<nat>)
    ensures |members| == n && forall i | 0 <= i < n :: members[i] == i
  {
    seq(n, i requires 0 <= i < n => i)
  }

  /** The communicator a member makes of the gathered list: its tables are those of the members of its
      own colour in key order, and it finds itself among them. */
  ghost predicate SplitOff(parent: seq<nat>, configs: seq<CommConfig>, me: int, sort: Sorter, world: nat, c: Comm) {
    && |configs| == |parent| && 0 <= me < |parent| && c.color == configs[me].color
    && var mems := NewConfigs(parent, configs, me, sort);
    && (forall i | 0 <= i < |mems| :: mems[i].rootRank >= 0)
    && 0 <= c.myCommRank < |mems| && mems[c.myCommRank].rootRank == parent[me]
    && CommOf(c, RootRanks(mems), c.myCommRank, world)
  }

  /** The loop of splitComm that picks out the members of one colour. */
  method CollectColor(rootRanks: seq<int>, configs: seq<CommConfig>, color: int, ghost parent: seq<nat>)
    returns (mems: seq<MemCommConfig>)
    requires |parent| == |configs| <= |rootRanks| && forall i | 0 <= i < |parent| :: rootRanks[i] == parent[i]
    ensures mems == SameColor(parent, configs, color, |parent|)
  {
    mems := [];
    for cRank := 0 to |configs|
      invariant mems == SameColor(parent, configs, color, cRank)
    {
      var config := configs[cRank];
      if config.color == color {
        mems := mems + [MemCommConfig(rootRanks[cRank], config.key)];
      }
    }
  }

  /** The rest of splitComm: the new communicator's tables. */
  method BuildComm(color: int, mems: seq<MemCommConfig>, worldSize: nat, myRootRank: nat) returns (c: Comm)
    requires DistinctRanks(mems) && forall i | 0 <= i < |mems| :: 0 <= mems[i].rootRank < worldSize
    requires MemberList(RootRanks(mems), worldSize) && myRootRank < worldSize && myRootRank in RootRanks(mems)
    ensures c.color == color && 0 <= c.myCommRank < |mems| && mems[c.myCommRank].rootRank == myRootRank
    ensures CommOf(c, RootRanks(mems), c.myCommRank, worldSize)
  {
    var newComm := new Communicator(worldSize);
    newComm.color, newComm.commWorldSize := color, |mems|;
    ghost var members := RootRanks(mems);
    DistinctBelow(members, worldSize);
    var nRank := 0;
    while nRank < |mems|
      invariant 0 <= nRank <= |mems| && newComm.Holds(members[..nRank]) && newComm.world == worldSize
      invariant fresh(newComm.commRanks) && fresh(newComm.rootRanks)
      invariant newComm.color == color && newComm.commWorldSize == |mems|
    {
      assert members[nRank] !in members[..nRank];
      assert members[..nRank + 1] == members[..nRank] + [members[nRank]];
      newComm.SetRank(mems[nRank].rootRank, nRank, members[..nRank]);
      nRank := nRank + 1;
    }
    assert members[..nRank] == members;
    newComm.myCommRank := newComm.commRanks[myRootRank];
    c := newComm.Value();
  }
}
