/**
  Splits seen from outside: what the processes have worked out, each by itself, fits together, over
  any tree of splits of communicators obtained by splits.
 */
module Splits {
  import opened Wrappers
  import opened Counting
  import opened Communicators

  // ---------------------------------------------------------------- one split

  lemma SameColorSameConfigs(parent: seq<nat>, configs: seq<CommConfig>, i: nat, j: nat, sort: Sorter)
    requires |parent| == |configs| && i < |parent| && j < |parent|
    requires configs[i].color == configs[j].color != -1
    ensures NewConfigs(parent, configs, i, sort) == NewConfigs(parent, configs, j, sort)
  {
  }

  /** Members of the same colour end with the same tables and size, and each finds its own rank in
      them. */
  lemma SplitAgrees(parent: seq<nat>, configs: seq<CommConfig>, i: nat, j: nat, sort: Sorter, world: nat, a: Comm,
                    b: Comm)
    requires MemberList(parent, world) && |configs| == |parent|
    requires SplitOff(parent, configs, i, sort, world, a) && SplitOff(parent, configs, j, sort, world, b)
    requires configs[i].color == configs[j].color != -1
    ensures a.commRanks == b.commRanks && a.rootRanks == b.rootRanks && a.commWorldSize == b.commWorldSize
    ensures a.color == b.color && a.rootRanks[a.myCommRank] == parent[i] && b.commRanks[parent[i]] == a.myCommRank
  {
    var mems := NewConfigs(parent, configs, i, sort);
    SameColorSameConfigs(parent, configs, i, j, sort);
    TablesAreDetermined(a.commRanks, a.rootRanks, b.commRanks, b.rootRanks, RootRanks(mems), world);
    assert RootRanks(mems)[a.myCommRank] == parent[i];
  }

  lemma OtherColorStaysOut(parent: seq<nat>, configs: seq<CommConfig>, i: nat, j: nat, sort: Sorter, world: nat)
    requires MemberList(parent, world) && IsSorter(sort) && |configs| == |parent|
    requires i < |parent| && j < |parent| && i != j
    requires configs[i].color != configs[j].color || configs[i].color == -1
    ensures forall m | m in NewConfigs(parent, configs, j, sort) :: m.rootRank != parent[i]
  {
    NewConfigsAre(parent, configs, j, sort, world);
    assert parent[i] != parent[j];
  }

  /** Members of different colours, or without colour, are strangers in each other's tables. */
  lemma SplitSeparates(parent: seq<nat>, configs: seq<CommConfig>, i: nat, j: nat, sort: Sorter, world: nat, b: Comm)
    requires MemberList(parent, world) && IsSorter(sort) && |configs| == |parent| && i < |parent| && i != j
    requires SplitOff(parent, configs, j, sort, world, b)
    requires configs[i].color != configs[j].color || configs[i].color == -1
    ensures b.commRanks[parent[i]] == -1
  {
    OtherColorStaysOut(parent, configs, i, j, sort, world);
    var mems := NewConfigs(parent, configs, j, sort);
    forall k | 0 <= k < |mems| ensures RootRanks(mems)[k] != parent[i] {
      assert mems[k] in mems;
    }
    hide NewConfigs, RootRanks, IsSorter;
  }

  /** Who has the same colour as member i; without a colour, nobody but i. */
  ghost predicate Together(configs: seq<CommConfig>, i: nat, k: nat)
    requires i < |configs| && k < |configs|
  {
    k == i || (configs[i].color == configs[k].color != -1)
  }

  /** The old ranks of those who end in the communicator of member i. */
  ghost function Joining(configs: seq<CommConfig>, i: nat): (js: set<nat>)
    requires i < |configs|
    ensures forall k: nat :: k in js <==> k < |configs| && Together(configs, i, k)
  {
    set k: nat | k < |configs| && Together(configs, i, k)
  }

  lemma TogetherInNew(parent: seq<nat>, configs: seq<CommConfig>, i: nat, k: nat, sort: Sorter, world: nat)
    requires MemberList(parent, world) && IsSorter(sort) && |configs| == |parent| && i < |parent| && k < |parent|
    ensures var mems := NewConfigs(parent, configs, i, sort);
      && (forall m | m in mems :: m.rootRank >= 0)
      && (parent[k] in RootRanks(mems) <==> Together(configs, i, k))
  {
    NewConfigsAre(parent, configs, i, sort, world);
    var mems := NewConfigs(parent, configs, i, sort);
    if k == i {
    } else if Together(configs, i, k) {
      assert MemCommConfig(parent[k], configs[k].key) in mems;
      var a :| 0 <= a < |mems| && mems[a] == MemCommConfig(parent[k], configs[k].key);
      assert RootRanks(mems)[a] == parent[k];
    } else {
      OtherColorStaysOut(parent, configs, k, i, sort, world);
      forall a | 0 <= a < |mems| ensures RootRanks(mems)[a] != parent[k] {
        assert mems[a] in mems;
      }
    }
    hide NewConfigs, IsSorter;
  }

  /** Every entry of a new member list is that of an old member with its key, unless it stands alone. */
  lemma EntryOfNew(parent: seq<nat>, configs: seq<CommConfig>, i: nat, k: nat, sort: Sorter, world: nat, a: nat)
    requires MemberList(parent, world) && IsSorter(sort) && |configs| == |parent| && i < |parent| && k < |parent|
    requires configs[i].color != -1 && a < |NewConfigs(parent, configs, i, sort)|
    requires NewConfigs(parent, configs, i, sort)[a].rootRank == parent[k]
    ensures NewConfigs(parent, configs, i, sort)[a].key == configs[k].key
  {
    NewConfigsAre(parent, configs, i, sort, world);
    var mems := NewConfigs(parent, configs, i, sort);
    assert mems[a] in mems;
    var l :| 0 <= l < |parent| && configs[l].color == configs[i].color &&
      mems[a] == MemCommConfig(parent[l], configs[l].key);
    assert l == k;
  }

  lemma RankOf(commRanks: seq<int>, rootRanks: seq<int>, members: seq<nat>, world: nat, q: nat)
    requires TablesOf(commRanks, rootRanks, members, world) && q < world
    ensures q in members <==> 0 <= commRanks[q] < |members|
    ensures q !in members ==> commRanks[q] == -1
    ensures q in members ==> members[commRanks[q]] == q == rootRanks[commRanks[q]]
  {
    if q in members {
      var a :| 0 <= a < |members| && members[a] == q;
    }
  }

  lemma SplitMembers(parent: seq<nat>, configs: seq<CommConfig>, i: nat, k: nat, sort: Sorter, world: nat, a: Comm)
    requires MemberList(parent, world) && IsSorter(sort) && |configs| == |parent| && i < |parent|
    requires SplitOff(parent, configs, i, sort, world, a) && k < |parent|
    ensures |a.commRanks| == |a.rootRanks| == world &&
            a.commWorldSize == |NewConfigs(parent, configs, i, sort)| <= world
    ensures 0 <= a.commRanks[parent[k]] < a.commWorldSize <==> Together(configs, i, k)
    ensures !Together(configs, i, k) ==> a.commRanks[parent[k]] == -1
    ensures Together(configs, i, k) ==>
      && a.rootRanks[a.commRanks[parent[k]]] == parent[k]
      && NewConfigs(parent, configs, i, sort)[a.commRanks[parent[k]]].rootRank == parent[k]
  {
    TogetherInNew(parent, configs, i, k, sort, world);
    RankOf(a.commRanks, a.rootRanks, RootRanks(NewConfigs(parent, configs, i, sort)), world, parent[k]);
    hide NewConfigs, Together, IsSorter, TablesOf;
  }

  lemma SplitOrder(parent: seq<nat>, configs: seq<CommConfig>, i: nat, k: nat, l: nat, sort: Sorter, world: nat,
                   a: Comm)
    requires MemberList(parent, world) && IsSorter(sort) && |configs| == |parent| && i < |parent|
    requires SplitOff(parent, configs, i, sort, world, a) && k < |parent| && l < |parent|
    requires Together(configs, i, k) && Together(configs, i, l) && configs[k].key < configs[l].key
    ensures |a.commRanks| == world && a.commRanks[parent[k]] < a.commRanks[parent[l]]
  {
    assert configs[i].color != -1;
    SplitMembers(parent, configs, i, k, sort, world, a);
    SplitMembers(parent, configs, i, l, sort, world, a);
    var x, y := a.commRanks[parent[k]], a.commRanks[parent[l]];
    NewConfigsAre(parent, configs, i, sort, world);
    EntryOfNew(parent, configs, i, k, sort, world, x);
    EntryOfNew(parent, configs, i, l, sort, world, y);
    var mems := NewConfigs(parent, configs, i, sort);
    assert forall u, v | 0 <= u <= v < |mems| :: mems[u].key <= mems[v].key;
    hide NewConfigs, Together, IsSorter, CommOf, SplitOff;
  }

  /** The old rank of a member of the parent. */
  ghost function OldRank(parent: seq<nat>, q: nat): (k: nat)
    requires q in parent
    ensures k < |parent| && parent[k] == q
  {
    var k: nat :| k < |parent| && parent[k] == q;
    k
  }

  lemma EntriesAreOld(parent: seq<nat>, configs: seq<CommConfig>, i: nat, sort: Sorter, world: nat, x: nat)
    requires MemberList(parent, world) && IsSorter(sort) && |configs| == |parent| && i < |parent|
    requires x < |NewConfigs(parent, configs, i, sort)|
    ensures NewConfigs(parent, configs, i, sort)[x].rootRank in parent
  {
    NewConfigsAre(parent, configs, i, sort, world);
    var mems := NewConfigs(parent, configs, i, sort);
    assert mems[x] in mems;
  }

  lemma SplitSize(parent: seq<nat>, configs: seq<CommConfig>, i: nat, sort: Sorter, world: nat)
    requires MemberList(parent, world) && IsSorter(sort) && |configs| == |parent| && i < |parent|
    ensures |NewConfigs(parent, configs, i, sort)| == |Joining(configs, i)|
  {
    var mems := NewConfigs(parent, configs, i, sort);
    NewConfigsAre(parent, configs, i, sort, world);
    forall x | 0 <= x < |mems| ensures mems[x].rootRank in parent {
      EntriesAreOld(parent, configs, i, sort, world, x);
    }
    var olds := seq(|mems|, x requires 0 <= x < |mems| => OldRank(parent, mems[x].rootRank));
    assert OldsOf(parent, mems, olds);
    hide NewConfigs, IsSorter, DistinctRanks, OldRank, Joining, NoRepeats, OldsOf;
    OldsDistinct(parent, mems, olds);
    forall k: nat ensures k in olds <==> k in Joining(configs, i) {
      OldsAre(parent, configs, i, sort, world, olds, k);
    }
    DistinctSize(olds);
    assert SetOf(olds) == Joining(configs, i);
  }

  ghost predicate OldsOf(parent: seq<nat>, mems: seq<MemCommConfig>, olds: seq<nat>) {
    |olds| == |mems| && forall x | 0 <= x < |mems| :: olds[x] < |parent| && parent[olds[x]] == mems[x].rootRank
  }

  lemma OldsDistinct(parent: seq<nat>, mems: seq<MemCommConfig>, olds: seq<nat>)
    requires DistinctRanks(mems) && OldsOf(parent, mems, olds)
    ensures NoRepeats(olds)
  {
  }

  lemma OldsAre(parent: seq<nat>, configs: seq<CommConfig>, i: nat, sort: Sorter, world: nat, olds: seq<nat>, k: nat)
    requires MemberList(parent, world) && IsSorter(sort) && |configs| == |parent| && i < |parent|
    requires OldsOf(parent, NewConfigs(parent, configs, i, sort), olds)
    ensures k in olds <==> k in Joining(configs, i)
  {
    var mems := NewConfigs(parent, configs, i, sort);
    if k < |parent| {
      TogetherInNew(parent, configs, i, k, sort, world);
      hide NewConfigs, IsSorter, Together;
      if k in olds {
        var x :| 0 <= x < |olds| && olds[x] == k;
        assert RootRanks(mems)[x] == parent[k];
      }
      if parent[k] in RootRanks(mems) {
        var x :| 0 <= x < |mems| && RootRanks(mems)[x] == parent[k];
        assert parent[olds[x]] == parent[k] && olds[x] == k;
      }
    }
  }

  /** The tables that member i ends with: in them are exactly the members of its colour, or i alone if its
      colour is -1; who has the smaller key has the smaller rank; everyone else is a stranger. */
  lemma SplitTables(parent: seq<nat>, configs: seq<CommConfig>, i: nat, k: nat, l: nat, sort: Sorter, world: nat,
                    a: Comm)
    requires MemberList(parent, world) && IsSorter(sort) && |configs| == |parent| && i < |parent|
    requires SplitOff(parent, configs, i, sort, world, a) && k < |parent| && l < |parent|
    ensures |a.commRanks| == |a.rootRanks| == world && a.commWorldSize == |Joining(configs, i)| <= world
    ensures 0 <= a.commRanks[parent[k]] < a.commWorldSize <==> Together(configs, i, k)
    ensures !Together(configs, i, k) ==> a.commRanks[parent[k]] == -1
    ensures Together(configs, i, k) ==> a.rootRanks[a.commRanks[parent[k]]] == parent[k]
    ensures Together(configs, i, k) && Together(configs, i, l) && configs[k].key < configs[l].key ==>
      a.commRanks[parent[k]] < a.commRanks[parent[l]]
  {
    hide *;
    SplitMembers(parent, configs, i, k, sort, world, a);
    SplitSize(parent, configs, i, sort, world);
    if Together(configs, i, k) && Together(configs, i, l) && configs[k].key < configs[l].key {
      SplitOrder(parent, configs, i, k, l, sort, world, a);
    }
  }

  // ---------------------------------------------------------------- the pools of all processes

  /** A communicator as a whole: its members in rank order and the handle each of them has for it. */
  datatype Group = Group(members: seq<nat>, handles: seq<nat>)

  datatype World = World(pools: seq<seq<Comm>>, groups: seq<Group>)

  /** All members have the same tables for it, each with its own rank. */
  ghost predicate Consistent(pools: seq<seq<Comm>>, g: Group) {
    && |g.members| == |g.handles| > 0 && MemberList(g.members, |pools|)
    && forall i | 0 <= i < |g.members| ::
         g.handles[i] < |pools[g.members[i]]| && CommOf(pools[g.members[i]][g.handles[i]], g.members, i, |pools|)
  }

  ghost predicate WorldOk(w: World) {
    forall k | 0 <= k < |w.groups| :: Consistent(w.pools, w.groups[k])
  }

  /** The new communicator of the member with old rank i, at all its members: everyone has pushed it
      onto the end of its own pool. */
  ghost function NewGroup(pools: seq<seq<Comm>>, g: Group, configs: seq<CommConfig>, i: nat, sort: Sorter): Group
    requires |configs| == |g.members| && i < |g.members|
    requires MemberList(g.members, |pools|) && IsSorter(sort)
  {
    NewConfigsAre(g.members, configs, i, sort, |pools|);
    var members := RootRanks(NewConfigs(g.members, configs, i, sort));
    Group(members, seq(|members|, k requires 0 <= k < |members| => |pools[members[k]]|))
  }

  /** All members of group g call RDMA_Comm_split on it and have gathered `configs`. */
  ghost predicate SplitsTo(w: World, g: nat, configs: seq<CommConfig>, sort: Sorter, w': World) {
    && g < |w.groups| && IsSorter(sort) && MemberList(w.groups[g].members, |w.pools|)
    && var group := w.groups[g];
    && |configs| == |group.members| && |w'.pools| == |w.pools|
    && (forall p: nat | p < |w.pools| && p !in group.members :: w'.pools[p] == w.pools[p])
    && (forall i: nat | i < |group.members| ::
          var p := group.members[i];
          && |w'.pools[p]| == |w.pools[p]| + 1 && w'.pools[p][..|w.pools[p]|] == w.pools[p]
          && SplitOff(group.members, configs, i, sort, |w.pools|, w'.pools[p][|w.pools[p]|]))
    && w'.groups == w.groups + seq(|group.members|, i requires 0 <= i < |group.members| =>
                                     NewGroup(w.pools, group, configs, i, sort))
  }

  lemma PoolsGrow(w: World, g: nat, configs: seq<CommConfig>, sort: Sorter, w': World, p: nat)
    requires SplitsTo(w, g, configs, sort, w') && p < |w.pools|
    ensures |w'.pools| == |w.pools| && w.pools[p] <= w'.pools[p]
  {
    var members := w.groups[g].members;
    if p in members {
      var i: nat :| i < |members| && members[i] == p;
      assert w'.pools[p][..|w.pools[p]|] == w.pools[p];
    }
    hide SplitOff, NewGroup, IsSorter;
  }

  lemma OldGroupStays(w: World, g: nat, configs: seq<CommConfig>, sort: Sorter, w': World, h: Group)
    requires SplitsTo(w, g, configs, sort, w') && Consistent(w.pools, h)
    ensures Consistent(w'.pools, h)
  {
    assert |w'.pools| == |w.pools|;
    hide SplitsTo, CommOf;
    forall i | 0 <= i < |h.members| ensures
      h.handles[i] < |w'.pools[h.members[i]]| && CommOf(w'.pools[h.members[i]][h.handles[i]], h.members, i, |w.pools|)
    {
      PoolsGrow(w, g, configs, sort, w', h.members[i]);
      assert w.pools[h.members[i]][h.handles[i]] == w'.pools[h.members[i]][h.handles[i]];
    }
  }

  /** Every member of the new list is an old member, and works out the same list for itself. */
  lemma MemberOfNew(parent: seq<nat>, configs: seq<CommConfig>, i: nat, sort: Sorter, world: nat, k: nat)
    returns (j: nat)
    requires MemberList(parent, world) && IsSorter(sort) && |configs| == |parent| && i < |parent|
    requires k < |NewConfigs(parent, configs, i, sort)|
    ensures j < |parent| && NewConfigs(parent, configs, i, sort)[k].rootRank == parent[j]
    ensures NewConfigs(parent, configs, j, sort) == NewConfigs(parent, configs, i, sort)
  {
    NewConfigsAre(parent, configs, i, sort, world);
    var mems := NewConfigs(parent, configs, i, sort);
    if configs[i].color == RDMA_UNDEFINED {
      j := i;
    } else {
      assert mems[k] in mems;
      j :| 0 <= j < |parent| && configs[j].color == configs[i].color &&
        mems[k] == MemCommConfig(parent[j], configs[j].key);
      hide IsSorter;
      SameColorSameConfigs(parent, configs, i, j, sort);
    }
  }

  lemma RankInNew(mems: seq<MemCommConfig>, a: int, k: int)
    requires DistinctRanks(mems) && 0 <= a < |mems| && 0 <= k < |mems| && mems[a].rootRank == mems[k].rootRank
    ensures a == k
  {
  }

  lemma NewMember(w: World, g: nat, configs: seq<CommConfig>, sort: Sorter, w': World, i: nat, k: nat)
    requires SplitsTo(w, g, configs, sort, w') && i < |w.groups[g].members|
    requires k < |NewGroup(w.pools, w.groups[g], configs, i, sort).members|
    ensures var n := NewGroup(w.pools, w.groups[g], configs, i, sort);
      && |n.members| == |n.handles| && n.members[k] < |w'.pools| == |w.pools|
      && n.handles[k] < |w'.pools[n.members[k]]|
      && CommOf(w'.pools[n.members[k]][n.handles[k]], n.members, k, |w.pools|)
  {
    var parent, world := w.groups[g].members, |w.pools|;
    var mems := NewConfigs(parent, configs, i, sort);
    var j := MemberOfNew(parent, configs, i, sort, world, k);
    NewConfigsAre(parent, configs, i, sort, world);
    var p := parent[j];
    var c := w'.pools[p][|w.pools[p]|];
    assert SplitOff(parent, configs, j, sort, world, c);
    hide NewConfigs, IsSorter;
    RankInNew(mems, c.myCommRank, k);
    hide CommOf;
  }

  lemma NewGroupFits(w: World, g: nat, configs: seq<CommConfig>, sort: Sorter, w': World, i: nat)
    requires SplitsTo(w, g, configs, sort, w') && i < |w.groups[g].members|
    ensures Consistent(w'.pools, NewGroup(w.pools, w.groups[g], configs, i, sort))
  {
    NewConfigsAre(w.groups[g].members, configs, i, sort, |w.pools|);
    var n := NewGroup(w.pools, w.groups[g], configs, i, sort);
    assert |n.members| == |n.handles| > 0 && MemberList(n.members, |w'.pools|);
    hide NewGroup, SplitsTo, CommOf, IsSorter, NewConfigs, MemberList;
    forall k | 0 <= k < |n.members| ensures
      n.handles[k] < |w'.pools[n.members[k]]| && CommOf(w'.pools[n.members[k]][n.handles[k]], n.members, k, |w'.pools|)
    {
      NewMember(w, g, configs, sort, w', i, k);
    }
  }

  lemma SplitKeepsOk(w: World, g: nat, configs: seq<CommConfig>, sort: Sorter, w': World)
    requires WorldOk(w) && SplitsTo(w, g, configs, sort, w')
    ensures WorldOk(w')
  {
    var n := |w.groups|;
    forall k | 0 <= k < |w'.groups| ensures Consistent(w'.pools, w'.groups[k]) {
      if k < n {
        OldGroupStays(w, g, configs, sort, w', w.groups[k]);
      } else {
        NewGroupFits(w, g, configs, sort, w', k - n);
      }
      hide Consistent, NewGroup, SplitOff;
    }
  }

  // ---------------------------------------------------------------- any tree of splits

  datatype SplitCall = SplitCall(group: nat, configs: seq<CommConfig>)

  ghost predicate Runs(w: World, calls: seq<SplitCall>, sort: Sorter, fin: World)
    decreases |calls|
  {
    if calls == [] then w == fin
    else exists mid :: SplitsTo(w, calls[0].group, calls[0].configs, sort, mid) && Runs(mid, calls[1..], sort, fin)
  }

  ghost predicate IsStart(w: World) {
    && |w.groups| == 1 && |w.pools| > 0
    && w.groups[0] == Group(Everyone(|w.pools|), seq(|w.pools|, _ => 0))
    && forall p: nat | p < |w.pools| :: |w.pools[p]| == 1 && CommOf(w.pools[p][0], Everyone(|w.pools|), p, |w.pools|)
  }

  lemma {:induction false} RunKeepsOk(w: World, calls: seq<SplitCall>, sort: Sorter, fin: World)
    requires WorldOk(w) && Runs(w, calls, sort, fin)
    ensures WorldOk(fin)
    decreases |calls|
  {
    hide SplitsTo, WorldOk;
    if calls != [] {
      var mid :| SplitsTo(w, calls[0].group, calls[0].configs, sort, mid) && Runs(mid, calls[1..], sort, fin);
      SplitKeepsOk(w, calls[0].group, calls[0].configs, sort, mid);
      RunKeepsOk(mid, calls[1..], sort, fin);
    }
  }

  /** After any tree of splits, every communicator that has come out of it is the same for all its
      members: two members p and q have equal tables and sizes, whatever handles they have for it,
      and each finds the other's root rank under the other's communicator rank. */
  lemma AllTablesAgree(start: World, calls: seq<SplitCall>, sort: Sorter, w: World, g: nat, i: nat, j: nat)
    requires IsStart(start) && Runs(start, calls, sort, w)
    requires g < |w.groups| && i < |w.groups[g].members| && j < |w.groups[g].members|
    ensures var (members, handles) := (w.groups[g].members, w.groups[g].handles);
      && |handles| == |members| && members[i] < |w.pools| && members[j] < |w.pools|
      && handles[i] < |w.pools[members[i]]| && handles[j] < |w.pools[members[j]]|
      && var (a, b) := (w.pools[members[i]][handles[i]], w.pools[members[j]][handles[j]]);
      && a.commRanks == b.commRanks && a.rootRanks == b.rootRanks && a.commWorldSize == b.commWorldSize == |members|
      && a.myCommRank == i && b.myCommRank == j
      && j < |a.rootRanks| && i < |b.rootRanks| && a.rootRanks[j] == members[j] && b.rootRanks[i] == members[i]
  {
    assert WorldOk(start);
    RunKeepsOk(start, calls, sort, w);
    var group := w.groups[g];
    assert Consistent(w.pools, group);
    hide Runs, IsStart, WorldOk;
    var a, b := w.pools[group.members[i]][group.handles[i]], w.pools[group.members[j]][group.handles[j]];
    TablesAreDetermined(a.commRanks, a.rootRanks, b.commRanks, b.rootRanks, group.members, |w.pools|);
  }
}
