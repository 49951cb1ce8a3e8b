/**
  RDMA_Comm_split: the members gather each other's colours and keys with Allgather_exp, and every
  one of them splits by itself.  And where the tables of a communicator lead: to the sockets of the
  mesh.
 */
module CommSplit {
  import opened Wrappers
  import opened Network
  import opened Buffers
  import opened Endpoints
  import opened Jobs
  import opened MpiRing
  import opened Filling
  import opened RingResults
  import R = MpiReduce
  import C = Communicators
  import S = Splits
  import M = Mesh

  // ---------------------------------------------------------------- integers in a byte buffer

  function Unsigned(x: int): int {
    x % 0x1_0000_0000
  }

  /** The four bytes of an int, lowest first. */
  function IntBytes(x: int): (b: seq<int>)
    ensures |b| == 4
  {
    var u := Unsigned(x);
    [u % 256, u / 256 % 256, u / 65536 % 256, u / 16777216]
  }

  function BytesInt(b: seq<int>): int
    requires |b| == 4
  {
    var u := b[0] + 256 * b[1] + 65536 * b[2] + 16777216 * b[3];
    if u >= 0x8000_0000 then u - 0x1_0000_0000 else u
  }

  lemma BytesReadBack(x: int)
    requires -0x8000_0000 <= x < 0x8000_0000
    ensures BytesInt(IntBytes(x)) == x
  {
    var u := Unsigned(x);
    assert u == u % 256 + 256 * (u / 256 % 256) + 65536 * (u / 65536 % 256) + 16777216 * (u / 16777216);
  }

  /** The i-th int of a buffer. */
  function IntAt(buf: seq<int>, i: nat): int
    requires 4 * i + 4 <= |buf|
  {
    BytesInt(buf[4 * i..4 * i + 4])
  }

  function ConfigAt(buf: seq<int>, k: nat): C.CommConfig
    requires 8 * k + 8 <= |buf|
  {
    C.CommConfig(IntAt(buf, 2 * k), IntAt(buf, 2 * k + 1))
  }

  /** The loop that reads the gathered pairs. */
  method ReadConfigs(recvbuf: seq<int>, commSize: nat) returns (configs: seq<C.CommConfig>)
    requires |recvbuf| == 8 * commSize
    ensures |configs| == commSize && forall k | 0 <= k < commSize :: configs[k] == ConfigAt(recvbuf, k)
  {
    configs := [];
    var recvbufSize := commSize * 2;
    var i := 0;
    while i < recvbufSize
      invariant i <= recvbufSize && i == 2 * |configs|
      invariant forall k | 0 <= k < |configs| :: configs[k] == ConfigAt(recvbuf, k)
    {
      configs := configs + [C.CommConfig(IntAt(recvbuf, i), IntAt(recvbuf, i + 1))];
      i := i + 2;
    }
  }

  /** What a member puts into the gathering. */
  ghost function ConfigBytes(config: C.CommConfig): (b: Message)
    ensures |b| == 8
  {
    IntBytes(config.color) + IntBytes(config.key)
  }

  ghost predicate InInt32(config: C.CommConfig) {
    -0x8000_0000 <= config.color < 0x8000_0000 && -0x8000_0000 <= config.key < 0x8000_0000
  }

  lemma ConfigReadsBack(buf: seq<int>, k: nat, config: C.CommConfig)
    requires 8 * k + 8 <= |buf| && buf[8 * k..8 * k + 8] == ConfigBytes(config) && InInt32(config)
    ensures ConfigAt(buf, k) == config
  {
    var b := ConfigBytes(config);
    assert buf[4 * (2 * k)..4 * (2 * k) + 4] == b[..4] == IntBytes(config.color);
    assert buf[4 * (2 * k + 1)..4 * (2 * k + 1) + 4] == b[4..] == IntBytes(config.key);
    BytesReadBack(config.color);
    BytesReadBack(config.key);
    hide IntBytes, BytesInt;
  }

  /** The pairs in a gathered buffer. */
  function ReadAs(buf: seq<int>, n: nat): (configs: seq<C.CommConfig>)
    requires |buf| == 8 * n
    ensures |configs| == n && forall k | 0 <= k < n :: configs[k] == ConfigAt(buf, k)
  {
    seq(n, k requires 0 <= k < n => ConfigAt(buf, k))
  }

  /** The members of the communicator contribute these pairs to the gathering inside the split. */
  ghost predicate Contribute(X: seq<History>, contrib: Contribution, configs: seq<C.CommConfig>) {
    |configs| == |X| && forall s: nat | s < |X| :: contrib(s, X[s]) == ConfigBytes(configs[s]) && InInt32(configs[s])
  }

  lemma EightBytesEach(X: seq<History>, contrib: Contribution, configs: seq<C.CommConfig>, r: nat)
    requires Contribute(X, contrib, configs) && r < |X|
    ensures |contrib(r, X[r])| == 8 && AllOfLength(Contributions(X, contrib), 8)
    ensures AllAtLeast(Contributions(X, contrib), 8) &&
            CutAll(Contributions(X, contrib), 8) == Contributions(X, contrib)
  {
    hide ConfigBytes, InInt32;
    assert AllOfLength(Contributions(X, contrib), 8);
    NothingCut(Contributions(X, contrib), 8);
  }

  /** What is in a buffer filled with the pairs can be read out of it again. */
  lemma PairsReadBack(X: seq<History>, contrib: Contribution, configs: seq<C.CommConfig>, buf: seq<int>, buf': seq<int>)
    requires Contribute(X, contrib, configs) && |X| > 0 && |buf| == 8 * |X|
    requires Filled(RankPieces(BlockOffsets(|X|, 8), Contributions(X, contrib)), buf, buf')
    ensures |buf'| == 8 * |X| && ReadAs(buf', |X|) == configs
  {
    var data := Contributions(X, contrib);
    EightBytesEach(X, contrib, configs, 0);
    assert |buf'| == |buf|;
    hide Filled, RankPieces, CutAll, Contribute;
    forall k: nat | k < |X| ensures ConfigAt(buf', k) == configs[k] {
      PairReadsBack(X, contrib, configs, buf, buf', k);
    }
  }

  lemma PairReadsBack(X: seq<History>, contrib: Contribution, configs: seq<C.CommConfig>, buf: seq<int>,
                      buf': seq<int>, k: nat)
    requires Contribute(X, contrib, configs) && k < |X| && |buf'| == |buf| == 8 * |X|
    requires AllOfLength(Contributions(X, contrib), 8)
    requires Filled(RankPieces(BlockOffsets(|X|, 8), Contributions(X, contrib)), buf, buf')
    ensures ConfigAt(buf', k) == configs[k]
  {
    assert BlockAt(k, 8) == 8 * k && BlockAt(|X|, 8) == 8 * |X|;
    assert Contributions(X, contrib)[k] == ConfigBytes(configs[k]) && InInt32(configs[k]);
    hide Filled, RankPieces, Contribute, ConfigBytes, InInt32, AllOfLength, BlockAt;
    FilledBlock(|X|, 8, Contributions(X, contrib), buf, buf', k);
    ConfigReadsBack(buf', k, configs[k]);
  }

  /** After the Allgather_exp of RDMA_Comm_split, at whatever moment of whatever interleaving, every member
      reads the same list out of its buffer: the colours and keys of all members, by rank. */
  lemma EveryoneReadsTheSame(w: Moment, contrib: Contribution, configs: seq<C.CommConfig>, r: nat, got: History,
                             feed: seq<Option<Message>>, run: Run)
    requires w.calls == [Gathering(contrib)] && TookIn(w, r, got) && FedWith(feed, got)
    requires Contribute(Entering(w), contrib, configs) && |run.buf| == 8 * |w.X|
    requires RanRing(AllgatherCall(|w.X|, r, ConfigBytes(configs[r]), 8), feed, run)
    ensures run.status == 0 && |run.buf'| == 8 * |w.X| && ReadAs(run.buf', |w.X|) == configs
  {
    var X := Entering(w);
    assert contrib(r, X[r]) == ConfigBytes(configs[r]);
    EightBytesEach(X, contrib, configs, r);
    hide TookIn, RanRing, Contribute, FedWith, Entering, AllAtLeast, ConfigBytes, Contributions, CutAll;
    AllgatherExpGathers(w, contrib, 8, r, got, feed, run);
    hide Filled, RankPieces;
    PairsReadBack(X, contrib, configs, run.buf, run.buf');
  }

  // ---------------------------------------------------------------- RDMA_Comm_split

  /** What has to arrive while a member is in RDMA_Comm_split: eight bytes from everyone, and the messages of
      the barrier. */
  ghost predicate SplitArrives(feed: seq<Option<Message>>, n: nat, me: int) {
    && 2 * n - 2 <= |feed| && LongEnough(feed, n - 1, 8) && 2 <= n
    && (me == 0 ==> R.AllArrive(feed[n - 1..], n - 1, 0))
  }

  /** RDMA_Comm_split at the member `me`.  `run` is the gathering inside it; the new communicator is what
      this member makes, by itself, of the list that it has read out of its own buffer. */
  method Split(process: C.RdmaProcess, ep: Endpoint, from: int, color: int, key: int, sort: C.Sorter,
               ghost parent: seq<nat>)
    returns (r: Result<nat, C.Error>, ghost run: Run)
    requires key >= 0 && color >= -1
    requires C.IsSorter(sort) && process.myRootRank < process.worldSize && from < |process.commPool|
    requires 0 <= from ==>
      var c := process.commPool[from];
      && C.CommOf(c, parent, c.myCommRank, process.worldSize) && parent[c.myCommRank] == process.myRootRank
      && ep.size == |parent| && ep.rank == c.myCommRank && SplitArrives(ep.feed, ep.size, ep.rank)
    modifies process, ep
    ensures from < 0 ==> r == Err(C.InvalidArgument) && unchanged(process) && unchanged(ep)
    ensures 0 <= from ==>
      && RanRing(AllgatherCall(ep.size, ep.rank, ConfigBytes(C.CommConfig(color, key)), 8), old(ep.feed), run)
      && |run.buf| == 8 * |parent| && run.log == old(ep.log)
      && if run.status != 0 then r == Err(C.Internal) && unchanged(process)
         else
           var pool := old(process.commPool);
           && r == Ok(|pool|) && |process.commPool| == |pool| + 1 && process.commPool[..|pool|] == pool
           && |run.buf'| == 8 * |parent|
           && C.SplitOff(parent, ReadAs(run.buf', |parent|), pool[from].myCommRank, sort, process.worldSize,
                         process.commPool[|pool|])
           && R.BarrierEffect(ep.size, ep.rank, old(ep.feed)[ep.size - 1..], run.log', ep.log)
  {
    if from < 0 {
      run := Run([], [], [], [], 1);
      return Err(C.InvalidArgument), run;
    }
    var status, recvbuf;
    status, recvbuf, run := GatherConfigs(ep, color, key);
    if status != 0 {
      return Err(C.Internal), run;
    }
    var configs := ReadConfigs(recvbuf, ep.size);
    assert configs == ReadAs(recvbuf, ep.size);
    hide RanRing, ReadAs, ConfigAt, R.BarrierEffect, C.CommOf, C.SplitOff, C.IsSorter, ConfigBytes;
    r := process.SplitComm(from, configs, sort, parent);
    status := R.Barrier(ep);
  }

  /** The gathering inside RDMA_Comm_split, between buffers that it allocates. */
  method GatherConfigs(ep: Endpoint, color: int, key: int) returns (status: int, recvbuf: seq<int>, ghost run: Run)
    requires ep.rank < ep.size && SplitArrives(ep.feed, ep.size, ep.rank)
    modifies ep
    ensures RanRing(AllgatherCall(ep.size, ep.rank, ConfigBytes(C.CommConfig(color, key)), 8), old(ep.feed), run)
    ensures |run.buf| == |run.buf'| == 8 * ep.size && run.log == old(ep.log)
    ensures run.log' == ep.log && run.buf' == recvbuf && run.status == status
    ensures status == 0 ==> ep.feed == old(ep.feed)[ep.size - 1..]
  {
    var bytes := IntBytes(color) + IntBytes(key);
    var sendbuf := new int[8](i requires 0 <= i < 8 => bytes[i]);
    var received := new int[8 * ep.size];
    ghost var buf := received[..];
    assert sendbuf[..8] == ConfigBytes(C.CommConfig(color, key));
    assert BlockAt(ep.size - 1, 8) == 8 * ep.size - 8;
    hide IntBytes, ConfigBytes, RingEffect, Room, BlockAt, AllgatherCall, LongEnough;
    status := AllgatherExp(ep, sendbuf, 2, 1, received, 2, 1);
    recvbuf := received[..];
    run := Run(old(ep.log), buf, ep.log, recvbuf, status);
  }

  /** The members of a group split it, each by the list that it has read itself. */
  ghost predicate SplitByReading(w: S.World, g: nat, lists: seq<seq<C.CommConfig>>, sort: C.Sorter, w': S.World) {
    && g < |w.groups| && C.IsSorter(sort) && C.MemberList(w.groups[g].members, |w.pools|)
    && var group := w.groups[g];
    && |lists| == |group.members| && |w'.pools| == |w.pools|
    && (forall i: nat | i < |lists| :: |lists[i]| == |group.members|)
    && (forall p: nat | p < |w.pools| && p !in group.members :: w'.pools[p] == w.pools[p])
    && (forall i: nat | i < |group.members| ::
          var p := group.members[i];
          && |w'.pools[p]| == |w.pools[p]| + 1 && w'.pools[p][..|w.pools[p]|] == w.pools[p]
          && C.SplitOff(group.members, lists[i], i, sort, |w.pools|, w'.pools[p][|w.pools[p]|]))
    && w'.groups == w.groups + seq(|group.members|, i requires 0 <= i < |group.members| =>
                                     S.NewGroup(w.pools, group, lists[i], i, sort))
  }

  lemma ReadingAlikeIsSplitting(w: S.World, g: nat, lists: seq<seq<C.CommConfig>>, configs: seq<C.CommConfig>,
                                sort: C.Sorter, w': S.World)
    requires SplitByReading(w, g, lists, sort, w') && forall i: nat | i < |lists| :: lists[i] == configs
    requires |lists| > 0
    ensures S.SplitsTo(w, g, configs, sort, w')
  {
    var group := w.groups[g];
    assert |configs| == |lists[0]| == |group.members|;
    assert forall i: nat | i < |group.members| :: lists[i] == configs;
    hide S.NewGroup, C.SplitOff, C.IsSorter, C.MemberList;
    SameNewGroups(w, group, lists, configs, sort);
  }

  lemma SameNewGroups(w: S.World, group: S.Group, lists: seq<seq<C.CommConfig>>, configs: seq<C.CommConfig>,
                      sort: C.Sorter)
    requires C.MemberList(group.members, |w.pools|) && C.IsSorter(sort)
    requires |lists| == |group.members| == |configs| && forall i: nat | i < |lists| :: lists[i] == configs
    ensures seq(|group.members|, i requires 0 <= i < |group.members| => S.NewGroup(w.pools, group, lists[i], i, sort))
        == seq(|group.members|, i requires 0 <= i < |group.members| => S.NewGroup(w.pools, group, configs, i, sort))
  {
    hide S.NewGroup, C.IsSorter, C.MemberList;
  }

  /** Member i's part in the split at a moment of an interleaving: it has taken in what the gathering brings
      and has read `read` out of its own buffer. */
  ghost predicate HasRead(m: Moment, configs: seq<C.CommConfig>, i: nat, feed: seq<Option<Message>>, run: Run,
                          read: seq<C.CommConfig>)
  {
    && i < |configs| == |m.X| && |run.buf| == |run.buf'| == 8 * |m.X| && read == ReadAs(run.buf', |m.X|)
    && |m.X| >= 2 && RanRing(AllgatherCall(|m.X|, i, ConfigBytes(configs[i]), 8), feed, run)
    && exists got: History :: TookIn(m, i, got) && FedWith(feed, got)
  }

  /** RDMA_Comm_split on all members of a group, whatever they called before and call after, and however
      their steps interleave: that each of them splits by the list it has read in its own buffer is a split
      by one list, that of the colours and keys the members have passed; so all communicators, old
      and new, stay consistent. */
  lemma MembersSplitAlike(m: Moment, contrib: Contribution, configs: seq<C.CommConfig>,
                          feeds: seq<seq<Option<Message>>>, runs: seq<Run>, lists: seq<seq<C.CommConfig>>, w: S.World,
                          g: nat, sort: C.Sorter, w': S.World)
    requires m.calls == [Gathering(contrib)] && Occurs(m) && Contribute(Entering(m), contrib, configs)
    requires |feeds| == |runs| == |lists| == |configs| > 0
    requires forall i: nat | i < |configs| :: HasRead(m, configs, i, feeds[i], runs[i], lists[i])
    requires S.WorldOk(w) && SplitByReading(w, g, lists, sort, w')
    ensures S.SplitsTo(w, g, configs, sort, w') && S.WorldOk(w')
  {
    hide S.WorldOk, SplitByReading, Occurs, Contribute, RanRing, TookIn, Entering, ReadAs, FedWith, S.SplitsTo;
    forall i: nat | i < |lists| ensures lists[i] == configs {
      assert HasRead(m, configs, i, feeds[i], runs[i], lists[i]);
      var got: History :| TookIn(m, i, got) && FedWith(feeds[i], got);
      EveryoneReadsTheSame(m, contrib, configs, i, got, feeds[i], runs[i]);
    }
    ReadingAlikeIsSplitting(w, g, lists, configs, sort, w');
    S.SplitKeepsOk(w, g, configs, sort, w');
  }

  // ---------------------------------------------------------------- sockets

  /** commGetSocket: the socket for a rank of a communicator. */
  function GetSocket(c: C.Comm, rank: nat, socketPool: seq<Option<M.Socket>>): (s: Option<M.Socket>)
    requires rank < |c.rootRanks| && 0 <= c.rootRanks[rank] < |socketPool|
  {
    socketPool[c.rootRanks[rank]]
  }

  /** In every communicator that any tree of splits yields, two members' sockets for each other, looked
      up by communicator rank, are the two ends of one connection. */
  lemma MembersReachEachOther(start: S.World, calls: seq<S.SplitCall>, sort: C.Sorter, w: S.World, g: nat, i: nat,
                              j: nat, mesh: M.State)
    requires S.IsStart(start) && S.Runs(start, calls, sort, w) && g < |w.groups|
    requires i < |w.groups[g].members| && j < |w.groups[g].members| && i != j
    requires M.Reachable(|w.pools|, mesh) && M.AllReady(mesh)
    ensures var (members, handles) := (w.groups[g].members, w.groups[g].handles);
      && |handles| == |members| && members[i] < |w.pools| == |mesh.procs| && members[j] < |w.pools|
      && handles[i] < |w.pools[members[i]]| && handles[j] < |w.pools[members[j]]|
      && var (a, b) := (w.pools[members[i]][handles[i]], w.pools[members[j]][handles[j]]);
      && j < |a.rootRanks| && i < |b.rootRanks|
      && 0 <= a.rootRanks[j] < |mesh.procs[members[i]].pool| && 0 <= b.rootRanks[i] < |mesh.procs[members[j]].pool|
      && M.TwoEnds(GetSocket(a, j, mesh.procs[members[i]].pool), GetSocket(b, i, mesh.procs[members[j]].pool))
  {
    S.AllTablesAgree(start, calls, sort, w, g, i, j);
    DifferentMembers(start, calls, sort, w, g, i, j);
    var members := w.groups[g].members;
    M.SocketsMeet(|w.pools|, mesh, members[i], members[j]);
    hide S.IsStart, S.Runs, M.Reachable, M.AllReady, M.TwoEnds;
  }

  lemma DifferentMembers(start: S.World, calls: seq<S.SplitCall>, sort: C.Sorter, w: S.World, g: nat, i: nat, j: nat)
    requires S.IsStart(start) && S.Runs(start, calls, sort, w) && g < |w.groups|
    requires i < |w.groups[g].members| && j < |w.groups[g].members| && i != j
    ensures w.groups[g].members[i] != w.groups[g].members[j]
  {
    assert S.WorldOk(start);
    S.RunKeepsOk(start, calls, sort, w);
    assert S.Consistent(w.pools, w.groups[g]);
    hide S.Runs, S.IsStart, S.WorldOk;
  }
}
