/**
  What the collectives around a root leave in the buffers, in every interleaving of ranks that call them
  among any other collectives.
 */
module RootedResults {
  import opened Sequences
  import opened Wrappers
  import opened Network
  import opened Offsets
  import opened Buffers
  import opened Endpoints
  import opened Collectives
  import opened Jobs
  import opened MpiRooted
  import opened MpiReduce
  import opened Delivery
  import opened Filling

  /** Every rank insists on the length it passes as its receive count. */
  ghost function LengthTold(len: Width): Told {
    (s: nat, d: nat, h: History) => Some(len(d, h))
  }

  // ---------------------------------------------------------------- Gather and Allgather

  /** The messages are the data of the other ranks, in the order of the ranks. */
  ghost predicate FromOthers(c: GatherCall, got: History, data: seq<Message>) {
    && c.r < c.n && |got| == c.n - 1 && |data| == c.n && AllOfLength(data, c.rc) && data[c.r] == c.own
    && forall k: nat | k < c.n - 1 :: got[k] == data[Skip(c.r, k)]
  }

  lemma GatherPieces(c: GatherCall, got: History, data: seq<Message>)
    requires FromOthers(c, got, data)
    ensures BlockPieces(c, got, c.n) == RankPieces(BlockOffsets(c.n, c.rc), data)
  {
  }

  lemma GatherCompletes(c: GatherCall, feed: seq<Option<Message>>, got: History, run: Run)
    requires RanGather(c, feed, run) && FedWith(feed, got) && |got| == c.n - 1
    requires forall k: nat | k < c.n - 1 :: |got[k]| == c.rc
    ensures run.status == 0
    ensures AllFit(run.buf, BlockPieces(c, got, c.n)) && run.buf' == PutAll(run.buf, BlockPieces(c, got, c.n))
  {
    TakenFed(feed, got);
    AcceptedIs(feed, Uniform(c.n - 1, c.rc), 0, c.n - 1, c.n - 1);
    hide BlockPieces, TurnLog, PutAll, AllFit, BlocksFit;
  }

  lemma GatherFills(c: GatherCall, feed: seq<Option<Message>>, got: History, data: seq<Message>, run: Run)
    requires RanGather(c, feed, run) && FedWith(feed, got) && FromOthers(c, got, data)
    ensures run.status == 0 && Filled(RankPieces(BlockOffsets(c.n, c.rc), data), run.buf, run.buf')
  {
    var ps := RankPieces(BlockOffsets(c.n, c.rc), data);
    GatherCompletes(c, feed, got, run);
    GatherPieces(c, got, data);
    BlocksDoNotOverlap(c.n, c.rc, data);
    var id := seq(c.n, k requires 0 <= k < c.n => k as nat);
    assert SamePieces(ps, ps, id, id);
    hide BlockPieces, TurnLog, PutAll, Apart, FilledAt, AllFit, GatherEffect, SamePieces, RankPieces, RanGather,
         FromOthers;
    PutAllFills(run.buf, ps, ps, id, id);
  }

  lemma OthersData(X: seq<History>, contrib: Contribution, c: Collective, r: nat, rc: nat, mine: seq<Action>)
    requires Valid(c, |X|) && r < |X| && (c.Turns? || (c.FanIn? && c.root == r)) && c.pay == ToAll(contrib)
    requires AllOfLength(Contributions(X, contrib), rc)
    ensures FromOthers(GatherCall(|X|, r, contrib(r, X[r]), rc, mine), Receives(c, X, r), Contributions(X, contrib))
  {
  }

  /** What everyone contributes has the length that r wants, if the others' lengths fit and r's own does. */
  lemma FitMeansLength(X: seq<History>, contrib: Contribution, c: Collective, len: Width, r: nat)
    requires Valid(c, |X|) && r < |X| && LengthsFit(c, X) && (c.Turns? || (c.FanIn? && c.root == r))
    requires c.pay == ToAll(contrib) && c.told == LengthTold(len) && |contrib(r, X[r])| == len(r, X[r])
    ensures AllOfLength(Contributions(X, contrib), len(r, X[r]))
  {
    forall s: nat | s < |X| ensures |contrib(s, X[s])| == len(r, X[r]) {
      if s != r {
        assert Talks(c, |X|, s, r);
        assert Suits(ToldIn(c)(s, r, X[r]), c.pay(s, r, X[s]));
      }
    }
  }

  ghost function Collecting(root: nat, contrib: Contribution, len: Width): Collective {
    FanIn(root, ToAll(contrib), LengthTold(len))
  }

  /** Gather, at a moment of any interleaving at which the root has taken in what the call brings: block j
      of the root's receive buffer is rank j's contribution, the result code is 0, no other cell
      changes, and what the root has sent and received is what the network has run for it. */
  lemma GatherGathers(w: Moment, contrib: Contribution, len: Width, root: nat, got: History,
                      feed: seq<Option<Message>>, run: Run)
    requires w.calls == [Collecting(root, contrib, len)] && TookIn(w, root, got) && FedWith(feed, got)
    requires |contrib(root, Entering(w)[root])| == len(root, Entering(w)[root])
    requires var X := Entering(w); RanGather(GatherCall(|X|, root, contrib(root, X[root]), len(root, X[root]), []),
                                             feed, run)
    ensures var X := Entering(w);
      && root < |X| && run.status == 0
      && Filled(RankPieces(BlockOffsets(|X|, len(root, X[root])), Contributions(X, contrib)), run.buf, run.buf')
      && Performed(ProgramOf(Collecting(root, contrib, len), |X|, root), X[root], run)
  {
    OneCallGetsItsOwn(w, Collecting(root, contrib, len), root, got);
    var X, call := Entering(w), Collecting(root, contrib, len);
    var c := GatherCall(|X|, root, contrib(root, X[root]), len(root, X[root]), []);
    FitMeansLength(X, contrib, call, len, root);
    OthersData(X, contrib, call, root, len(root, X[root]), []);
    hide TookIn, RanGather, Performed, Performs, Filled, RankPieces, Receives, Entering, FromOthers, LengthsFit,
         AllOfLength;
    GatherFills(c, feed, got, Contributions(X, contrib), run);
    var actions := GatherPerforms(c, ToAll(contrib), LengthTold(len), X[root], feed, run);
    ActionsPerformed(FanInProgram(|X|, root, root, ToAll(contrib), LengthTold(len)), X[root], run, actions);
  }

  ghost function Announcing(contrib: Contribution, len: Width): Collective {
    Turns(ToAll(contrib), LengthTold(len))
  }

  /** Allgather, the loop of broadcasts, likewise: block j of every rank's receive buffer is rank j's
      contribution and nothing else changes. */
  lemma AllgatherGathers(w: Moment, contrib: Contribution, len: Width, r: nat, got: History,
                         feed: seq<Option<Message>>, run: Run)
    requires w.calls == [Announcing(contrib, len)] && TookIn(w, r, got) && FedWith(feed, got)
    requires |contrib(r, Entering(w)[r])| == len(r, Entering(w)[r])
    requires var X := Entering(w); RanGather(AllgatherCall(|X|, r, contrib(r, X[r]), len(r, X[r])), feed, run)
    ensures var X := Entering(w);
      && run.status == 0
      && Filled(RankPieces(BlockOffsets(|X|, len(r, X[r])), Contributions(X, contrib)), run.buf, run.buf')
      && Performed(ProgramOf(Announcing(contrib, len), |X|, r), X[r], run)
  {
    OneCallGetsItsOwn(w, Announcing(contrib, len), r, got);
    var X, call := Entering(w), Announcing(contrib, len);
    var c := AllgatherCall(|X|, r, contrib(r, X[r]), len(r, X[r]));
    FitMeansLength(X, contrib, call, len, r);
    OthersData(X, contrib, call, r, len(r, X[r]), c.mine);
    hide TookIn, RanGather, Performed, Performs, Filled, RankPieces, Receives, Entering, FromOthers, LengthsFit,
         AllOfLength;
    GatherFills(c, feed, got, Contributions(X, contrib), run);
    var actions := AllgatherPerforms(c, ToAll(contrib), LengthTold(len), X[r], feed, run);
    ActionsPerformed(TurnsProgram(|X|, r, ToAll(contrib), LengthTold(len)), X[r], run, actions);
  }

  // ---------------------------------------------------------------- Bcast and Scatter

  /** The buffer and the code of Bcast, from what arrives. */
  lemma BcastLeaves(X: seq<History>, contrib: Contribution, root: nat, r: nat, at: nat, len: nat, got: History,
                    feed: seq<Option<Message>>, run: Run)
    requires r < |X| && root < |X| && got == Receives(FanOut(root, ToAll(contrib)), X, r) && FedWith(feed, got)
    requires RanBcast(|X|, r, root, at, len, feed, run)
    requires r == root ==> run.buf[at..at + len] == contrib(root, X[root])
    ensures var data := contrib(root, X[root]);
      && run.status == (if |data| == len then 0 else 5)
      && run.buf' == (if |data| == len then Put(run.buf, Piece(at, data)) else run.buf)
  {
    var data := contrib(root, X[root]);
    if r == root {
      assert Put(run.buf, Piece(at, data)) == run.buf;
    } else {
      assert got == [data] && feed[0] == Some(got[0]);
    }
  }

  lemma BcastIsPerformed(X: seq<History>, contrib: Contribution, root: nat, r: nat, at: nat, len: nat, got: History,
                         feed: seq<Option<Message>>, run: Run)
    requires r < |X| && root < |X| && got == Receives(FanOut(root, ToAll(contrib)), X, r) && FedWith(feed, got)
    requires RanBcast(|X|, r, root, at, len, feed, run)
    requires r == root ==> run.buf[at..at + len] == contrib(root, X[root])
    ensures Performed(ProgramOf(FanOut(root, ToAll(contrib)), |X|, r), X[r], run)
  {
    if r != root {
      assert feed[0] == Some(got[0]);
    }
    hide Performed, Performs, Receives, FanOutProgram;
    var actions := BcastPerforms(|X|, r, root, at, len, ToAll(contrib), X[r], feed, run);
    ActionsPerformed(FanOutProgram(|X|, root, r, ToAll(contrib)), X[r], run, actions);
  }

  /** Bcast at rank r with room for `len` cells at offset `at`: code 0 if and only if the root has sent as
      many; then they are in their place and everything else is as it was, otherwise the code is 5 and the
      buffer is as it was.  The root's buffer never changes. */
  lemma BcastReaches(w: Moment, contrib: Contribution, root: nat, r: nat, at: nat, len: nat, got: History,
                     feed: seq<Option<Message>>, run: Run)
    requires w.calls == [FanOut(root, ToAll(contrib))] && TookIn(w, r, got) && FedWith(feed, got)
    requires RanBcast(|w.X|, r, root, at, len, feed, run)
    requires r == root ==> run.buf[at..at + len] == contrib(root, Entering(w)[root])
    ensures var X := Entering(w);
      var data := contrib(root, X[root]);
      && run.status == (if |data| == len then 0 else 5)
      && run.buf' == (if |data| == len then Put(run.buf, Piece(at, data)) else run.buf)
      && Performed(ProgramOf(FanOut(root, ToAll(contrib)), |X|, r), X[r], run)
  {
    var c := FanOut(root, ToAll(contrib));
    OneCallGetsItsOwn(w, c, r, got);
    assert r < |w.X| == |Entering(w)| && root < |w.X|;
    hide *;
    BcastLeaves(Entering(w), contrib, root, r, at, len, got, feed, run);
    BcastIsPerformed(Entering(w), contrib, root, r, at, len, got, feed, run);
  }

  /** Scatter at rank r, which asks for `rc` cells: every rank other than the root has code 0 and block r
      of the root's buffer at the front of its own if and only if the root's blocks are as long, and
      code 5 and its buffer as it was otherwise; the root always keeps its own block. */
  lemma ScatterReaches(w: Moment, send: Contribution, width: Width, root: nat, r: nat, rc: nat, sbuf: seq<int>,
                       got: History, feed: seq<Option<Message>>, run: Run)
    requires w.calls == [FanOut(root, Scattered(send, width))] && TookIn(w, r, got) && FedWith(feed, got)
    requires root < |w.X| && HasBlocks(send(root, Entering(w)[root]), |w.X|, width(root, Entering(w)[root]))
    requires r == root ==> sbuf == send(root, Entering(w)[root])
    requires RanScatter(|w.X|, r, root, sbuf, width(root, Entering(w)[root]), rc, feed, run)
    ensures var X := Entering(w);
      var data := BlockOrNone(send(root, X[root]), r, width(root, X[root]));
      && |data| == width(root, X[root])
      && run.status == (if r == root || |data| == rc then 0 else 5)
      && run.buf' == (if r == root || |data| == rc then Put(run.buf, Piece(0, data)) else run.buf)
      && Performed(ProgramOf(FanOut(root, Scattered(send, width)), |X|, r), X[r], run)
  {
    OneCallGetsItsOwn(w, FanOut(root, Scattered(send, width)), r, got);
    var X := Entering(w);
    var sc := width(root, X[root]);
    var data := BlockOrNone(send(root, X[root]), r, sc);
    BlocksThere(send(root, X[root]), |X|, sc);
    assert data == Block(send(root, X[root]), r, sc);
    hide BlockAt, Block, HasBlocks, BlockOrNone;
    if r != root {
      assert got == [data] && feed[0] == Some(got[0]);
    } else {
      assert forall d: nat | d < |X| :: Scattered(send, width)(root, d, X[r]) == Block(sbuf, d, sc);
    }
    hide TookIn, Performed, Performs, Entering, LengthsFit, Receives, Put;
    var actions := ScatterPerforms(|X|, r, root, sbuf, sc, rc, Scattered(send, width), X[r], feed, run);
    ActionsPerformed(FanOutProgram(|X|, root, r, Scattered(send, width)), X[r], run, actions);
  }

  lemma BlocksThere(buf: seq<int>, n: nat, width: nat)
    requires HasBlocks(buf, n, width)
    ensures forall d: nat | d < n ::
      BlockAt(d, width) + width <= |buf| && BlockOrNone(buf, d, width) == Block(buf, d, width)
  {
    forall d: nat | d < n ensures BlockAt(d, width) + width <= |buf| {
    }
    hide BlockAt, Block;
  }

  // ---------------------------------------------------------------- Reduce and Allreduce

  ghost function ElementColumn(data: seq<Message>, j: nat): (xs: seq<int>)
    requires AllAtLeast(data, j + 1)
    ensures |xs| == |data| && forall s: nat | s < |data| :: xs[s] == data[s][j]
  {
    seq(|data|, s requires 0 <= s < |data| => data[s][j])
  }

  lemma {:induction false} FoldInIsFoldFrom(op: nat, data: seq<Message>, own: seq<int>, root: nat, got: seq<Message>,
                                            j: nat)
    requires root < |data| && |got| < |data| && AllAtLeast(data, |own|) && j < |own| && own[j] == data[root][j]
    requires forall k: nat | k < |got| :: got[k] == data[Skip(root, k)]
    ensures AllAtLeast(data, j + 1) && Long(got, |own|)
    ensures FoldIn(op, own, got)[j] == FoldFrom(op, ElementColumn(data, j), root, |got|)
  {
    if got != [] {
      var init, last := got[..|got| - 1], got[|got| - 1];
      FoldInIsFoldFrom(op, data, own, root, init, j);
      assert got == init + [last];
      FoldInStep(op, own, init, last);
    }
  }

  /** The element-wise fold over all ranks, in rank order, of the first `len` elements of each. */
  ghost function Total(op: nat, data: seq<Message>, len: nat): (t: Message)
    requires |data| > 0 && AllAtLeast(data, len)
    ensures |t| == len
    ensures forall j: nat | j < |t| :: t[j] == FoldUp(op, ElementColumn(data, j), |data|)
  {
    seq(len, j requires 0 <= j < len => FoldUp(op, ElementColumn(data, j), |data|))
  }

  /** What a root folds together is the fold over all ranks in rank order, whichever rank is the root. */
  lemma FoldIsTotal(op: nat, data: seq<Message>, own: seq<int>, root: nat, got: seq<Message>)
    requires root < |data| == |got| + 1 && AllAtLeast(data, |own|) && own == data[root][..|own|]
    requires forall k: nat | k < |got| :: got[k] == data[Skip(root, k)]
    ensures Long(got, |own|) && FoldIn(op, own, got) == Total(op, data, |own|)
  {
    assert Long(got, |own|) by {
      forall k | 0 <= k < |got| ensures |own| <= |got[k]| {
        assert got[k] == data[Skip(root, k)];
      }
    }
    forall j: nat | j < |own| ensures FoldIn(op, own, got)[j] == Total(op, data, |own|)[j] {
      assert own[j] == data[root][j];
      FoldInIsFoldFrom(op, data, own, root, got, j);
      FoldsToTotal(op, ElementColumn(data, j), root);
    }
    assert FoldIn(op, own, got) == Total(op, data, |own|);
  }

  lemma FoldsToTotal(op: nat, xs: seq<int>, root: nat)
    requires root < |xs|
    ensures FoldFrom(op, xs, root, |xs| - 1) == FoldUp(op, xs, |xs|)
  {
    FoldFromIs(op, xs, root, |xs| - 1);
  }

  ghost function Reducing(root: nat, contrib: Contribution): Collective {
    FanIn(root, ToAll(contrib), Unchecked())
  }

  /** Reduce at rank r, likewise: if nobody contributes less than the root, the front of the root's receive
      buffer is the fold over all ranks in rank order, whichever rank is the root, and the rest of it is
      as it was; another rank's buffer does not change; the code is 0. */
  lemma ReduceGivesTotal(w: Moment, contrib: Contribution, op: nat, root: nat, r: nat, got: History,
                         feed: seq<Option<Message>>, run: Run)
    requires w.calls == [Reducing(root, contrib)] && TookIn(w, r, got) && FedWith(feed, got)
    requires RanReduce(|w.X|, r, root, contrib(r, Entering(w)[r]), op, feed, run)
    requires AllAtLeast(Contributions(Entering(w), contrib), |contrib(root, Entering(w)[root])|)
    ensures var X := Entering(w);
      var len := |contrib(root, X[root])|;
      && run.status == 0 && (r == root ==> len <= |run.buf|)
      && run.buf' == (if r == root then Total(op, Contributions(X, contrib), len) + run.buf[len..] else run.buf)
      && Performed(ProgramOf(Reducing(root, contrib), |X|, r), X[r], run)
  {
    OneCallGetsItsOwn(w, Reducing(root, contrib), r, got);
    var X := Entering(w);
    hide TookIn, Performed, Performs, Entering, LengthsFit, Receives, FoldIn, Total, RanReduce, FedWith;
    ReduceFolds(X, contrib, op, root, r, got, feed, run);
    var actions := ReducePerforms(|X|, r, root, contrib(r, X[r]), op, ToAll(contrib), X[r], feed, run);
    ActionsPerformed(FanInProgram(|X|, root, r, ToAll(contrib), Unchecked()), X[r], run, actions);
  }

  lemma ReduceFolds(X: seq<History>, contrib: Contribution, op: nat, root: nat, r: nat, got: History,
                    feed: seq<Option<Message>>, run: Run)
    requires r < |X| && root < |X| && got == Receives(Reducing(root, contrib), X, r) && FedWith(feed, got)
    requires RanReduce(|X|, r, root, contrib(r, X[r]), op, feed, run)
    requires AllAtLeast(Contributions(X, contrib), |contrib(root, X[root])|)
    ensures var len := |contrib(root, X[root])|;
      && run.status == 0 && (r == root ==> len <= |run.buf|)
      && run.buf' == if r == root then Total(op, Contributions(X, contrib), len) + run.buf[len..] else run.buf
  {
    var data := Contributions(X, contrib);
    if r == root {
      TakenFed(feed, got);
      assert data[root][..|data[root]|] == data[root];
      hide FoldIn, Total;
      FoldIsTotal(op, data, data[root], root, got);
    }
  }

  /** The messages that the root gets are as long as its code reads them if and only if nobody contributes
      less than the root. */
  lemma AllArriveIff(X: seq<History>, contrib: Contribution, root: nat, feed: seq<Option<Message>>)
    requires root < |X| && FedWith(feed, Receives(Reducing(root, contrib), X, root))
    ensures AllArrive(feed, |X| - 1, |contrib(root, X[root])|) <==>
            AllAtLeast(Contributions(X, contrib), |contrib(root, X[root])|)
  {
    var got, len := Receives(Reducing(root, contrib), X, root), |contrib(root, X[root])|;
    forall k: nat | k < |X| - 1 ensures feed[k] == Some(contrib(Skip(root, k), X[Skip(root, k)])) {
      assert feed[k] == Some(got[k]);
    }
    if AllArrive(feed, |X| - 1, len) {
      forall s: nat | s < |X| ensures len <= |contrib(s, X[s])| {
        if s != root {
          assert Skip(root, SkipIndex(root, s)) == s;
          assert len <= |feed[SkipIndex(root, s)].value|;
        }
      }
    }
  }

  /** What rank 0 sends in the second half of an Allreduce: the fold it has computed in the first. */
  ghost function Folded(contrib: Contribution, op: nat, n: nat): Pay {
    (s: nat, d: nat, h: History) =>
      var m: nat := if n > 0 then n - 1 else 0;
      var own := contrib(s, Entry(h, m));
      if m <= |h| && Long(h[|h| - m..], |own|) then FoldIn(op, own, h[|h| - m..]) else []
  }

  ghost function Answering(contrib: Contribution, op: nat, n: nat): Collective {
    FanOut(0, Folded(contrib, op, n))
  }

  lemma FoldedIs(contrib: Contribution, op: nat, n: nat, d: nat, x: History, got: History)
    requires n == |got| + 1 && Long(got, |contrib(0, x)|)
    ensures Folded(contrib, op, n)(0, d, x + got) == FoldIn(op, contrib(0, x), got)
  {
    EntryIs(x, got);
    assert (x + got)[|x|..] == got;
    hide Entry, FoldIn;
  }

  lemma AfterPair(c: Collective, d: Collective, X: seq<History>)
    requires AllValid([c, d], |X|)
    ensures Valid(c, |X|) && Valid(d, |X|) && AfterAll([c, d], X) == After(d, After(c, X))
  {
    assert Valid([c, d][0], |X|) && Valid([c, d][1], |X|);
    assert [c, d][1..] == [d] && [d][1..] == [];
    hide After;
    assert AfterAll([d], After(c, X)) == AfterAll([], After(d, After(c, X)));
  }

  /** What the two halves of an Allreduce deliver to rank r. */
  ghost predicate Brought(X: seq<History>, contrib: Contribution, op: nat, r: nat, got: History)
    requires r < |X|
  {
    && AllAtLeast(Contributions(X, contrib), |contrib(0, X[0])|)
    && var heard, total := Receives(Reducing(0, contrib), X, 0),
      Total(op, Contributions(X, contrib), |contrib(0, X[0])|);
    && Long(heard, |contrib(0, X[0])|) && FoldIn(op, contrib(0, X[0]), heard) == total
    && got == if r == 0 then heard else [total]
  }

  /** The first half: only rank 0 hears anything. */
  lemma FirstHalf(X: seq<History>, contrib: Contribution, r: nat)
    requires r < |X|
    ensures After(Reducing(0, contrib), X)[r] == X[r] + if r == 0 then Receives(Reducing(0, contrib), X, 0) else []
  {
  }

  /** The second half: everyone else hears what rank 0 makes of all it knows. */
  lemma SecondHalf(Z: seq<History>, contrib: Contribution, op: nat, n: nat, r: nat)
    requires r < |Z|
    ensures After(Answering(contrib, op, n), Z)[r] == Z[r] + if r == 0 then [] else [Folded(contrib, op, n)(0, r, Z[0])]
  {
    hide Folded;
  }

  lemma HeardIs(X: seq<History>, contrib: Contribution, op: nat)
    requires |X| > 0 && AllAtLeast(Contributions(X, contrib), |contrib(0, X[0])|)
    ensures var heard, own := Receives(Reducing(0, contrib), X, 0), contrib(0, X[0]);
      |heard| == |X| - 1 && Long(heard, |own|) && FoldIn(op, own, heard) == Total(op, Contributions(X, contrib), |own|)
  {
    var data, heard := Contributions(X, contrib), Receives(Reducing(0, contrib), X, 0);
    assert data[0][..|data[0]|] == data[0];
    assert forall k: nat | k < |heard| :: heard[k] == data[Skip(0, k)];
    hide FoldIn, Total, Long;
    FoldIsTotal(op, data, data[0], 0, heard);
  }

  ghost function AfterBoth(X: seq<History>, contrib: Contribution, op: nat): (Z: seq<History>)
    requires |X| > 0
    ensures |Z| == |X|
  {
    After(Answering(contrib, op, |X|), After(Reducing(0, contrib), X))
  }

  lemma AllreduceDelivers(X: seq<History>, contrib: Contribution, op: nat, r: nat) returns (got: History)
    requires r < |X| && AllAtLeast(Contributions(X, contrib), |contrib(0, X[0])|)
    ensures Brought(X, contrib, op, r, got) && AfterBoth(X, contrib, op)[r] == X[r] + got
  {
    HeardIs(X, contrib, op);
    var heard := Receives(Reducing(0, contrib), X, 0);
    var total := Total(op, Contributions(X, contrib), |contrib(0, X[0])|);
    got := if r == 0 then heard else [total];
    assert Brought(X, contrib, op, r, got);
    assert AfterBoth(X, contrib, op) == After(Answering(contrib, op, |X|), After(Reducing(0, contrib), X));
    hide *;
    FirstHalf(X, contrib, 0);
    FirstHalf(X, contrib, r);
    SecondHalf(After(Reducing(0, contrib), X), contrib, op, |X|, r);
    FoldedIs(contrib, op, |X|, r, X[0], heard);
    Empty(X[r]);
    Empty(X[r] + heard);
  }

  lemma AllreduceBrings(w: Moment, contrib: Contribution, op: nat, r: nat, got: History)
    requires w.calls == [Reducing(0, contrib), Answering(contrib, op, |w.X|)] && TookIn(w, r, got)
    requires AllAtLeast(Contributions(Entering(w), contrib), |contrib(0, Entering(w)[0])|)
    ensures Brought(Entering(w), contrib, op, r, got)
  {
    EachCallGetsItsOwn(w, r, got);
    var X := Entering(w);
    AfterPair(Reducing(0, contrib), Answering(contrib, op, |w.X|), X);
    assert r < |X| && Leaving(w) == AfterAll(w.calls, X);
    hide TookIn, Entering, Leaving, AfterAll, After, Brought, AllAtLeast, Valid, AllValid;
    var got' := AllreduceDelivers(X, contrib, op, r);
    assert (X[r] + got')[|X[r]|..] == got';
  }

  /** Allreduce at rank r, likewise: if nobody contributes less than rank 0, and nobody nothing, every rank
      that asks for as many elements as rank 0 has the fold over all ranks at the front of its buffer and
      the rest of it as it was; so all of them hold the same.  A rank that asks for another number keeps
      its buffer, and has code 0 like the others. */
  lemma AllreduceGivesTotal(w: Moment, contrib: Contribution, op: nat, r: nat, got: History,
                            feed: seq<Option<Message>>, run: Run)
    requires w.calls == [Reducing(0, contrib), Answering(contrib, op, |w.X|)] && TookIn(w, r, got) && FedWith(feed, got)
    requires RanAllreduce(|w.X|, r, contrib(r, Entering(w)[r]), op, feed, run)
    requires AllAtLeast(Contributions(Entering(w), contrib), |contrib(0, Entering(w)[0])|)
    requires AllAtLeast(Contributions(Entering(w), contrib), 1)
    ensures Reduced(Entering(w), contrib, op, r, run)
    ensures HalvesPerformed(Entering(w), contrib, op, r, run)
  {
    var X := Entering(w);
    AllreduceBrings(w, contrib, op, r, got);
    assert r < |X| && |contrib(r, X[r])| >= 1;
    hide *;
    AllreduceFolds(X, contrib, op, r, got, feed, run);
    AllreduceIsPerformed(X, contrib, op, r, got, feed, run);
  }

  /** The fold over all ranks is at the front of r's buffer, if r asked for as many elements as rank 0. */
  ghost predicate Reduced(X: seq<History>, contrib: Contribution, op: nat, r: nat, run: Run)
    requires r < |X| && AllAtLeast(Contributions(X, contrib), |contrib(0, X[0])|)
  {
    var len := |contrib(0, X[0])|;
    && run.status == 0
    && if |contrib(r, X[r])| != len then run.buf' == run.buf
       else len <= |run.buf| && run.buf' == Total(op, Contributions(X, contrib), len) + run.buf[len..]
  }

  /** The actions of r are those of the two programs that the network runs for the call. */
  ghost predicate HalvesPerformed(X: seq<History>, contrib: Contribution, op: nat, r: nat, run: Run)
    requires r < |X|
  {
    && run.log <= run.log'
    && PerformsBoth(ProgramOf(Reducing(0, contrib), |X|, r), ProgramOf(Answering(contrib, op, |X|), |X|, r), X[r],
                    run.log'[|run.log|..])
  }

  lemma AllreduceFolds(X: seq<History>, contrib: Contribution, op: nat, r: nat, got: History,
                       feed: seq<Option<Message>>, run: Run)
    requires r < |X| && Brought(X, contrib, op, r, got) && FedWith(feed, got) && contrib(r, X[r]) != []
    requires AllAtLeast(Contributions(X, contrib), |contrib(0, X[0])|)
    requires RanAllreduce(|X|, r, contrib(r, X[r]), op, feed, run)
    ensures Reduced(X, contrib, op, r, run)
  {
    if r == 0 {
      TakenFed(feed, got);
    } else {
      assert feed[0] == Some(got[0]);
    }
    hide FoldIn, Total, Long, Receives, FanInLog, FanOutLog;
  }

  lemma AllreduceIsPerformed(X: seq<History>, contrib: Contribution, op: nat, r: nat, got: History,
                             feed: seq<Option<Message>>, run: Run)
    requires r < |X| && Brought(X, contrib, op, r, got) && FedWith(feed, got) && contrib(r, X[r]) != []
    requires RanAllreduce(|X|, r, contrib(r, X[r]), op, feed, run)
    ensures HalvesPerformed(X, contrib, op, r, run)
  {
    hide RanAllreduce, Brought, FoldIn, Total, Long, Receives, Folded, PerformsBoth, FanInProgram, FanOutProgram,
         AllArrive, FedWith, ReceivedIn, Taken;
    if r == 0 {
      FedToRoot(X, contrib, op, got, feed);
    } else {
      FedToOther(X, contrib, op, r, got, feed);
    }
    var actions := AllreducePerforms(|X|, r, contrib(r, X[r]), op, ToAll(contrib), Folded(contrib, op, |X|), X[r],
                                     feed, run);
    assert run.log'[|run.log|..] == actions;
  }

  lemma FedToOther(X: seq<History>, contrib: Contribution, op: nat, r: nat, got: History, feed: seq<Option<Message>>)
    requires 0 < r < |X| && Brought(X, contrib, op, r, got) && FedWith(feed, got)
    ensures feed != [] && feed[0].Some?
  {
    hide FoldIn, Total, Long, Receives;
    assert feed[0] == Some(got[0]);
  }

  lemma FedToRoot(X: seq<History>, contrib: Contribution, op: nat, got: History, feed: seq<Option<Message>>)
    requires |X| > 0 && Brought(X, contrib, op, 0, got) && FedWith(feed, got)
    ensures AllArrive(feed, |X| - 1, |contrib(0, X[0])|) && Long(Taken(feed, |X| - 1), |contrib(0, X[0])|)
    ensures var taken := Taken(feed, |X| - 1);
      forall d: nat | d < |X| :: Folded(contrib, op, |X|)(0, d, X[0] + taken) == FoldIn(op, contrib(0, X[0]), taken)
  {
    hide FoldIn, Total, Folded;
    TakenFed(feed, got);
    forall d: nat | d < |X| ensures Folded(contrib, op, |X|)(0, d, X[0] + got) == FoldIn(op, contrib(0, X[0]), got) {
      FoldedIs(contrib, op, |X|, d, X[0], got);
    }
  }
}
