/** The results of the collectives cell by cell: which cell of which buffer is copied where. */
module Cells {
  import opened Wrappers
  import opened Network
  import opened Buffers
  import opened Endpoints
  import opened Collectives
  import opened Jobs
  import opened MpiRooted
  import Ring = MpiRing
  import opened Delivery
  import opened Filling
  import opened RingResults
  import opened RootedResults

  /** Cell x belongs to the block of some rank. */
  ghost predicate InBlocks(data: seq<Message>, width: nat, x: nat) {
    exists j: nat :: j < |data| && j * width <= x < j * width + |data[j]|
  }

  /** Cell i of block j is at j * width + i, and all cells outside the blocks are as they were. */
  ghost predicate InPlace(data: seq<Message>, width: nat, buf: seq<int>, buf': seq<int>) {
    && |buf'| == |buf|
    && (forall j: nat, i: nat | j < |data| && i < |data[j]| ::
          j * width + i < |buf'| && buf'[j * width + i] == data[j][i])
    && (forall x: nat | x < |buf| && !InBlocks(data, width, x) :: buf'[x] == buf[x])
  }

  lemma CellInPlace(data: seq<Message>, width: nat, buf: seq<int>, buf': seq<int>, j: nat, i: nat)
    requires Filled(RankPieces(BlockOffsets(|data|, width), data), buf, buf') && j < |data| && i < |data[j]|
    ensures j * width + i < |buf'| && buf'[j * width + i] == data[j][i]
  {
    var ps := RankPieces(BlockOffsets(|data|, width), data);
    assert ps[j] == Piece(j * width, data[j]);
    assert Fits(buf, ps[j]) && Covers(ps[j], j * width + i);
    assert FilledAt(ps, buf, buf', j * width + i);
  }

  lemma CellOutside(data: seq<Message>, width: nat, buf: seq<int>, buf': seq<int>, x: nat)
    requires Filled(RankPieces(BlockOffsets(|data|, width), data), buf, buf')
    requires x < |buf| && !InBlocks(data, width, x)
    ensures |buf'| == |buf| && buf'[x] == buf[x]
  {
    var ps := RankPieces(BlockOffsets(|data|, width), data);
    forall j: nat | j < |ps| ensures !Covers(ps[j], x) {
      assert ps[j] == Piece(j * width, data[j]);
    }
    assert FilledAt(ps, buf, buf', x);
  }

  lemma FilledInPlace(data: seq<Message>, width: nat, buf: seq<int>, buf': seq<int>)
    requires Filled(RankPieces(BlockOffsets(|data|, width), data), buf, buf')
    ensures InPlace(data, width, buf, buf')
  {
    forall j: nat, i: nat | j < |data| && i < |data[j]|
      ensures j * width + i < |buf'| && buf'[j * width + i] == data[j][i]
    {
      CellInPlace(data, width, buf, buf', j, i);
    }
    assert |buf'| == |buf|;
    hide Filled, RankPieces, BlockOffsets, InBlocks;
    forall x: nat | x < |buf| && !InBlocks(data, width, x) ensures buf'[x] == buf[x] {
      CellOutside(data, width, buf, buf', x);
    }
  }

  // ---------------------------------------------------------------- blocks of equal length

  /** Allgather_exp, at a moment of any interleaving at which a rank has taken in what the call brings, when all
      ranks contribute as many cells: cell i of rank j's contribution is at j * rc + i. */
  lemma AllgatherExpCells(w: Moment, contrib: Contribution, rc: nat, r: nat, got: History,
                          feed: seq<Option<Message>>, run: Run)
    requires w.calls == [Gathering(contrib)] && TookIn(w, r, got) && FedWith(feed, got)
    requires Ring.RanRing(Ring.AllgatherCall(|w.X|, r, contrib(r, Entering(w)[r]), rc), feed, run)
    requires AllOfLength(Contributions(Entering(w), contrib), |contrib(r, Entering(w)[r])|)
    requires |contrib(r, Entering(w)[r])| <= rc
    ensures run.status == 0 && InPlace(Contributions(Entering(w), contrib), rc, run.buf, run.buf')
  {
    var X := Entering(w);
    var data, len := Contributions(X, contrib), |contrib(r, X[r])|;
    NothingCut(data, len);
    assert AllAtLeast(data, len);
    hide *;
    AllgatherExpGathers(w, contrib, rc, r, got, feed, run);
    FilledInPlace(data, rc, run.buf, run.buf');
  }

  /** The loop of broadcasts likewise. */
  lemma AllgatherCells(w: Moment, contrib: Contribution, len: Width, r: nat, got: History,
                       feed: seq<Option<Message>>, run: Run)
    requires w.calls == [Announcing(contrib, len)] && TookIn(w, r, got) && FedWith(feed, got)
    requires |contrib(r, Entering(w)[r])| == len(r, Entering(w)[r])
    requires RanGather(AllgatherCall(|w.X|, r, contrib(r, Entering(w)[r]), len(r, Entering(w)[r])), feed, run)
    ensures run.status == 0
    ensures InPlace(Contributions(Entering(w), contrib), len(r, Entering(w)[r]), run.buf, run.buf')
  {
    assert |Contributions(Entering(w), contrib)| == |Entering(w)| == |w.X| && r < |w.X|;
    hide *;
    AllgatherGathers(w, contrib, len, r, got, feed, run);
    FilledInPlace(Contributions(Entering(w), contrib), len(r, Entering(w)[r]), run.buf, run.buf');
  }

  /** Gather likewise, at its root. */
  lemma GatherCells(w: Moment, contrib: Contribution, len: Width, root: nat, got: History,
                    feed: seq<Option<Message>>, run: Run)
    requires w.calls == [Collecting(root, contrib, len)] && TookIn(w, root, got) && FedWith(feed, got)
    requires |contrib(root, Entering(w)[root])| == len(root, Entering(w)[root])
    requires RanGather(GatherCall(|w.X|, root, contrib(root, Entering(w)[root]), len(root, Entering(w)[root]), []),
                       feed, run)
    ensures run.status == 0
    ensures InPlace(Contributions(Entering(w), contrib), len(root, Entering(w)[root]), run.buf, run.buf')
  {
    assert |Contributions(Entering(w), contrib)| == |Entering(w)| == |w.X| && root < |w.X|;
    hide *;
    GatherGathers(w, contrib, len, root, got, feed, run);
    FilledInPlace(Contributions(Entering(w), contrib), len(root, Entering(w)[root]), run.buf, run.buf');
  }

  // ---------------------------------------------------------------- blocks out of a buffer

  /** What a Scatter hands to rank d: cell i is cell d * width + i of the root's buffer. */
  lemma BlockCells(buf: seq<int>, d: nat, width: nat, i: nat)
    requires d * width + width <= |buf| && i < width
    ensures d * width + i < |buf| && |BlockOrNone(buf, d, width)| == width
    ensures BlockOrNone(buf, d, width)[i] == buf[d * width + i]
  {
  }

  /** What an Alltoall leaves at rank r from rank j: cell i is cell r * width + i of j's send buffer. */
  lemma ExchangedCells(X: seq<History>, send: Contribution, width: Width, r: nat, j: nat, i: nat)
    requires r < |X| && j < |X| && AllHaveBlocks(X, send, width)
    requires i < width(r, X[r]) <= width(j, X[j])
    ensures |Exchanged(X, send, width, r)[j]| == width(r, X[r])
    ensures r * width(j, X[j]) + i < |send(j, X[j])|
    ensures Exchanged(X, send, width, r)[j][i] == send(j, X[j])[r * width(j, X[j]) + i]
  {
    var own, theirs := width(r, X[r]), width(j, X[j]);
    var column := Column(Contributions(X, send), r, WidthsOf(X, width));
    assert HasBlocks(send(j, X[j]), |X|, theirs);
    assert BlockAt(r, theirs) + theirs <= |send(j, X[j])|;
    BlockCells(send(j, X[j]), r, theirs, i);
    assert column[j] == BlockOrNone(send(j, X[j]), r, theirs);
    assert Exchanged(X, send, width, r)[j] == column[j][..own];
    hide HasBlocks, AllHaveBlocks, BlockOrNone;
  }

  /** Alltoall: block j of rank r's receive buffer is at j * rc. */
  lemma AlltoallInPlace(w: Moment, send: Contribution, width: Width, rc: nat, r: nat, got: History,
                        feed: seq<Option<Message>>, run: Run)
    requires w.calls == [Exchange(send, width)] && TookIn(w, r, got) && FedWith(feed, got)
    requires AllHaveBlocks(Entering(w), send, width)
    requires Ring.RanRing(Ring.AlltoallCall(|w.X|, r, send(r, Entering(w)[r]), width(r, Entering(w)[r]), rc), feed, run)
    requires forall s: nat | s < |w.X| :: width(r, Entering(w)[r]) <= width(s, Entering(w)[s])
    requires width(r, Entering(w)[r]) <= rc
    ensures run.status == 0 && InPlace(Exchanged(Entering(w), send, width, r), rc, run.buf, run.buf')
  {
    assert |Exchanged(Entering(w), send, width, r)| == |Entering(w)|;
    hide *;
    AlltoallTransposes(w, send, width, rc, r, got, feed, run);
    FilledInPlace(Exchanged(Entering(w), send, width, r), rc, run.buf, run.buf');
  }
}
