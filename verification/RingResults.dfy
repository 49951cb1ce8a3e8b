/**
  What the ring collectives leave in the buffers, in every interleaving of ranks that call them among
  any other collectives.
 */
module RingResults {
  import opened Wrappers
  import opened Network
  import opened Offsets
  import opened Buffers
  import opened Endpoints
  import opened Collectives
  import opened Jobs
  import opened MpiRing
  import opened Delivery
  import opened Filling

  /** After cutting, the messages are the data of the ranks, in the order of the ring. */
  ghost predicate ComesTo(c: RingCall, got: seq<Message>, data: seq<Message>)
    requires Well(c)
  {
    && |got| == c.n - 1 && |data| == c.n && data[c.r] == c.own
    && forall j: nat | j < c.n - 1 :: Trim(c, got[j]) == data[Left(c.n, c.r, j + 1)]
  }

  ghost function ByDistance(n: nat, r: nat): (f: seq<nat>)
    requires r < n
    ensures |f| == n && forall j: nat | j < n :: f[j] == Left(n, r, j)
  {
    seq(n, j requires 0 <= j < n => Left(n, r, j))
  }

  lemma RingPieceOf(c: RingCall, got: seq<Message>, data: seq<Message>, j: nat)
    requires Well(c) && ComesTo(c, got, data) && j < c.n
    ensures RingPieces(c, got)[j] == RankPieces(c.displ, data)[Left(c.n, c.r, j)]
    ensures Left(c.n, c.r, Left(c.n, c.r, j)) == j
  {
    if j > 0 {
      assert RingPieces(c, got)[j - 1 + 1] == Piece(c.displ[Left(c.n, c.r, j)], Trim(c, got[j - 1]));
    }
  }

  lemma RingPiecesByRank(c: RingCall, got: seq<Message>, data: seq<Message>)
    requires Well(c) && ComesTo(c, got, data)
    ensures SamePieces(RingPieces(c, got), RankPieces(c.displ, data), ByDistance(c.n, c.r), ByDistance(c.n, c.r))
  {
    var ps, qs := RingPieces(c, got), RankPieces(c.displ, data);
    assert |ps| == |qs| == c.n;
    hide RingPieces, RankPieces, OffsetRank;
    forall j: nat | j < c.n ensures ps[j] == qs[Left(c.n, c.r, j)] && Left(c.n, c.r, Left(c.n, c.r, j)) == j {
      RingPieceOf(c, got, data, j);
    }
  }

  lemma RingCompletes(c: RingCall, feed: seq<Option<Message>>, got: History, run: Run)
    requires RanRing(c, feed, run) && FedWith(feed, got) && |got| == c.n - 1
    requires forall k: nat | k < c.n - 1 :: Fine(c.want, k, got[k])
    ensures run.status == 0 && AllFit(run.buf, RingPieces(c, got)) && run.buf' == PutAll(run.buf, RingPieces(c, got))
  {
    AcceptedIs(feed, c.want, 0, c.n - 1, c.n - 1);
    TakenFed(feed, got);
    hide RingPieces, RingLog, PutAll, AllFit, Room;
  }

  /** A ring collective that gets a message from everyone, each of a length it accepts, ends well. */
  lemma RingFills(c: RingCall, feed: seq<Option<Message>>, got: History, data: seq<Message>, run: Run)
    requires RanRing(c, feed, run) && FedWith(feed, got) && ComesTo(c, got, data) && Apart(RankPieces(c.displ, data))
    requires forall k: nat | k < c.n - 1 :: Fine(c.want, k, got[k])
    ensures run.status == 0 && Filled(RankPieces(c.displ, data), run.buf, run.buf')
  {
    RingCompletes(c, feed, got, run);
    RingPiecesByRank(c, got, data);
    hide RingLog, RingPieces, RankPieces, Filled, SamePieces, Apart, RingEffect, Room, PutAll, AllFit, FedWith;
    PutAllFills(run.buf, RingPieces(c, got), RankPieces(c.displ, data), ByDistance(c.n, c.r), ByDistance(c.n, c.r));
  }

  /** The actions of the code are those of the program that the network runs for the call. */
  lemma RingIsPerformed(c: RingCall, pay: Pay, told: Told, h: History, feed: seq<Option<Message>>, run: Run)
    requires RingCallOf(c, pay, told, h) && RanRing(c, feed, run) && run.status != 4
    ensures Performed(ProgramOf(Ring(pay, told), c.n, c.r), h, run)
  {
    var actions := RingPerforms(c, pay, told, h, feed, run);
    ActionsPerformed(RingProgram(c.n, c.r, pay, told), h, run, actions);
    hide Performed, Performs, RanRing;
  }

  // ---------------------------------------------------------------- Allgather_exp

  ghost function Gathering(contrib: Contribution): Collective {
    Ring(ToAll(contrib), Unchecked())
  }

  lemma AllgatherComesTo(X: seq<History>, contrib: Contribution, rc: nat, r: nat)
    requires |X| >= 2 && r < |X|
    ensures var own := contrib(r, X[r]);
      ComesTo(AllgatherCall(|X|, r, own, rc), Receives(Gathering(contrib), X, r),
              CutAll(Contributions(X, contrib), |own|))
  {
    var own, got, data := contrib(r, X[r]), Receives(Gathering(contrib), X, r), Contributions(X, contrib);
    hide OffsetRank;
    assert own[..|own|] == own;
    forall j: nat | j < |X| - 1 ensures Cut(Some(|own|), got[j]) == CutAll(data, |own|)[Left(|X|, r, j + 1)] {
      assert got[j] == data[Left(|X|, r, j + 1)];
    }
  }

  lemma AllgatherIsRingCall(n: nat, r: nat, contrib: Contribution, rc: nat, h: History)
    requires n >= 2 && r < n
    ensures RingCallOf(AllgatherCall(n, r, contrib(r, h), rc), ToAll(contrib), Unchecked(), h)
  {
  }

  /** Allgather_exp, at a moment of any interleaving at which rank r has taken in the messages of the
      call: if nobody contributes less than r itself, then block j of r's receive buffer is rank j's
      contribution, cut down to the length of r's own; the result code is 0, no cell between or behind
      the blocks changes, and what r has sent and received is what the network has run for it. */
  lemma AllgatherExpGathers(w: Moment, contrib: Contribution, rc: nat, r: nat, got: History,
                            feed: seq<Option<Message>>, run: Run)
    requires w.calls == [Gathering(contrib)] && TookIn(w, r, got) && FedWith(feed, got)
    requires RanRing(AllgatherCall(|w.X|, r, contrib(r, Entering(w)[r]), rc), feed, run)
    requires AllAtLeast(Contributions(Entering(w), contrib), |contrib(r, Entering(w)[r])|)
    requires |contrib(r, Entering(w)[r])| <= rc
    ensures var X := Entering(w);
      var data := CutAll(Contributions(X, contrib), |contrib(r, X[r])|);
      && run.status == 0 && Filled(RankPieces(BlockOffsets(|X|, rc), data), run.buf, run.buf')
      && Performed(ProgramOf(Gathering(contrib), |X|, r), X[r], run)
  {
    OneCallGetsItsOwn(w, Gathering(contrib), r, got);
    var X := Entering(w);
    hide TookIn, RanRing, Performed, Filled, RankPieces, Receives, Entering, ProgramOf;
    AllgatherFills(X, contrib, rc, r, got, feed, run);
    AllgatherIsRingCall(|X|, r, contrib, rc, X[r]);
    RingIsPerformed(AllgatherCall(|X|, r, contrib(r, X[r]), rc), ToAll(contrib), Unchecked(), X[r], feed, run);
  }

  lemma AllgatherFills(X: seq<History>, contrib: Contribution, rc: nat, r: nat, got: History,
                       feed: seq<Option<Message>>, run: Run)
    requires |X| >= 2 && r < |X| && got == Receives(Gathering(contrib), X, r) && FedWith(feed, got)
    requires RanRing(AllgatherCall(|X|, r, contrib(r, X[r]), rc), feed, run)
    requires AllAtLeast(Contributions(X, contrib), |contrib(r, X[r])|) && |contrib(r, X[r])| <= rc
    ensures run.status == 0
    ensures Filled(RankPieces(BlockOffsets(|X|, rc), CutAll(Contributions(X, contrib), |contrib(r, X[r])|)), run.buf,
                   run.buf')
  {
    var c, data := AllgatherCall(|X|, r, contrib(r, X[r]), rc), CutAll(Contributions(X, contrib), |contrib(r, X[r])|);
    AllgatherComesTo(X, contrib, rc, r);
    hide RanRing, ComesTo, Apart, Filled, RankPieces, Receives, FedWith;
    BlocksDoNotOverlap(|X|, rc, data);
    RingFills(c, feed, got, data, run);
  }

  /** The messages that rank r gets are long enough for its code, which copies as much as r itself
      contributes out of each of them, if and only if no other rank contributes less than r. */
  lemma LongEnoughIff(X: seq<History>, contrib: Contribution, r: nat, feed: seq<Option<Message>>)
    requires |X| >= 2 && r < |X| && FedWith(feed, Receives(Gathering(contrib), X, r))
    ensures LongEnough(feed, |X| - 1, |contrib(r, X[r])|) <==>
            forall s: nat | s < |X| && s != r :: |contrib(r, X[r])| <= |contrib(s, X[s])|
  {
    LongEnoughFrom(Gathering(contrib), X, r, feed, |contrib(r, X[r])|);
  }

  /** The same for any ring whose lengths nobody checks. */
  lemma LongEnoughFrom(c: Collective, X: seq<History>, r: nat, feed: seq<Option<Message>>, len: nat)
    requires c.Ring? && |X| >= 2 && r < |X| && FedWith(feed, Receives(c, X, r))
    ensures LongEnough(feed, |X| - 1, len) <==> forall s: nat | s < |X| && s != r :: len <= |c.pay(s, r, X[s])|
  {
    var n, got := |X|, Receives(c, X, r);
    forall j: nat | j < n - 1 ensures feed[j].Some? &&
      feed[j].value == c.pay(Left(n, r, j + 1), r, X[Left(n, r, j + 1)]) {
      assert feed[j] == Some(got[j]);
    }
    if LongEnough(feed, n - 1, len) {
      forall s: nat | s < n && s != r ensures len <= |c.pay(s, r, X[s])| {
        var j := Distance(n, s, r) - 1;
        assert Left(n, r, j + 1) == s;
        assert len <= |feed[j].value|;
      }
    }
  }

  ghost function OneShort(): Contribution {
    (s: nat, h: History) => if s == 0 then [7] else [7, 8]
  }

  /** Two ranks, of which one contributes a cell and the other two: the second gets less than it copies. */
  lemma OneRankShort(feed: seq<Option<Message>>)
    requires FedWith(feed, Receives(Gathering(OneShort()), [[], []], 1))
    ensures !LongEnough(feed, 1, |OneShort()(1, [])|)
  {
    var X: seq<History> := [[], []];
    LongEnoughIff(X, OneShort(), 1, feed);
    assert |OneShort()(0, X[0])| == 1 && |OneShort()(1, X[1])| == 2;
  }

  // ---------------------------------------------------------------- Allgatherv_exp

  /** The counts that each rank passes to Allgatherv_exp, as what it insists on. */
  type Counts = (nat, History) -> seq<int>

  ghost function CountsTold(counts: Counts): Told {
    (s: nat, d: nat, h: History) => if s < |counts(d, h)| then Some(counts(d, h)[s]) else None
  }

  ghost function GatheringRanges(contrib: Contribution, counts: Counts): Collective {
    Ring(ToAll(contrib), CountsTold(counts))
  }

  lemma AllgathervComesTo(X: seq<History>, contrib: Contribution, counts: seq<int>, told: Told, displs: seq<nat>,
                          r: nat)
    requires |X| >= 2 && r < |X| && |counts| == |displs| == |X|
    ensures ComesTo(AllgathervCall(|X|, r, contrib(r, X[r]), counts, displs),
                    Receives(Ring(ToAll(contrib), told), X, r),
                    Contributions(X, contrib))
  {
    hide OffsetRank;
  }

  lemma AllgathervIsRingCall(n: nat, r: nat, contrib: Contribution, counts: Counts, displs: seq<nat>, h: History)
    requires n >= 2 && r < n && |counts(r, h)| == |displs| == n
    ensures RingCallOf(AllgathervCall(n, r, contrib(r, h), counts(r, h), displs), ToAll(contrib), CountsTold(counts), h)
  {
    hide OffsetRank;
  }

  /** The k-th message is accepted if its sender contributes the length that r was told. */
  lemma AllgathervTakes(X: seq<History>, contrib: Contribution, counts: seq<int>, told: Told, displs: seq<nat>, r: nat,
                        k: nat)
    requires |X| >= 2 && r < |X| && |counts| == |displs| == |X| && k < |X| - 1
    ensures var c := AllgathervCall(|X|, r, contrib(r, X[r]), counts, displs);
      var got, s := Receives(Ring(ToAll(contrib), told), X, r), Left(|X|, r, k + 1);
      got[k] == contrib(s, X[s]) && (Fine(c.want, k, got[k]) <==> |contrib(s, X[s])| == counts[s])
  {
    hide OffsetRank;
  }

  /** Allgatherv_exp, likewise: for ranges that do not overlap, and counts that are what the ranks
      contribute (which `TookIn` says), every range is filled with its rank's contribution and no other
      cell changes. */
  lemma AllgathervExpGathers(w: Moment, contrib: Contribution, counts: Counts, displs: seq<nat>, r: nat, got: History,
                             feed: seq<Option<Message>>, run: Run)
    requires w.calls == [GatheringRanges(contrib, counts)] && TookIn(w, r, got) && FedWith(feed, got)
    requires |counts(r, Entering(w)[r])| == |displs| == |w.X|
    requires RanRing(AllgathervCall(|w.X|, r, contrib(r, Entering(w)[r]), counts(r, Entering(w)[r]), displs), feed, run)
    requires Apart(RankPieces(displs, Contributions(Entering(w), contrib)))
    ensures var X := Entering(w);
      && run.status == 0 && Filled(RankPieces(displs, Contributions(X, contrib)), run.buf, run.buf')
      && Performed(ProgramOf(GatheringRanges(contrib, counts), |X|, r), X[r], run)
  {
    OneCallGetsItsOwn(w, GatheringRanges(contrib, counts), r, got);
    var X := Entering(w);
    hide TookIn, RanRing, Performed, Filled, RankPieces, Receives, Entering, ProgramOf, Apart;
    AllgathervFills(X, contrib, counts, displs, r, got, feed, run);
    AllgathervIsRingCall(|X|, r, contrib, counts, displs, X[r]);
    RingIsPerformed(AllgathervCall(|X|, r, contrib(r, X[r]), counts(r, X[r]), displs), ToAll(contrib),
                    CountsTold(counts),
                    X[r], feed, run);
  }

  lemma AllgathervFills(X: seq<History>, contrib: Contribution, counts: Counts, displs: seq<nat>, r: nat, got: History,
                        feed: seq<Option<Message>>, run: Run)
    requires |X| >= 2 && r < |X| && got == Receives(GatheringRanges(contrib, counts), X, r) && FedWith(feed, got)
    requires LengthsFit(GatheringRanges(contrib, counts), X) && |counts(r, X[r])| == |displs| == |X|
    requires RanRing(AllgathervCall(|X|, r, contrib(r, X[r]), counts(r, X[r]), displs), feed, run)
    requires Apart(RankPieces(displs, Contributions(X, contrib)))
    ensures run.status == 0 && Filled(RankPieces(displs, Contributions(X, contrib)), run.buf, run.buf')
  {
    var n, own, mine := |X|, contrib(r, X[r]), counts(r, X[r]);
    var c := AllgathervCall(n, r, own, mine, displs);
    assert forall s: nat | s < n && s != r :: |contrib(s, X[s])| == mine[s] by {
      forall s: nat | s < n && s != r ensures |contrib(s, X[s])| == mine[s] {
        assert Talks(GatheringRanges(contrib, counts), n, s, r);
      }
    }
    AllgathervComesTo(X, contrib, mine, CountsTold(counts), displs, r);
    hide RanRing, Apart, RankPieces, Filled, ComesTo, Receives, AllgathervCall, FedWith, LengthsFit, Fine;
    forall k: nat | k < n - 1 ensures Fine(c.want, k, got[k]) {
      AllgathervTakes(X, contrib, mine, CountsTold(counts), displs, r, k);
      RingMeetsEveryRankOnce(n, Left(n, r, k + 1), r, k + 1);
    }
    RingFills(c, feed, got, Contributions(X, contrib), run);
  }

  // ---------------------------------------------------------------- Alltoall

  /** Block r of every rank's send buffer. */
  ghost function Column(bufs: seq<seq<int>>, r: nat, widths: seq<nat>): (col: seq<Message>)
    requires |widths| == |bufs|
    ensures |col| == |bufs| && forall s: nat | s < |bufs| :: col[s] == BlockOrNone(bufs[s], r, widths[s])
  {
    seq(|bufs|, s requires 0 <= s < |bufs| => BlockOrNone(bufs[s], r, widths[s]))
  }

  ghost function WidthsOf(X: seq<History>, width: Width): (widths: seq<nat>)
    ensures |widths| == |X| && forall s: nat | s < |X| :: widths[s] == width(s, X[s])
  {
    seq(|X|, s requires 0 <= s < |X| => width(s, X[s]))
  }

  ghost function Exchange(send: Contribution, width: Width): Collective {
    Ring(Scattered(send, width), Unchecked())
  }

  ghost predicate AllHaveBlocks(X: seq<History>, send: Contribution, width: Width) {
    forall s: nat | s < |X| :: HasBlocks(send(s, X[s]), |X|, width(s, X[s]))
  }

  /** What is to be in r's receive buffer. */
  ghost function Exchanged(X: seq<History>, send: Contribution, width: Width, r: nat): (data: seq<Message>)
    requires r < |X|
    ensures |data| == |X|
  {
    CutAll(Column(Contributions(X, send), r, WidthsOf(X, width)), width(r, X[r]))
  }

  lemma ColumnIs(X: seq<History>, send: Contribution, width: Width, r: nat, s: nat)
    requires r < |X| && s < |X| && AllHaveBlocks(X, send, width)
    ensures var b := Column(Contributions(X, send), r, WidthsOf(X, width))[s];
      b == Scattered(send, width)(s, r, X[s]) && |b| == width(s, X[s])
    ensures var own := width(r, X[r]); own <= width(s, X[s]) ==> |Exchanged(X, send, width, r)[s]| == own
  {
    assert HasBlocks(send(s, X[s]), |X|, width(s, X[s]));
    hide Block, BlockAt;
  }

  lemma AlltoallComesTo(X: seq<History>, send: Contribution, width: Width, rc: nat, r: nat)
    requires |X| >= 2 && r < |X| && AllHaveBlocks(X, send, width)
    ensures HasBlocks(send(r, X[r]), |X|, width(r, X[r]))
    ensures ComesTo(AlltoallCall(|X|, r, send(r, X[r]), width(r, X[r]), rc), Receives(Exchange(send, width), X, r),
                    Exchanged(X, send, width, r))
  {
    var own, got := width(r, X[r]), Receives(Exchange(send, width), X, r);
    var data := Column(Contributions(X, send), r, WidthsOf(X, width));
    assert HasBlocks(send(r, X[r]), |X|, own);
    ColumnIs(X, send, width, r, r);
    assert data[r] == Block(send(r, X[r]), r, own) && data[r][..own] == data[r];
    hide OffsetRank, Block, BlockAt, HasBlocks, BlockOrNone;
    forall j: nat | j < |X| - 1 ensures Cut(Some(own), got[j]) == CutAll(data, own)[Left(|X|, r, j + 1)] {
      ColumnIs(X, send, width, r, Left(|X|, r, j + 1));
    }
  }

  lemma AlltoallIsRingCall(n: nat, r: nat, send: Contribution, width: Width, rc: nat, h: History)
    requires n >= 2 && r < n && HasBlocks(send(r, h), n, width(r, h))
    ensures RingCallOf(AlltoallCall(n, r, send(r, h), width(r, h), rc), Scattered(send, width), Unchecked(), h)
  {
    hide Block, BlockAt;
  }

  /** Alltoall, likewise: if nobody sends narrower blocks than r itself, block j of rank r's receive
      buffer is block r of rank j's send buffer, cut down to the width of r's own blocks. */
  lemma AlltoallTransposes(w: Moment, send: Contribution, width: Width, rc: nat, r: nat, got: History,
                           feed: seq<Option<Message>>, run: Run)
    requires w.calls == [Exchange(send, width)] && TookIn(w, r, got) && FedWith(feed, got)
    requires AllHaveBlocks(Entering(w), send, width)
    requires RanRing(AlltoallCall(|w.X|, r, send(r, Entering(w)[r]), width(r, Entering(w)[r]), rc), feed, run)
    requires forall s: nat | s < |w.X| :: width(r, Entering(w)[r]) <= width(s, Entering(w)[s])
    requires width(r, Entering(w)[r]) <= rc
    ensures var X := Entering(w);
      && run.status == 0
      && Filled(RankPieces(BlockOffsets(|X|, rc), Exchanged(X, send, width, r)), run.buf, run.buf')
      && Performed(ProgramOf(Exchange(send, width), |X|, r), X[r], run)
  {
    OneCallGetsItsOwn(w, Exchange(send, width), r, got);
    var X := Entering(w);
    assert HasBlocks(send(r, X[r]), |X|, width(r, X[r]));
    hide TookIn, RanRing, Performed, Filled, RankPieces, Receives, Entering, ProgramOf, HasBlocks, BlockAt, Exchanged;
    AlltoallFills(X, send, width, rc, r, got, feed, run);
    AlltoallIsRingCall(|X|, r, send, width, rc, X[r]);
    RingIsPerformed(AlltoallCall(|X|, r, send(r, X[r]), width(r, X[r]), rc), Scattered(send, width), Unchecked(),
                    X[r], feed, run);
  }

  lemma AlltoallFills(X: seq<History>, send: Contribution, width: Width, rc: nat, r: nat, got: History,
                      feed: seq<Option<Message>>, run: Run)
    requires |X| >= 2 && r < |X| && got == Receives(Exchange(send, width), X, r) && FedWith(feed, got)
    requires AllHaveBlocks(X, send, width) && HasBlocks(send(r, X[r]), |X|, width(r, X[r]))
    requires RanRing(AlltoallCall(|X|, r, send(r, X[r]), width(r, X[r]), rc), feed, run)
    requires forall s: nat | s < |X| :: width(r, X[r]) <= width(s, X[s])
    requires width(r, X[r]) <= rc
    ensures run.status == 0
    ensures Filled(RankPieces(BlockOffsets(|X|, rc), Exchanged(X, send, width, r)), run.buf, run.buf')
  {
    var c, data := AlltoallCall(|X|, r, send(r, X[r]), width(r, X[r]), rc), Exchanged(X, send, width, r);
    AlltoallComesTo(X, send, width, rc, r);
    forall s: nat | s < |X| ensures |data[s]| <= rc {
      ColumnIs(X, send, width, r, s);
    }
    hide RanRing, Block, BlockAt, HasBlocks, ComesTo, Apart, Filled, RankPieces, Receives, Exchanged, FedWith;
    BlocksDoNotOverlap(|X|, rc, data);
    RingFills(c, feed, got, data, run);
  }

  /** Alltoall's messages are long enough for rank r's code if and only if no other rank's blocks are
      narrower than r's own. */
  lemma WideEnoughIff(X: seq<History>, send: Contribution, width: Width, r: nat, feed: seq<Option<Message>>)
    requires |X| >= 2 && r < |X| && AllHaveBlocks(X, send, width)
    requires FedWith(feed, Receives(Exchange(send, width), X, r))
    ensures LongEnough(feed, |X| - 1, width(r, X[r])) <==>
            forall s: nat | s < |X| && s != r :: width(r, X[r]) <= width(s, X[s])
  {
    LongEnoughFrom(Exchange(send, width), X, r, feed, width(r, X[r]));
    forall s: nat | s < |X| ensures |Scattered(send, width)(s, r, X[s])| == width(s, X[s]) {
      assert HasBlocks(send(s, X[s]), |X|, width(s, X[s]));
    }
    hide BlockAt, Receives;
  }

  ghost function Same(n: nat, width: nat): (widths: seq<nat>)
    ensures |widths| == n && forall s: nat | s < n :: widths[s] == width
  {
    seq(n, _ => width)
  }

  /** B[r] is what Alltoall makes of the receive buffer old[r] when the ranks send A. */
  ghost predicate Transposed(n: nat, width: nat, A: seq<seq<int>>, B: seq<seq<int>>, before: seq<seq<int>>) {
    && |A| == |B| == |before| == n
    && (forall r: nat | r < n :: |A[r]| == |before[r]| == BlockAt(n, width))
    && (forall r: nat | r < n :: Filled(RankPieces(BlockOffsets(n, width), Column(A, r, Same(n, width))), before[r],
                                        B[r]))
  }

  lemma TransposedBlock(n: nat, width: nat, A: seq<seq<int>>, B: seq<seq<int>>, before: seq<seq<int>>, r: nat, s: nat)
    requires Transposed(n, width, A, B, before) && r < n && s < n
    ensures |B[r]| == |A[s]| == BlockAt(n, width)
    ensures BlockAt(s, width) + width <= |B[r]| && BlockAt(r, width) + width <= |A[s]|
    ensures Block(B[r], s, width) == Block(A[s], r, width)
  {
    var data := Column(A, r, Same(n, width));
    forall q: nat | q < n ensures |data[q]| == width {
      BlocksInOrder(r, n, width);
    }
    BlocksInOrder(r, n, width);
    FilledBlock(n, width, data, before[r], B[r], s);
  }

  lemma BlockCell(buf: seq<int>, s: nat, width: nat, i: nat)
    requires BlockAt(s, width) <= i < BlockAt(s, width) + width <= |buf|
    ensures Block(buf, s, width)[i - BlockAt(s, width)] == buf[i]
  {
  }

  /** Two Alltoalls in a row give every rank its send buffer back. */
  lemma AlltoallTwiceRestores(n: nat, width: nat, A: seq<seq<int>>, B: seq<seq<int>>, C: seq<seq<int>>,
                              before: seq<seq<int>>, between: seq<seq<int>>)
    requires Transposed(n, width, A, B, before) && Transposed(n, width, B, C, between)
    ensures C == A
  {
    assert |A| == |C| == n;
    hide Transposed, Block, BlockAt;
    forall r: nat | r < n ensures C[r] == A[r] {
      TransposedBlock(n, width, B, C, between, r, 0);
      TransposedBlock(n, width, A, B, before, 0, r);
      forall i: nat | i < |A[r]| ensures C[r][i] == A[r][i] {
        var s := BlocksCover(n, width, i);
        TransposedBlock(n, width, B, C, between, r, s);
        TransposedBlock(n, width, A, B, before, s, r);
        BlockCell(C[r], s, width, i);
        BlockCell(A[r], s, width, i);
      }
    }
  }

  /** Every rank, fed with what it has taken in at this moment, has run the Alltoall between buffers of
      exactly n blocks of one width. */
  ghost predicate AllRan(w: Moment, send: Contribution, width: nat, feeds: seq<seq<Option<Message>>>, runs: seq<Run>) {
    && w.calls == [Exchange(send, OneWidth(width))] && Occurs(w) && |w.X| >= 2
    && |runs| == |feeds| == |w.X|
    && forall r: nat | r < |w.X| :: RanAt(w, send, width, r, feeds[r], runs[r])
  }

  ghost function OneWidth(width: nat): Width {
    (s: nat, h: History) => width
  }

  ghost predicate RanAt(w: Moment, send: Contribution, width: nat, r: nat, feed: seq<Option<Message>>, run: Run)
    requires AllValid(w.prior, |w.X|) && AllValid(w.calls, |w.X|) && r < |w.X|
  {
    && |send(r, Entering(w)[r])| == |run.buf| == BlockAt(|w.X|, width)
    && HasBlocks(send(r, Entering(w)[r]), |w.X|, width)
    && RanRing(AlltoallCall(|w.X|, r, send(r, Entering(w)[r]), width, width), feed, run)
    && exists got: History :: TookIn(w, r, got) && FedWith(feed, got)
  }

  lemma AllRanAt(w: Moment, send: Contribution, width: nat, feeds: seq<seq<Option<Message>>>, runs: seq<Run>, r: nat)
    requires AllRan(w, send, width, feeds, runs) && r < |w.X|
    ensures |runs[r].buf'| == |runs[r].buf| == |send(r, Entering(w)[r])| == BlockAt(|w.X|, width)
    ensures Filled(RankPieces(BlockOffsets(|w.X|, width),
                              Column(Contributions(Entering(w), send), r, Same(|w.X|, width))),
                   runs[r].buf, runs[r].buf')
  {
    var X := Entering(w);
    hide Block, BlockAt, RanRing, TookIn, RankPieces, Entering, Occurs, Performed, ProgramOf, FedWith;
    forall s: nat | s < |X| ensures HasBlocks(send(s, X[s]), |X|, width) {
      assert RanAt(w, send, width, s, feeds[s], runs[s]);
    }
    assert RanAt(w, send, width, r, feeds[r], runs[r]);
    var got: History :| TookIn(w, r, got) && FedWith(feeds[r], got);
    AlltoallTransposes(w, send, OneWidth(width), width, r, got, feeds[r], runs[r]);
    OneWidthIsSame(X, send, width, r);
  }

  lemma OneWidthIsSame(X: seq<History>, send: Contribution, width: nat, r: nat)
    requires r < |X| && forall s: nat | s < |X| :: HasBlocks(send(s, X[s]), |X|, width)
    ensures Exchanged(X, send, OneWidth(width), r) == Column(Contributions(X, send), r, Same(|X|, width))
  {
    var data := Column(Contributions(X, send), r, Same(|X|, width));
    assert WidthsOf(X, OneWidth(width)) == Same(|X|, width);
    forall s: nat | s < |X| ensures |data[s]| == width {
      assert HasBlocks(send(s, X[s]), |X|, width);
    }
    hide BlockAt;
    NothingCut(data, width);
  }

  /** Alltoall followed by an Alltoall of what it delivered: at any moment at which all ranks have come
      through both, every rank has its first send buffer back. */
  lemma TwoAlltoallsRestore(w: Moment, second: Moment, width: nat, send: Contribution, back: Contribution,
                            feeds: seq<seq<Option<Message>>>, runs: seq<Run>,
                            feeds': seq<seq<Option<Message>>>, runs': seq<Run>, r: nat)
    requires AllRan(w, send, width, feeds, runs) && AllRan(second, back, width, feeds', runs')
    requires second.X == w.X && second.prior == w.prior + w.calls && w.later == second.calls + second.later &&
             second.st == w.st
    requires forall s: nat | s < |w.X| :: back(s, Leaving(w)[s]) == runs[s].buf'
    requires r < |w.X|
    ensures runs'[r].buf' == send(r, Entering(w)[r])
  {
    AfterAllConcat(w.prior, w.calls, w.X);
    assert Entering(second) == Leaving(w);
    var n, X, Y := |w.X|, Entering(w), Leaving(w);
    var A, B, C := Contributions(X, send), Contributions(Y, back), seq(n, r requires 0 <= r < n => runs'[r].buf');
    var before, between := seq(n, r requires 0 <= r < n => runs[r].buf), seq(n, r requires 0 <= r < n => runs'[r].buf);
    hide AllRan, AfterAll, Filled, Column, RankPieces, BlockAt;
    forall r: nat | r < n ensures
      && |A[r]| == |B[r]| == |before[r]| == |between[r]| == BlockAt(n, width)
      && Filled(RankPieces(BlockOffsets(n, width), Column(A, r, Same(n, width))), before[r], B[r])
      && Filled(RankPieces(BlockOffsets(n, width), Column(B, r, Same(n, width))), between[r], C[r])
    {
      AllRanAt(w, send, width, feeds, runs, r);
      AllRanAt(second, back, width, feeds', runs', r);
    }
    AlltoallTwiceRestores(n, width, A, B, C, before, between);
    assert runs'[r].buf' == C[r];
  }
}
