/** The three ways to gather everything everywhere. */
module Agreement {
  import opened Wrappers
  import opened Network
  import opened Buffers
  import opened Endpoints
  import opened Jobs
  import opened MpiRing
  import opened MpiRooted
  import opened Filling
  import opened RingResults
  import opened RootedResults

  /** One rank's part in a call: a moment at which it has taken in what the call brings, `got`, and its run
      of the code, fed with that. */
  datatype Part = Part(w: Moment, contrib: Contribution, got: History, feed: seq<Option<Message>>, run: Run)

  /** The ranks contribute `data`, and rank r has come through the call. */
  ghost predicate TakesPart(p: Part, data: seq<Message>, r: nat) {
    && TookIn(p.w, r, p.got) && FedWith(p.feed, p.got) && Contributions(Entering(p.w), p.contrib) == data
  }

  ghost predicate InLoop(p: Part, data: seq<Message>, rc: nat, r: nat) {
    && TakesPart(p, data, r) && r < |data| && p.w.calls == [Announcing(p.contrib, (s, h) => rc)]
    && RanGather(MpiRooted.AllgatherCall(|data|, r, data[r], rc), p.feed, p.run)
  }

  ghost predicate InRing(p: Part, data: seq<Message>, rc: nat, r: nat) {
    && TakesPart(p, data, r) && r < |data| && p.w.calls == [Gathering(p.contrib)]
    && RanRing(MpiRing.AllgatherCall(|data|, r, data[r], rc), p.feed, p.run)
  }

  ghost predicate InRanges(p: Part, data: seq<Message>, rc: nat, r: nat) {
    && TakesPart(p, data, r) && r < |data|
    && p.w.calls == [GatheringRanges(p.contrib, (s, h) => Uniform(|data|, rc))]
    && RanRing(AllgathervCall(|data|, r, data[r], Uniform(|data|, rc), BlockOffsets(|data|, rc)), p.feed, p.run)
  }

  lemma LoopFills(p: Part, data: seq<Message>, rc: nat, r: nat)
    requires InLoop(p, data, rc, r) && AllOfLength(data, rc)
    ensures p.run.status == 0 && Filled(RankPieces(BlockOffsets(|data|, rc), data), p.run.buf, p.run.buf')
  {
    assert data[r] == p.contrib(r, Entering(p.w)[r]) && |data[r]| == rc;
    hide TookIn, RanGather, Filled, RankPieces, Entering, FedWith;
    AllgatherGathers(p.w, p.contrib, (s, h) => rc, r, p.got, p.feed, p.run);
  }

  lemma RingFillsToo(p: Part, data: seq<Message>, rc: nat, r: nat)
    requires InRing(p, data, rc, r) && AllOfLength(data, rc)
    ensures p.run.status == 0 && Filled(RankPieces(BlockOffsets(|data|, rc), data), p.run.buf, p.run.buf')
  {
    assert data[r] == p.contrib(r, Entering(p.w)[r]) && |data[r]| == rc;
    NothingCut(data, rc);
    hide TookIn, RanRing, Filled, RankPieces, Entering, FedWith, CutAll;
    AllgatherExpGathers(p.w, p.contrib, rc, r, p.got, p.feed, p.run);
  }

  lemma RangesFill(p: Part, data: seq<Message>, rc: nat, r: nat)
    requires InRanges(p, data, rc, r) && AllOfLength(data, rc)
    ensures p.run.status == 0 && Filled(RankPieces(BlockOffsets(|data|, rc), data), p.run.buf, p.run.buf')
  {
    assert data[r] == p.contrib(r, Entering(p.w)[r]) && |data[r]| == rc;
    BlocksDoNotOverlap(|data|, rc, data);
    hide TookIn, RanRing, Filled, RankPieces, Entering, FedWith, Apart;
    AllgathervExpGathers(p.w, p.contrib, (s, h) => Uniform(|data|, rc), BlockOffsets(|data|, rc), r, p.got, p.feed,
                         p.run);
  }

  /** Allgather, Allgather_exp, and Allgatherv_exp with equal counts and displacements j * count, called in
      whatever interleavings among whatever other calls, leave the same receive buffer on every rank when
      the ranks contribute the same to each. */
  lemma ThreeAllgathersAgree(loop: Part, ring: Part, ranges: Part, data: seq<Message>, rc: nat, r: nat)
    requires InLoop(loop, data, rc, r) && InRing(ring, data, rc, r) && InRanges(ranges, data, rc, r)
    requires AllOfLength(data, rc) && loop.run.buf == ring.run.buf == ranges.run.buf
    ensures loop.run.status == ring.run.status == ranges.run.status == 0
    ensures loop.run.buf' == ring.run.buf' == ranges.run.buf'
  {
    hide *;
    LoopFills(loop, data, rc, r);
    RingFillsToo(ring, data, rc, r);
    RangesFill(ranges, data, rc, r);
    var ps := RankPieces(BlockOffsets(|data|, rc), data);
    FilledIsUnique(ps, loop.run.buf, loop.run.buf', ring.run.buf');
    FilledIsUnique(ps, loop.run.buf, loop.run.buf', ranges.run.buf');
  }
}
