/** Which ranks a collective talks to, and in which order. */
module Offsets {

  /** RDMA_GetOffsetRank: the rank `offset` places to the right or to the left on the ring. */
  function OffsetRank(localRank: nat, wholeRanks: nat, offset: nat, rightSide: bool): (r: nat)
    requires localRank < wholeRanks && offset <= wholeRanks
    ensures offset < wholeRanks ==> r < wholeRanks
  {
    if rightSide then
      var offsetRank := localRank + offset;
      if offsetRank > wholeRanks - 1 then offsetRank - wholeRanks else offsetRank
    else
      var offsetRank: int := localRank - offset;
      if offsetRank < 0 then offsetRank + wholeRanks else offsetRank
  }

  function Right(n: nat, r: nat, i: nat): (q: nat)
    requires r < n && i < n
    ensures q < n
  {
    OffsetRank(r, n, i, true)
  }

  function Left(n: nat, r: nat, i: nat): (q: nat)
    requires r < n && i < n
    ensures q < n
  {
    OffsetRank(r, n, i, false)
  }

  /** The offsets are counted around the ring: the rank on the right is r + i but for a whole turn, and r is the
      same from the rank on the left. */
  lemma OffsetsAre(n: nat, r: nat, i: nat)
    requires r < n && i < n
    ensures Right(n, r, i) == r + i || Right(n, r, i) == r + i - n
    ensures Left(n, r, i) + i == r || Left(n, r, i) + i == r + n
  {
  }

  /** How many places r lies to the right of s. */
  function Distance(n: nat, s: nat, r: nat): (i: nat)
    requires s < n && r < n
    ensures i < n
  {
    Left(n, r, s)
  }

  /** Going right and going left undo each other, and the distance names the only way between
      two ranks, so the staggered ring meets every other rank exactly once on either side. */
  lemma RingMeetsEveryRankOnce(n: nat, s: nat, r: nat, i: nat)
    requires s < n && r < n && i < n
    ensures Right(n, s, i) == r <==> Left(n, r, i) == s
    ensures Left(n, r, i) == s <==> i == Distance(n, s, r)
    ensures i == 0 <==> Left(n, r, i) == r
  {
  }

  /** The k-th rank other than `root`, counting upwards. */
  function Skip(root: nat, k: nat): (q: nat)
    ensures q != root
  {
    if k < root then k else k + 1
  }

  function SkipIndex(root: nat, q: nat): (k: nat)
    requires q != root
    ensures Skip(root, k) == q
  {
    if q < root then q else q - 1
  }
}
