/** Copying pieces of data into a buffer at given offsets. */
module Buffers {

  datatype Piece = Piece(offset: nat, data: seq<int>)

  ghost predicate Fits(buf: seq<int>, p: Piece) {
    p.offset + |p.data| <= |buf|
  }

  ghost predicate Covers(p: Piece, i: nat) {
    p.offset <= i < p.offset + |p.data|
  }

  function Put(buf: seq<int>, p: Piece): (r: seq<int>)
    requires Fits(buf, p)
    ensures |r| == |buf|
  {
    buf[..p.offset] + p.data + buf[p.offset + |p.data|..]
  }

  ghost predicate AllFit(buf: seq<int>, ps: seq<Piece>) {
    forall k | 0 <= k < |ps| :: Fits(buf, ps[k])
  }

  /** The buffer after the pieces have been copied in, first to last. */
  ghost function PutAll(buf: seq<int>, ps: seq<Piece>): (r: seq<int>)
    requires AllFit(buf, ps)
    ensures |r| == |buf|
  {
    if ps == [] then buf else Put(PutAll(buf, ps[..|ps| - 1]), ps[|ps| - 1])
  }

  lemma PutAllOne(buf: seq<int>, ps: seq<Piece>, p: Piece)
    requires AllFit(buf, ps) && Fits(buf, p)
    ensures AllFit(buf, ps + [p]) && PutAll(buf, ps + [p]) == Put(PutAll(buf, ps), p)
  {
    assert (ps + [p])[..|ps|] == ps;
  }

  ghost predicate Apart(ps: seq<Piece>) {
    forall j: nat, k: nat, i: nat | j < |ps| && k < |ps| && Covers(ps[j], i) && Covers(ps[k], i) :: j == k
  }

  /** Pieces that do not overlap all read back, and nothing else changes. */
  lemma {:induction false} PutAllReads(buf: seq<int>, ps: seq<Piece>, i: nat)
    requires AllFit(buf, ps) && Apart(ps) && i < |buf|
    ensures forall k: nat | k < |ps| && Covers(ps[k], i) :: PutAll(buf, ps)[i] == ps[k].data[i - ps[k].offset]
    ensures (forall k: nat | k < |ps| :: !Covers(ps[k], i)) ==> PutAll(buf, ps)[i] == buf[i]
  {
    if ps != [] {
      var init := ps[..|ps| - 1];
      forall j: nat, k: nat, x: nat | j < |init| && k < |init| && Covers(init[j], x) && Covers(init[k], x)
        ensures j == k
      {
        assert Covers(ps[j], x) && Covers(ps[k], x);
      }
      PutAllReads(buf, init, i);
      forall k: nat | k < |ps| && Covers(ps[k], i)
        ensures PutAll(buf, ps)[i] == ps[k].data[i - ps[k].offset]
      {
        if k < |init| {
          assert Covers(init[k], i);
          assert !Covers(ps[|ps| - 1], i);
        }
      }
      assert forall k: nat | k < |init| :: init[k] == ps[k];
    }
  }

  /** Where block s starts in a buffer of blocks of equal width. */
  function BlockAt(s: nat, width: nat): nat { s * width }

  lemma BlocksInOrder(s: nat, t: nat, width: nat)
    requires s < t
    ensures BlockAt(s, width) + width <= BlockAt(t, width)
  {
    assert (s + 1) * width <= t * width;
  }

  lemma BlocksRise(s: nat, t: nat, width: nat)
    requires s <= t
    ensures BlockAt(s, width) <= BlockAt(t, width)
  {
    if s < t {
      BlocksInOrder(s, t, width);
    }
  }

  lemma BlocksApart(s: nat, t: nat, width: nat)
    requires s != t
    ensures BlockAt(s, width) + width <= BlockAt(t, width) || BlockAt(t, width) + width <= BlockAt(s, width)
  {
    if s < t {
      BlocksInOrder(s, t, width);
    } else {
      BlocksInOrder(t, s, width);
    }
  }

  ghost function BlockOffsets(n: nat, width: nat): (displ: seq<nat>)
    ensures |displ| == n && forall s: nat | s < n :: displ[s] == BlockAt(s, width)
  {
    seq(n, s requires 0 <= s < n => BlockAt(s, width))
  }

  ghost predicate HasBlocks(buf: seq<int>, n: nat, width: nat) {
    forall s: nat | s < n :: BlockAt(s, width) + width <= |buf|
  }

  function Block(buf: seq<int>, s: nat, width: nat): (b: seq<int>)
    requires BlockAt(s, width) + width <= |buf|
    ensures |b| == width
  {
    buf[BlockAt(s, width)..BlockAt(s, width) + width]
  }

  ghost function Blocks(buf: seq<int>, n: nat, width: nat): (bs: seq<seq<int>>)
    requires HasBlocks(buf, n, width)
    ensures |bs| == n && forall s: nat | s < n :: bs[s] == Block(buf, s, width)
  {
    seq(n, s requires 0 <= s < n => Block(buf, s, width))
  }

  ghost function Copies(n: nat, data: seq<int>): (ds: seq<seq<int>>)
    ensures |ds| == n && forall s: nat | s < n :: ds[s] == data
  {
    seq(n, _ => data)
  }

  /** memcpy of a whole piece into an array. */
  method CopyInto(a: array<int>, p: Piece)
    requires p.offset + |p.data| <= a.Length
    modifies a
    ensures a[..] == Put(old(a[..]), p)
  {
    forall i | 0 <= i < |p.data| {
      a[p.offset + i] := p.data[i];
    }
  }
}
