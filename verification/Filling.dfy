/** When pieces of data are copied into a buffer, what the buffer holds, whatever the order. */
module Filling {
  import opened Wrappers
  import opened Network
  import opened Buffers
  import opened Endpoints

  /** The endpoint is fed with these messages, and then with more. */
  ghost predicate FedWith(feed: seq<Option<Message>>, got: History) {
    |got| <= |feed| && forall k: nat | k < |got| :: feed[k] == Some(got[k])
  }

  lemma TakenFed(feed: seq<Option<Message>>, got: History)
    requires FedWith(feed, got)
    ensures Taken(feed, |got|) == got
  {
  }

  ghost function RankPieces(displs: seq<nat>, data: seq<Message>): (ps: seq<Piece>)
    requires |displs| == |data|
    ensures |ps| == |data| && forall s: nat | s < |data| :: ps[s] == Piece(displs[s], data[s])
  {
    seq(|data|, s requires 0 <= s < |data| => Piece(displs[s], data[s]))
  }

  ghost predicate FilledAt(ps: seq<Piece>, buf: seq<int>, buf': seq<int>, i: nat)
    requires i < |buf| == |buf'|
  {
    && (forall k: nat | k < |ps| && Covers(ps[k], i) :: buf'[i] == ps[k].data[i - ps[k].offset])
    && ((forall k: nat | k < |ps| :: !Covers(ps[k], i)) ==> buf'[i] == buf[i])
  }

  /** Every piece is in its place in buf' and every other cell is as it was in buf. */
  ghost predicate Filled(ps: seq<Piece>, buf: seq<int>, buf': seq<int>) {
    |buf'| == |buf| && AllFit(buf, ps) && forall i: nat | i < |buf| :: FilledAt(ps, buf, buf', i)
  }

  /** The two conditions leave no choice. */
  lemma FilledIsUnique(ps: seq<Piece>, buf: seq<int>, a: seq<int>, b: seq<int>)
    requires Filled(ps, buf, a) && Filled(ps, buf, b)
    ensures a == b
  {
    forall i: nat | i < |buf| ensures a[i] == b[i] {
      assert FilledAt(ps, buf, a, i) && FilledAt(ps, buf, b, i);
    }
  }

  /** The same pieces in another order. */
  ghost predicate SamePieces(ps: seq<Piece>, qs: seq<Piece>, f: seq<nat>, g: seq<nat>) {
    && |ps| == |qs| == |f| == |g|
    && (forall j: nat | j < |ps| :: f[j] < |ps| && g[j] < |ps|)
    && (forall j: nat | j < |ps| :: g[f[j]] == j && f[g[j]] == j && ps[j] == qs[f[j]])
  }

  lemma ApartInOtherOrder(ps: seq<Piece>, qs: seq<Piece>, f: seq<nat>, g: seq<nat>)
    requires SamePieces(ps, qs, f, g) && Apart(qs)
    ensures Apart(ps)
  {
    forall j: nat, k: nat, i: nat | j < |ps| && k < |ps| && Covers(ps[j], i) && Covers(ps[k], i) ensures j == k {
      assert Covers(qs[f[j]], i) && Covers(qs[f[k]], i);
      assert g[f[j]] == g[f[k]];
    }
  }

  lemma SamePiecesAt(ps: seq<Piece>, qs: seq<Piece>, f: seq<nat>, g: seq<nat>, k: nat)
    requires SamePieces(ps, qs, f, g) && k < |ps|
    ensures |ps| == |qs| && k < |f| == |g| && f[k] < |qs| && g[k] < |ps| && ps[k] == qs[f[k]] && qs[k] == ps[g[k]]
  {
    assert ps[g[k]] == qs[f[g[k]]];
  }

  lemma FillsCovered(buf: seq<int>, ps: seq<Piece>, qs: seq<Piece>, f: seq<nat>, g: seq<nat>, i: nat, k: nat)
    requires AllFit(buf, ps) && SamePieces(ps, qs, f, g) && Apart(ps) && i < |buf| && k < |qs| && Covers(qs[k], i)
    ensures PutAll(buf, ps)[i] == qs[k].data[i - qs[k].offset]
  {
    SamePiecesAt(ps, qs, f, g, k);
    hide SamePieces;
    PutAllReads(buf, ps, i);
    assert Covers(ps[g[k]], i);
  }

  lemma FillsUncovered(buf: seq<int>, ps: seq<Piece>, qs: seq<Piece>, f: seq<nat>, g: seq<nat>, i: nat)
    requires AllFit(buf, ps) && SamePieces(ps, qs, f, g) && Apart(ps) && i < |buf|
    requires forall k: nat | k < |qs| :: !Covers(qs[k], i)
    ensures PutAll(buf, ps)[i] == buf[i]
  {
    forall j: nat | j < |ps| ensures !Covers(ps[j], i) {
      SamePiecesAt(ps, qs, f, g, j);
    }
    hide SamePieces;
    PutAllReads(buf, ps, i);
  }

  lemma FillsAt(buf: seq<int>, ps: seq<Piece>, qs: seq<Piece>, f: seq<nat>, g: seq<nat>, i: nat)
    requires AllFit(buf, ps) && SamePieces(ps, qs, f, g) && Apart(ps) && i < |buf|
    ensures FilledAt(qs, buf, PutAll(buf, ps), i)
  {
    forall k: nat | k < |qs| && Covers(qs[k], i)
      ensures PutAll(buf, ps)[i] == qs[k].data[i - qs[k].offset]
    {
      FillsCovered(buf, ps, qs, f, g, i, k);
    }
    if forall k: nat | k < |qs| :: !Covers(qs[k], i) {
      FillsUncovered(buf, ps, qs, f, g, i);
    }
    hide Apart, PutAll, AllFit, Covers, SamePieces;
  }

  lemma PutAllFills(buf: seq<int>, ps: seq<Piece>, qs: seq<Piece>, f: seq<nat>, g: seq<nat>)
    requires AllFit(buf, ps) && SamePieces(ps, qs, f, g) && Apart(qs)
    ensures Filled(qs, buf, PutAll(buf, ps))
  {
    ApartInOtherOrder(ps, qs, f, g);
    assert AllFit(buf, qs) by {
      forall j | 0 <= j < |qs| ensures Fits(buf, qs[j]) {
        assert qs[j] == qs[f[g[j]]] == ps[g[j]];
      }
    }
    hide Apart, PutAll, AllFit, FilledAt;
    forall i: nat | i < |buf| ensures FilledAt(qs, buf, PutAll(buf, ps), i) {
      FillsAt(buf, ps, qs, f, g, i);
    }
  }

  lemma BlocksDoNotOverlap(n: nat, width: nat, data: seq<Message>)
    requires |data| == n && forall s: nat | s < n :: |data[s]| <= width
    ensures Apart(RankPieces(BlockOffsets(n, width), data))
  {
    var ps := RankPieces(BlockOffsets(n, width), data);
    forall j: nat, k: nat, i: nat | j < n && k < n && Covers(ps[j], i) && Covers(ps[k], i) ensures j == k {
      if j != k {
        BlocksApart(j, k, width);
      }
    }
  }

  ghost predicate AllOfLength(data: seq<Message>, len: nat) {
    forall s: nat | s < |data| :: |data[s]| == len
  }

  lemma FilledBlock(n: nat, width: nat, data: seq<Message>, buf: seq<int>, buf': seq<int>, s: nat)
    requires s < n == |data| && AllOfLength(data, width) && BlockAt(n, width) <= |buf|
    requires Filled(RankPieces(BlockOffsets(n, width), data), buf, buf')
    ensures BlockAt(s, width) + width <= |buf'| && Block(buf', s, width) == data[s]
  {
    BlocksInOrder(s, n, width);
    var ps := RankPieces(BlockOffsets(n, width), data);
    forall i: nat | i < width ensures buf'[BlockAt(s, width) + i] == data[s][i] {
      assert FilledAt(ps, buf, buf', BlockAt(s, width) + i);
      assert Covers(ps[s], BlockAt(s, width) + i);
    }
  }

  lemma {:induction false} BlocksCover(n: nat, width: nat, i: nat) returns (s: nat)
    requires i < BlockAt(n, width)
    ensures s < n && BlockAt(s, width) <= i < BlockAt(s, width) + width
    decreases n
  {
    assert n > 0 && BlockAt(n, width) == BlockAt(n - 1, width) + width;
    if i < BlockAt(n - 1, width) {
      s := BlocksCover(n - 1, width, i);
    } else {
      s := n - 1;
    }
  }

  /** What rank s puts into a collective, as a function of all it has received before. */
  type Contribution = (nat, History) -> Message

  ghost function Contributions(X: seq<History>, contrib: Contribution): (data: seq<Message>)
    ensures |data| == |X| && forall s: nat | s < |X| :: data[s] == contrib(s, X[s])
  {
    seq(|X|, s requires 0 <= s < |X| => contrib(s, X[s]))
  }

  ghost function ToAll(contrib: Contribution): (nat, nat, History) -> Message {
    (s: nat, d: nat, h: History) => contrib(s, h)
  }

  ghost function BlockOrNone(buf: seq<int>, d: nat, width: nat): Message {
    if BlockAt(d, width) + width <= |buf| then Block(buf, d, width) else []
  }

  /** How wide the blocks are that rank s sends. */
  type Width = (nat, History) -> nat

  /** Rank s sends block d of its send buffer to rank d. */
  ghost function Scattered(send: Contribution, width: Width): (nat, nat, History) -> Message {
    (s: nat, d: nat, h: History) => BlockOrNone(send(s, h), d, width(s, h))
  }

  /** The first `len` cells of each message. */
  ghost function CutAll(data: seq<Message>, len: nat): (cut: seq<Message>)
    ensures |cut| == |data| && forall s: nat | s < |data| :: cut[s] == Cut(Some(len), data[s])
  {
    seq(|data|, s requires 0 <= s < |data| => Cut(Some(len), data[s]))
  }

  lemma NothingCut(data: seq<Message>, len: nat)
    requires AllOfLength(data, len)
    ensures CutAll(data, len) == data
  {
    forall s: nat | s < |data| ensures CutAll(data, len)[s] == data[s] {
      assert data[s][..len] == data[s];
    }
  }

  ghost predicate AllAtLeast(data: seq<Message>, len: nat) {
    forall s: nat | s < |data| :: len <= |data[s]|
  }
}
