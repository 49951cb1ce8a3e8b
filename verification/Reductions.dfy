/** What Reduce and Allreduce compute: the sum, the least or the greatest of the elements in each place. */
module Reductions {
  import opened Wrappers
  import opened Network
  import opened Endpoints
  import opened Jobs
  import opened MpiReduce
  import opened Filling
  import opened RootedResults

  ghost function Sum(xs: seq<int>): int {
    if xs == [] then 0 else Sum(xs[..|xs| - 1]) + xs[|xs| - 1]
  }

  ghost predicate IsLeast(x: int, xs: seq<int>) {
    x in xs && forall y | y in xs :: x <= y
  }

  ghost predicate IsGreatest(x: int, xs: seq<int>) {
    x in xs && forall y | y in xs :: y <= x
  }

  /** x is what operation op makes of these elements: 0 is the sum, 1 the minimum, all else the maximum. */
  ghost predicate IsResult(op: nat, x: int, xs: seq<int>) {
    if op == 0 then x == Sum(xs) else if op == 1 then IsLeast(x, xs) else IsGreatest(x, xs)
  }

  lemma ResultOfOne(op: nat, x: int)
    ensures IsResult(op, x, [x])
  {
    assert [x][..0] == [] && Sum([]) == 0;
  }

  lemma ResultOfOneMore(op: nat, x: int, xs: seq<int>, y: int)
    requires xs != [] && IsResult(op, x, xs)
    ensures IsResult(op, Combine(op, x, y), xs + [y])
  {
    assert (xs + [y])[..|xs|] == xs;
    assert forall z :: z in xs + [y] <==> z in xs || z == y;
  }

  lemma {:induction false} FoldIsResult(op: nat, xs: seq<int>, m: nat)
    requires 0 < m <= |xs|
    ensures IsResult(op, FoldUp(op, xs, m), xs[..m])
  {
    if m == 1 {
      assert xs[..1] == [xs[0]];
      ResultOfOne(op, xs[0]);
    } else {
      assert xs[..m] == xs[..m - 1] + [xs[m - 1]];
      FoldIsResult(op, xs, m - 1);
      hide IsResult, Combine;
      ResultOfOneMore(op, FoldUp(op, xs, m - 1), xs[..m - 1], xs[m - 1]);
    }
  }

  /** What the ranks contribute in place j. */
  ghost function InPlace(X: seq<History>, contrib: Contribution, j: nat): (xs: seq<int>)
    requires forall s: nat | s < |X| :: j < |contrib(s, X[s])|
    ensures |xs| == |X| && forall s: nat | s < |X| :: xs[s] == contrib(s, X[s])[j]
  {
    seq(|X|, s requires 0 <= s < |X| => contrib(s, X[s])[j])
  }

  /** The front of the buffer has in each place the result of all ranks' elements in that place. */
  ghost predicate HasResults(X: seq<History>, contrib: Contribution, op: nat, buf: seq<int>, len: nat) {
    && len <= |buf| && (forall s: nat | s < |X| :: len <= |contrib(s, X[s])|)
    && forall j: nat | j < len :: IsResult(op, buf[j], InPlace(X, contrib, j))
  }

  lemma TotalIsResult(X: seq<History>, contrib: Contribution, op: nat, len: nat, j: nat)
    requires |X| > 0 && AllAtLeast(Contributions(X, contrib), len) && j < len
    requires forall s: nat | s < |X| :: len <= |contrib(s, X[s])|
    ensures IsResult(op, Total(op, Contributions(X, contrib), len)[j], InPlace(X, contrib, j))
  {
    var data := Contributions(X, contrib);
    assert AllAtLeast(data, j + 1);
    var xs := ElementColumn(data, j);
    assert xs == InPlace(X, contrib, j) && xs[..|xs|] == xs;
    hide IsResult, FoldUp;
    FoldIsResult(op, xs, |xs|);
  }

  lemma TotalHasResults(X: seq<History>, contrib: Contribution, op: nat, len: nat, buf: seq<int>, rest: seq<int>)
    requires |X| > 0 && AllAtLeast(Contributions(X, contrib), len)
    requires buf == Total(op, Contributions(X, contrib), len) + rest
    ensures HasResults(X, contrib, op, buf, len)
  {
    var data := Contributions(X, contrib);
    forall s: nat | s < |X| ensures len <= |contrib(s, X[s])| {
      assert data[s] == contrib(s, X[s]);
    }
    hide IsResult, Total;
    forall j: nat | j < len ensures IsResult(op, buf[j], InPlace(X, contrib, j)) {
      TotalIsResult(X, contrib, op, len, j);
      assert buf[j] == Total(op, data, len)[j];
    }
  }

  /** Reduce, at a moment of any interleaving at which the root has taken in what the call brings: in
      each place of the root's buffer is the sum, the least or the greatest of what the ranks have
      contributed in that place. */
  lemma ReduceComputes(w: Moment, contrib: Contribution, op: nat, root: nat, got: History,
                       feed: seq<Option<Message>>, run: Run)
    requires w.calls == [Reducing(root, contrib)] && TookIn(w, root, got) && FedWith(feed, got)
    requires RanReduce(|w.X|, root, root, contrib(root, Entering(w)[root]), op, feed, run)
    requires AllAtLeast(Contributions(Entering(w), contrib), |contrib(root, Entering(w)[root])|)
    ensures HasResults(Entering(w), contrib, op, run.buf', |contrib(root, Entering(w)[root])|)
  {
    assert |Entering(w)| == |w.X| > 0;
    hide *;
    ReduceGivesTotal(w, contrib, op, root, root, got, feed, run);
    var len := |contrib(root, Entering(w)[root])|;
    TotalHasResults(Entering(w), contrib, op, len, run.buf', run.buf[len..]);
  }

  /** Allreduce likewise, at every rank that asks for as many elements as rank 0. */
  lemma AllreduceComputes(w: Moment, contrib: Contribution, op: nat, r: nat, got: History,
                          feed: seq<Option<Message>>, run: Run)
    requires w.calls == [Reducing(0, contrib), Answering(contrib, op, |w.X|)] && TookIn(w, r, got) && FedWith(feed, got)
    requires RanAllreduce(|w.X|, r, contrib(r, Entering(w)[r]), op, feed, run)
    requires AllAtLeast(Contributions(Entering(w), contrib), |contrib(0, Entering(w)[0])|)
    requires AllAtLeast(Contributions(Entering(w), contrib), 1)
    requires |contrib(r, Entering(w)[r])| == |contrib(0, Entering(w)[0])|
    ensures HasResults(Entering(w), contrib, op, run.buf', |contrib(0, Entering(w)[0])|)
  {
    AllreduceGivesTotal(w, contrib, op, r, got, feed, run);
    var len := |contrib(0, Entering(w)[0])|;
    assert run.buf' == Total(op, Contributions(Entering(w), contrib), len) + run.buf[len..];
    assert |Entering(w)| > 0;
    hide *;
    TotalHasResults(Entering(w), contrib, op, len, run.buf', run.buf[len..]);
  }
}
