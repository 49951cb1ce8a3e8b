/**
  What happens in a collective when a rank contributes a length that another has not been told: who
  refuses, who returns, and who is left waiting for a message that is never sent.
 */
module Refusals {
  import opened Wrappers
  import opened Network
  import opened Offsets
  import opened Buffers
  import opened Endpoints
  import opened Collectives
  import opened Jobs
  import opened MpiRing
  import opened MpiRooted
  import opened Delivery
  import opened Filling
  import opened RingResults
  import opened RootedResults
  import Ph = Phases

  // ---------------------------------------------------------------- a rank that has returned

  /** Who sends the k-th message that rank r takes in. */
  ghost function Source(c: Collective, n: nat, r: nat, k: nat): (s: nat)
    requires Valid(c, n) && r < n && k < ReceiveCount(c, n, r)
    ensures s < n
  {
    match c
    case Ring(_, _) => Left(n, r, k + 1)
    case FanOut(root, _) => root
    case FanIn(_, _, _) => Skip(r, k)
    case Turns(_, _) => Skip(r, k)
  }

  /** That message has the length that r insists on. */
  ghost predicate KthSuits(c: Collective, X: seq<History>, r: nat, k: nat)
    requires Valid(c, |X|) && r < |X| && k < ReceiveCount(c, |X|, r)
  {
    var s := Source(c, |X|, r, k);
    Suits(ToldIn(c)(s, r, X[r]), c.pay(s, r, X[s]))
  }

  /** The step at which rank r takes it in. */
  ghost function RecvStep(c: Collective, n: nat, r: nat, k: nat): nat
    requires Valid(c, n)
  {
    match c
    case Ring(_, _) => RingRecvIndex(n, k + 1)
    case FanOut(_, _) => 0
    case FanIn(_, _, _) => k
    case Turns(_, _) => if k < r then k else k + n - 1
  }

  lemma RecvStepIs(c: Collective, n: nat, r: nat, k: nat)
    requires Valid(c, n) && r < n && k < ReceiveCount(c, n, r)
    ensures var j := RecvStep(c, n, r, k);
      && j < |ProgramOf(c, n, r)| && ProgramOf(c, n, r)[j].Recv? && ProgramOf(c, n, r)[j].src == Source(c, n, r, k)
    ensures k + 1 < ReceiveCount(c, n, r) ==> RecvStep(c, n, r, k) < RecvStep(c, n, r, k + 1)
  {
    hide Give, Insist, OffsetRank;
  }

  lemma EveryRecvStep(c: Collective, n: nat, r: nat, j: nat)
    requires Valid(c, n) && r < n && j < |ProgramOf(c, n, r)| && ProgramOf(c, n, r)[j].Recv?
    ensures Earlier(c, n, r, j) < ReceiveCount(c, n, r) && RecvStep(c, n, r, Earlier(c, n, r, j)) == j
  {
    hide Give, Insist, OffsetRank;
  }

  lemma TakenBefore(c: Collective, n: nat, r: nat, v: Ph.Values, k: nat, m: nat)
    requires Valid(c, n) && r < n && k <= |ProgramOf(c, n, r)| && m < |Heard(c, n, r, v, k)|
    ensures m < ReceiveCount(c, n, r) && RecvStep(c, n, r, m) < k
  {
    hide Give, Insist, OffsetRank;
  }

  lemma HeardLength(c: Collective, n: nat, r: nat, v: Ph.Values, k: nat)
    requires Valid(c, n) && r < n && k <= |ProgramOf(c, n, r)|
    ensures |Heard(c, n, r, v, k)| <= ReceiveCount(c, n, r)
    ensures k == |ProgramOf(c, n, r)| ==> |Heard(c, n, r, v, k)| == ReceiveCount(c, n, r)
  {
    hide Give, Insist, OffsetRank;
  }

  lemma HeardAt(c: Collective, X: seq<History>, r: nat, k: nat, j: nat)
    requires Valid(c, |X|) && r < |X| && k <= |ProgramOf(c, |X|, r)| && j < |Heard(c, |X|, r, ValueOf(c, X), k)|
    requires j < ReceiveCount(c, |X|, r)
    ensures Heard(c, |X|, r, ValueOf(c, X), k)[j] == Receives(c, X, r)[j]
  {
    hide Give, Insist, OffsetRank, ProgramOf, RingHeard, OthersHeard;
    match c
    case Ring(pay, told) =>
      assert Receives(c, X, r)[j] == pay(Left(|X|, r, j + 1), r, X[Left(|X|, r, j + 1)]);
    case FanOut(root, pay) =>
    case FanIn(root, pay, told) =>
    case Turns(pay, told) =>
  }

  lemma HeardIsPrefix(c: Collective, X: seq<History>, r: nat, k: nat)
    requires Valid(c, |X|) && r < |X| && k <= |ProgramOf(c, |X|, r)|
    ensures Heard(c, |X|, r, ValueOf(c, X), k) <= Receives(c, X, r)
    ensures k == |ProgramOf(c, |X|, r)| ==> |Heard(c, |X|, r, ValueOf(c, X), k)| == ReceiveCount(c, |X|, r)
  {
    hide *;
    HeardLength(c, |X|, r, ValueOf(c, X), k);
    var got := Heard(c, |X|, r, ValueOf(c, X), k);
    forall j: nat | j < |got| ensures got[j] == Receives(c, X, r)[j] {
      HeardAt(c, X, r, k, j);
    }
  }

  lemma SuitsIsAccepted(c: Collective, X: seq<History>, r: nat, m: nat)
    requires Valid(c, |X|) && r < |X| && m < ReceiveCount(c, |X|, r)
    ensures RecvStep(c, |X|, r, m) < |ProgramOf(c, |X|, r)|
    ensures Ph.Accepted(ProgramsOf(c, |X|), X, ValueOf(c, X), r, RecvStep(c, |X|, r, m)) <==> KthSuits(c, X, r, m)
  {
    RecvStepIs(c, |X|, r, m);
    AcceptanceIs(c, X, r, RecvStep(c, |X|, r, m));
    hide ProgramOf, Suits, Ph.Accepted;
  }

  /** What a rank that has returned from the call has taken in: the first messages of those meant for it,
      all of them accepted, and then either there are no more, or the last one was refused. */
  ghost predicate ReturnedWith(c: Collective, X: seq<History>, r: nat, got: History)
    requires Valid(c, |X|) && r < |X|
  {
    && got <= Receives(c, X, r)
    && (forall m: nat | m + 1 < |got| :: KthSuits(c, X, r, m))
    && ((got != [] ==> KthSuits(c, X, r, |got| - 1)) ==> |got| == ReceiveCount(c, |X|, r))
  }

  lemma HasTaken(c: Collective, X: seq<History>, st: State, e: nat, r: nat)
    requires Valid(c, |X|) && r < |X| && Shaped(ProgramsOf(c, |X|), st)
    requires Ph.RankAt(ProgramsOf(c, |X|), X, ValueOf(c, X), st, e, r)
    ensures e <= |ProgramOf(c, |X|, r)| && X[r] <= st.inbox[r]
    ensures st.inbox[r][|X[r]|..] == Heard(c, |X|, r, ValueOf(c, X), e)
  {
    GotIs(c, |X|, r, ValueOf(c, X), e);
    hide Heard, ProgramOf, Ph.Got, ValueOf, Ph.Accepted;
  }

  /** A message taken in before the last step done was accepted. */
  lemma EarlierSuits(c: Collective, X: seq<History>, st: State, e: nat, r: nat, m: nat)
    requires Valid(c, |X|) && r < |X| && Shaped(ProgramsOf(c, |X|), st)
    requires Ph.RankAt(ProgramsOf(c, |X|), X, ValueOf(c, X), st, e, r)
    requires m < |Heard(c, |X|, r, ValueOf(c, X), e)| && RecvStep(c, |X|, r, m) + 1 < e
    ensures m < ReceiveCount(c, |X|, r) && KthSuits(c, X, r, m)
  {
    TakenBefore(c, |X|, r, ValueOf(c, X), e, m);
    SuitsIsAccepted(c, X, r, m);
    hide Heard, ProgramOf, Ph.Got, ValueOf, Ph.Accepted, Suits, RecvStep, Ph.Stopped;
  }

  lemma LastTaken(c: Collective, n: nat, r: nat, v: Ph.Values, e: nat)
    requires Valid(c, n) && r < n && 0 < e <= |ProgramOf(c, n, r)| && ProgramOf(c, n, r)[e - 1].Recv?
    ensures |Heard(c, n, r, v, e)| == Earlier(c, n, r, e - 1) + 1
  {
    hide *;
    HeardStep(c, n, r, v, e - 1);
    HeardEarlier(c, n, r, v, e - 1);
  }

  lemma ReturnedRank(c: Collective, X: seq<History>, st: State, r: nat)
    requires Valid(c, |X|) && r < |X| && Reachable(ProgramsOf(c, |X|), X, st) && st.pc[r] == |ProgramOf(c, |X|, r)|
    ensures X[r] <= st.inbox[r] && ReturnedWith(c, X, r, st.inbox[r][|X[r]|..])
  {
    var P, v := ProgramsOf(c, |X|), ValueOf(c, X);
    IsPattern(c, |X|);
    PhaseCarries(c, X);
    var e := Ph.ReachableAt(P, X, v, st);
    assert Ph.RankAt(P, X, v, st, e[r], r);
    hide Ph.At, Ph.Pattern, Ph.Carries, ProgramOf, ProgramsOf, ValueOf, Heard, Receives, KthSuits, RecvStep;
    HasTaken(c, X, st, e[r], r);
    HeardIsPrefix(c, X, r, e[r]);
    ReturnedAt(c, X, st, e[r], r);
  }

  lemma LastRefused(c: Collective, X: seq<History>, st: State, e: nat, r: nat)
    requires Valid(c, |X|) && r < |X| && Shaped(ProgramsOf(c, |X|), st) && st.pc[r] == |ProgramOf(c, |X|, r)|
    requires Ph.RankAt(ProgramsOf(c, |X|), X, ValueOf(c, X), st, e, r) && e < |ProgramOf(c, |X|, r)|
    ensures e > 0 && ProgramOf(c, |X|, r)[e - 1].Recv?
    ensures !Ph.Accepted(ProgramsOf(c, |X|), X, ValueOf(c, X), r, e - 1)
  {
    hide ProgramOf, ValueOf, Ph.Before, Suits;
  }

  /** A rank that has left before the end has refused the last message it has taken in. */
  lemma LeftEarly(c: Collective, X: seq<History>, st: State, e: nat, r: nat)
    requires Valid(c, |X|) && r < |X| && Shaped(ProgramsOf(c, |X|), st) && st.pc[r] == |ProgramOf(c, |X|, r)|
    requires Ph.RankAt(ProgramsOf(c, |X|), X, ValueOf(c, X), st, e, r) && e < |ProgramOf(c, |X|, r)|
    ensures var got := Heard(c, |X|, r, ValueOf(c, X), e);
      0 < |got| <= ReceiveCount(c, |X|, r) && !KthSuits(c, X, r, |got| - 1)
  {
    hide *;
    LastRefused(c, X, st, e, r);
    EveryRecvStep(c, |X|, r, e - 1);
    LastTaken(c, |X|, r, ValueOf(c, X), e);
    SuitsIsAccepted(c, X, r, Earlier(c, |X|, r, e - 1));
  }

  /** All messages but the last one were accepted. */
  lemma AllButLast(c: Collective, X: seq<History>, st: State, e: nat, r: nat, m: nat)
    requires Valid(c, |X|) && r < |X| && Shaped(ProgramsOf(c, |X|), st) && e <= |ProgramOf(c, |X|, r)|
    requires Ph.RankAt(ProgramsOf(c, |X|), X, ValueOf(c, X), st, e, r) && m + 1 < |Heard(c, |X|, r, ValueOf(c, X), e)|
    ensures m < ReceiveCount(c, |X|, r) && KthSuits(c, X, r, m)
  {
    hide *;
    TakenBefore(c, |X|, r, ValueOf(c, X), e, m);
    TakenBefore(c, |X|, r, ValueOf(c, X), e, m + 1);
    RecvStepIs(c, |X|, r, m);
    EarlierSuits(c, X, st, e, r, m);
  }

  lemma ReturnedAt(c: Collective, X: seq<History>, st: State, e: nat, r: nat)
    requires Valid(c, |X|) && r < |X| && Shaped(ProgramsOf(c, |X|), st) && st.pc[r] == |ProgramOf(c, |X|, r)|
    requires Ph.RankAt(ProgramsOf(c, |X|), X, ValueOf(c, X), st, e, r) && e <= |ProgramOf(c, |X|, r)|
    ensures ReturnedWith(c, X, r, Heard(c, |X|, r, ValueOf(c, X), e))
  {
    hide KthSuits, RecvStep, Receives, Heard, ProgramOf, ProgramsOf, ValueOf, Ph.RankAt, Addressed, Shaped;
    var got := Heard(c, |X|, r, ValueOf(c, X), e);
    HeardIsPrefix(c, X, r, e);
    forall m: nat | m + 1 < |got| ensures KthSuits(c, X, r, m) {
      AllButLast(c, X, st, e, r, m);
    }
    if e < |ProgramOf(c, |X|, r)| {
      LeftEarly(c, X, st, e, r);
    }
  }

  // ---------------------------------------------------------------- Allgatherv_exp

  lemma FineIsSuits(X: seq<History>, contrib: Contribution, counts: Counts, displs: seq<nat>, r: nat, k: nat)
    requires |X| >= 2 && r < |X| && |counts(r, X[r])| == |displs| == |X| && k < |X| - 1
    ensures var call, c := GatheringRanges(contrib, counts),
            AllgathervCall(|X|, r, contrib(r, X[r]), counts(r, X[r]), displs);
      var s := Left(|X|, r, k + 1);
      && (KthSuits(call, X, r, k) <==> |contrib(s, X[s])| == counts(r, X[r])[s])
      && (KthSuits(call, X, r, k) <==> Fine(c.want, k, Receives(call, X, r)[k]))
  {
    hide OffsetRank;
  }

  /** In every interleaving of a call of Allgatherv_exp, although ranks that have refused a message stop
      sending: a rank that has returned has code 0 or 5, and 5 if and only if some other rank contributes
      a length that it was not told of. */
  lemma AllgathervExpRefuses(X: seq<History>, contrib: Contribution, counts: Counts, displs: seq<nat>, r: nat,
                             st: State, feed: seq<Option<Message>>, run: Run)
    requires |X| >= 2 && r < |X| && |counts(r, X[r])| == |displs| == |X|
    requires Reachable(ProgramsOf(GatheringRanges(contrib, counts), |X|), X, st) && st.pc[r] == 2 * |X| - 2
    requires X[r] <= st.inbox[r] && FedWith(feed, st.inbox[r][|X[r]|..])
    requires RanRing(AllgathervCall(|X|, r, contrib(r, X[r]), counts(r, X[r]), displs), feed, run)
    ensures run.status in {0, 5}
    ensures run.status == 5 <==> exists s: nat :: s < |X| && s != r && |contrib(s, X[s])| != counts(r, X[r])[s]
  {
    var call := GatheringRanges(contrib, counts);
    ReturnedRank(call, X, st, r);
    var got := st.inbox[r][|X[r]|..];
    hide Reachable, ProgramsOf, ReturnedWith, RanRing, KthSuits;
    RefusedRun(X, contrib, counts, displs, r, got, feed, run);
    hide *;
    if KthSuits(call, X, r, |got| - 1) {
      AllTold(X, contrib, counts, displs, r, got);
    } else {
      var s := OneNotTold(X, contrib, counts, displs, r, got);
    }
  }

  lemma AllTold(X: seq<History>, contrib: Contribution, counts: Counts, displs: seq<nat>, r: nat, got: History)
    requires |X| >= 2 && r < |X| && |counts(r, X[r])| == |displs| == |X| && 0 < |got| <= |X| - 1
    requires ReturnedWith(GatheringRanges(contrib, counts), X, r, got)
    requires KthSuits(GatheringRanges(contrib, counts), X, r, |got| - 1)
    ensures forall s: nat | s < |X| && s != r :: |contrib(s, X[s])| == counts(r, X[r])[s]
  {
    hide KthSuits, Receives, OffsetRank;
    forall s: nat | s < |X| && s != r ensures |contrib(s, X[s])| == counts(r, X[r])[s] {
      var k := Distance(|X|, s, r) - 1;
      RingMeetsEveryRankOnce(|X|, s, r, k + 1);
      RingMeetsEveryRankOnce(|X|, s, r, 0);
      FineIsSuits(X, contrib, counts, displs, r, k);
    }
  }

  lemma OneNotTold(X: seq<History>, contrib: Contribution, counts: Counts, displs: seq<nat>, r: nat, got: History)
    returns (s: nat)
    requires |X| >= 2 && r < |X| && |counts(r, X[r])| == |displs| == |X| && 0 < |got| <= |X| - 1
    requires !KthSuits(GatheringRanges(contrib, counts), X, r, |got| - 1)
    ensures s < |X| && s != r && |contrib(s, X[s])| != counts(r, X[r])[s]
  {
    s := Left(|X|, r, |got|);
    FineIsSuits(X, contrib, counts, displs, r, |got| - 1);
    RingMeetsEveryRankOnce(|X|, s, r, |got|);
    hide KthSuits, Receives, OffsetRank;
  }

  lemma RefusedRun(X: seq<History>, contrib: Contribution, counts: Counts, displs: seq<nat>, r: nat, got: History,
                   feed: seq<Option<Message>>, run: Run)
    requires |X| >= 2 && r < |X| && |counts(r, X[r])| == |displs| == |X|
    requires ReturnedWith(GatheringRanges(contrib, counts), X, r, got) && FedWith(feed, got)
    requires RanRing(AllgathervCall(|X|, r, contrib(r, X[r]), counts(r, X[r]), displs), feed, run)
    ensures 0 < |got| <= |X| - 1
    ensures run.status == if KthSuits(GatheringRanges(contrib, counts), X, r, |got| - 1) then 0 else 5
  {
    var n, call := |X|, GatheringRanges(contrib, counts);
    var c := AllgathervCall(n, r, contrib(r, X[r]), counts(r, X[r]), displs);
    assert |got| <= n - 1 && |Receives(call, X, r)| == n - 1;
    forall k: nat | k < |got| ensures feed[k] == Some(got[k]) &&
      (KthSuits(call, X, r, k) <==> Fine(c.want, k, got[k])) {
      FineIsSuits(X, contrib, counts, displs, r, k);
      assert got[k] == Receives(call, X, r)[k];
    }
    hide KthSuits, Receives, Fine, Room, RingLog, RingPieces, PutAll, AllFit, AllgathervCall;
    if KthSuits(call, X, r, |got| - 1) {
      AcceptedIs(feed, c.want, 0, n - 1, n - 1);
    } else {
      AcceptedIs(feed, c.want, 0, |got| - 1, n - 1);
    }
  }

  // ---------------------------------------------------------------- Gather and Allgather

  /** A Gather at its root, or an Allgather. */
  ghost predicate CollectsAt(c: Collective, contrib: Contribution, len: Width, r: nat) {
    c == Collecting(r, contrib, len) || c == Announcing(contrib, len)
  }

  lemma BlockSuits(c: Collective, X: seq<History>, contrib: Contribution, len: Width, r: nat, k: nat)
    requires r < |X| && CollectsAt(c, contrib, len, r) && k < |X| - 1
    ensures KthSuits(c, X, r, k) <==> |contrib(Skip(r, k), X[Skip(r, k)])| == len(r, X[r])
    ensures Receives(c, X, r)[k] == contrib(Skip(r, k), X[Skip(r, k)])
  {
  }

  lemma RefusedGather(c: Collective, X: seq<History>, contrib: Contribution, len: Width, r: nat, g: GatherCall,
                      got: History, feed: seq<Option<Message>>, run: Run)
    requires r < |X| && CollectsAt(c, contrib, len, r) && ReturnedWith(c, X, r, got) && FedWith(feed, got)
    requires g.n == |X| && g.r == r && g.rc == len(r, X[r]) && RanGather(g, feed, run)
    ensures |got| <= |X| - 1
    ensures run.status == if got == [] || KthSuits(c, X, r, |got| - 1) then 0 else 5
  {
    var n := |X|;
    assert |got| <= |Receives(c, X, r)| == n - 1;
    forall k: nat | k < |got| ensures feed[k] == Some(got[k]) && (KthSuits(c, X, r, k) <==> |got[k]| == g.rc) {
      BlockSuits(c, X, contrib, len, r, k);
      assert got[k] == Receives(c, X, r)[k];
    }
    hide KthSuits, Receives, BlocksFit, TurnLog, BlockPieces, PutAll, AllFit, CollectsAt;
    if got == [] || KthSuits(c, X, r, |got| - 1) {
      AcceptedIs(feed, Uniform(n - 1, g.rc), 0, n - 1, n - 1);
    } else {
      AcceptedIs(feed, Uniform(n - 1, g.rc), 0, |got| - 1, n - 1);
    }
  }

  /** In every interleaving of a Gather or an Allgather: the root of the one, or a rank of the other, that
      has returned has code 0 or 5, and 5 if and only if some other rank contributes a length other than the
      one it wants. */
  lemma GatherRefuses(c: Collective, X: seq<History>, contrib: Contribution, len: Width, r: nat, g: GatherCall,
                      st: State, feed: seq<Option<Message>>, run: Run)
    requires r < |X| && CollectsAt(c, contrib, len, r) && Reachable(ProgramsOf(c, |X|), X, st)
    requires st.pc[r] == |ProgramOf(c, |X|, r)| && X[r] <= st.inbox[r] && FedWith(feed, st.inbox[r][|X[r]|..])
    requires g.n == |X| && g.r == r && g.rc == len(r, X[r]) && RanGather(g, feed, run)
    ensures run.status in {0, 5}
    ensures run.status == 5 <==> exists s: nat :: s < |X| && s != r && |contrib(s, X[s])| != len(r, X[r])
  {
    ReturnedRank(c, X, st, r);
    var got := st.inbox[r][|X[r]|..];
    hide Reachable, ProgramsOf, ProgramOf, RanGather, CollectsAt, ReturnedWith, KthSuits;
    RefusedGather(c, X, contrib, len, r, g, got, feed, run);
    GatherTold(c, X, contrib, len, r, got);
  }

  lemma GatherTold(c: Collective, X: seq<History>, contrib: Contribution, len: Width, r: nat, got: History)
    requires r < |X| && CollectsAt(c, contrib, len, r) && ReturnedWith(c, X, r, got)
    ensures |got| <= |X| - 1
    ensures (got == [] || KthSuits(c, X, r, |got| - 1)) <==>
            forall s: nat | s < |X| && s != r :: |contrib(s, X[s])| == len(r, X[r])
  {
    assert |got| <= |Receives(c, X, r)| == |X| - 1;
    hide KthSuits, Receives, CollectsAt;
    if got == [] || KthSuits(c, X, r, |got| - 1) {
      forall s: nat | s < |X| && s != r ensures |contrib(s, X[s])| == len(r, X[r]) {
        BlockSuits(c, X, contrib, len, r, SkipIndex(r, s));
      }
    } else {
      BlockSuits(c, X, contrib, len, r, |got| - 1);
      assert Skip(r, |got| - 1) < |X|;
    }
  }
}
