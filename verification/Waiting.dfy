/**
  Who returns from a collective in which some rank has refused a message, and who waits for ever.  And two
  calls with one wrong length each, of which one leaves a rank waiting and the other lets a rank through a
  barrier that another has not reached.
 */
module Waiting {
  import opened Wrappers
  import opened Network
  import opened Phases
  import opened Offsets
  import opened Collectives
  import opened Jobs
  import opened Filling
  import RR = RingResults

  // ---------------------------------------------------------------- the ring

  /** Rank s contributes what rank r is told. */
  ghost predicate Told1(c: Collective, X: seq<History>, s: nat, r: nat)
    requires s < |X| && r < |X|
  {
    Suits(ToldIn(c)(s, r, X[r]), c.pay(s, r, X[s]))
  }

  /** Rank r accepts its first k messages on the ring: the k-th is sent, and it has the right length. */
  ghost predicate Passes(c: Collective, X: seq<History>, r: nat, k: nat)
    requires r < |X| && k < |X|
    decreases k, 1
  {
    k > 0 ==>
      var s := Left(|X|, r, k);
      Passes(c, X, r, k - 1) && SendsOn(c, X, s, k) && Told1(c, X, s, r)
  }

  /** Rank s comes to its i-th send: it sends two messages at once, and after that one for each message it
      has accepted. */
  ghost predicate SendsOn(c: Collective, X: seq<History>, s: nat, i: nat)
    requires s < |X| && i < |X|
    decreases i, 0
  {
    i > 2 ==> Passes(c, X, s, i - 2)
  }

  /** Rank r takes in all its messages, or refuses one that is sent. */
  ghost predicate Returns(c: Collective, X: seq<History>, r: nat)
    requires r < |X|
  {
    exists k: nat :: 0 < k < |X| && EndsAt(c, X, r, k)
  }

  ghost predicate EndsAt(c: Collective, X: seq<History>, r: nat, k: nat)
    requires r < |X| && 0 < k < |X|
  {
    var s := Left(|X|, r, k);
    Passes(c, X, r, k - 1) && SendsOn(c, X, s, k) && (k == |X| - 1 || !Told1(c, X, s, r))
  }

  ghost predicate Due(c: Collective, X: seq<History>, r: nat, j: nat)
    requires Valid(c, |X|) && r < |X| && j < |ProgramOf(c, |X|, r)| && Ticks(ProgramsOf(c, |X|), ClockOf(c, |X|))
  {
    Does(ProgramsOf(c, |X|), ClockOf(c, |X|), X, ValueOf(c, X), r, j)
  }

  /** Rank r does its first j steps, and refuses nothing with them. */
  ghost predicate DuePrefix(c: Collective, X: seq<History>, r: nat, j: nat)
    requires Valid(c, |X|) && r < |X| && j <= |ProgramOf(c, |X|, r)| && Ticks(ProgramsOf(c, |X|), ClockOf(c, |X|))
  {
    forall k: nat | k < j :: Due(c, X, r, k) && Accepted(ProgramsOf(c, |X|), X, ValueOf(c, X), r, k)
  }

  lemma RingTicks(c: Collective, n: nat)
    requires c.Ring? && n >= 2
    ensures Ticks(ProgramsOf(c, n), ClockOf(c, n)) && Pattern(ProgramsOf(c, n), ClockOf(c, n))
  {
    IsPattern(c, n);
    hide ProgramsOf, Addressed, UsedOnce, Matched;
  }

  lemma RingOpAt(c: Collective, n: nat, r: nat, k: nat)
    requires c.Ring? && n >= 2 && r < n && k < 2 * n - 2
    ensures |ProgramOf(c, n, r)| == 2 * n - 2 && ProgramOf(c, n, r)[k] == RingOp(n, r, c.pay, c.told, k)
  {
    hide RingOp;
  }

  /** A send is due as soon as the steps before it are. */
  lemma SendDue(c: Collective, X: seq<History>, r: nat, i: nat)
    requires c.Ring? && |X| >= 2 && r < |X| && 0 < i < |X| && Ticks(ProgramsOf(c, |X|), ClockOf(c, |X|))
    ensures RingSendIndex(i) < |ProgramOf(c, |X|, r)|
    ensures Due(c, X, r, RingSendIndex(i)) <==> DuePrefix(c, X, r, RingSendIndex(i))
    ensures Accepted(ProgramsOf(c, |X|), X, ValueOf(c, X), r, RingSendIndex(i))
  {
    RingOpAt(c, |X|, r, RingSendIndex(i));
    hide Before, Got, Suits, Give, Insist, OffsetRank, ProgramOf;
  }

  /** Which step of its left neighbour a receive waits for. */
  lemma OneSend(c: Collective, n: nat, r: nat, i: nat)
    requires c.Ring? && n >= 2 && r < n && 0 < i < n
    ensures RingSendIndex(i) < |ProgramOf(c, n, Left(n, r, i))|
    ensures forall k: nat :: SendsAt(ProgramOf(c, n, Left(n, r, i)), k, r) <==> k == RingSendIndex(i)
  {
    var s := Left(n, r, i);
    RingOpAt(c, n, s, RingSendIndex(i));
    RingMeetsEveryRankOnce(n, s, r, i);
    RingMeetsEveryRankOnce(n, s, r, 0);
    forall k: nat ensures SendsAt(ProgramOf(c, n, s), k, r) <==> k == RingSendIndex(i) {
      RingSends(n, s, c.pay, c.told, k, r);
    }
  }

  lemma RecvAt(c: Collective, n: nat, r: nat, i: nat)
    requires c.Ring? && n >= 2 && r < n && 0 < i < n
    ensures var s, j := Left(n, r, i), RingRecvIndex(n, i);
      && j < |ProgramOf(c, n, r)| && ProgramOf(c, n, r)[j].Recv? && ProgramOf(c, n, r)[j].src == s
      && ClockOf(c, n)(s, RingSendIndex(i)) < ClockOf(c, n)(r, j)
  {
    RingOpAt(c, n, r, RingRecvIndex(n, i));
    hide ProgramOf, OffsetRank;
  }

  lemma ProgramsAre(c: Collective, n: nat, r: nat)
    requires Valid(c, n) && r < n
    ensures |ProgramsOf(c, n)| == n && ProgramsOf(c, n)[r] == ProgramOf(c, n, r)
  {
    hide ProgramOf;
  }

  /** A receive is due as soon as the steps before it and the matching send are. */
  lemma RecvDue(c: Collective, X: seq<History>, r: nat, i: nat)
    requires c.Ring? && |X| >= 2 && r < |X| && 0 < i < |X| && Ticks(ProgramsOf(c, |X|), ClockOf(c, |X|))
    ensures RingRecvIndex(|X|, i) < |ProgramOf(c, |X|, r)|
    ensures var s := Left(|X|, r, i);
      && RingSendIndex(i) < |ProgramOf(c, |X|, s)|
      && (Due(c, X, r, RingRecvIndex(|X|, i)) <==>
            DuePrefix(c, X, r, RingRecvIndex(|X|, i)) && Due(c, X, s, RingSendIndex(i)))
  {
    var n, s, j := |X|, Left(|X|, r, i), RingRecvIndex(|X|, i);
    RecvAt(c, n, r, i);
    OneSend(c, n, r, i);
    ProgramsAre(c, n, r);
    ProgramsAre(c, n, s);
    hide ProgramOf, ProgramsOf, Accepted, SendsAt, ClockOf, Ticks, Addressed, OffsetRank;
  }

  lemma RecvAccepts(c: Collective, X: seq<History>, r: nat, i: nat)
    requires c.Ring? && |X| >= 2 && r < |X| && 0 < i < |X|
    ensures RingRecvIndex(|X|, i) < |ProgramOf(c, |X|, r)|
    ensures Accepted(ProgramsOf(c, |X|), X, ValueOf(c, X), r, RingRecvIndex(|X|, i)) <==>
            Told1(c, X, Left(|X|, r, i), r)
  {
    RecvAt(c, |X|, r, i);
    AcceptanceIs(c, X, r, RingRecvIndex(|X|, i));
    hide ProgramOf, ProgramsOf, Accepted, ClockOf, Suits, OffsetRank;
  }

  lemma OneMoreDue(c: Collective, X: seq<History>, r: nat, j: nat)
    requires Valid(c, |X|) && r < |X| && j < |ProgramOf(c, |X|, r)| && Ticks(ProgramsOf(c, |X|), ClockOf(c, |X|))
    ensures DuePrefix(c, X, r, j + 1) <==>
            DuePrefix(c, X, r, j) && Due(c, X, r, j) && Accepted(ProgramsOf(c, |X|), X, ValueOf(c, X), r, j)
  {
    hide Due, Accepted, ProgramOf, ProgramsOf, Ticks;
  }

  lemma NoneDue(c: Collective, X: seq<History>, r: nat)
    requires Valid(c, |X|) && r < |X| && Ticks(ProgramsOf(c, |X|), ClockOf(c, |X|))
    ensures DuePrefix(c, X, r, 0)
  {
  }

  /** The steps up to and with the k-th receive are done, and the message accepted, exactly if r passes. */
  lemma {:induction false} PrefixIsPasses(c: Collective, X: seq<History>, r: nat, k: nat)
    requires c.Ring? && |X| >= 2 && r < |X| && k <= |X| - 2 && Ticks(ProgramsOf(c, |X|), ClockOf(c, |X|))
    ensures 2 * k + 1 <= |ProgramOf(c, |X|, r)|
    ensures DuePrefix(c, X, r, 2 * k + 1) <==> Passes(c, X, r, k)
    decreases k
  {
    hide Due, DuePrefix, Accepted, ProgramOf, ProgramsOf, Ticks, Told1, OffsetRank;
    RingOpAt(c, |X|, r, 0);
    if k == 0 {
      SendDue(c, X, r, 1);
      OneMoreDue(c, X, r, 0);
      NoneDue(c, X, r);
    } else {
      PrefixIsPasses(c, X, r, k - 1);
      SendDue(c, X, r, k + 1);
      OneMoreDue(c, X, r, 2 * k - 1);
      RecvDue(c, X, r, k);
      RecvAccepts(c, X, r, k);
      OneMoreDue(c, X, r, 2 * k);
      SendIsSendsOn(c, X, Left(|X|, r, k), k);
    }
  }

  lemma {:induction false} SendIsSendsOn(c: Collective, X: seq<History>, s: nat, i: nat)
    requires c.Ring? && |X| >= 2 && s < |X| && 0 < i < |X| && Ticks(ProgramsOf(c, |X|), ClockOf(c, |X|))
    ensures RingSendIndex(i) < |ProgramOf(c, |X|, s)|
    ensures Due(c, X, s, RingSendIndex(i)) <==> SendsOn(c, X, s, i)
    decreases i - 1
  {
    hide Due, DuePrefix, Accepted, ProgramOf, ProgramsOf, Ticks, Told1, OffsetRank;
    SendDue(c, X, s, i);
    if i == 1 {
      NoneDue(c, X, s);
    } else {
      PrefixIsPasses(c, X, s, i - 2);
    }
  }

  /** The k-th receive is done exactly if r comes to it and its sender comes to the send. */
  lemma RecvIsDone(c: Collective, X: seq<History>, r: nat, k: nat)
    requires c.Ring? && |X| >= 2 && r < |X| && 0 < k < |X| && Ticks(ProgramsOf(c, |X|), ClockOf(c, |X|))
    ensures RingRecvIndex(|X|, k) < |ProgramOf(c, |X|, r)|
    ensures Due(c, X, r, RingRecvIndex(|X|, k)) <==> Passes(c, X, r, k - 1) && SendsOn(c, X, Left(|X|, r, k), k)
  {
    hide Due, DuePrefix, Accepted, ProgramOf, ProgramsOf, Ticks, Told1, OffsetRank, Passes, SendsOn;
    RecvDue(c, X, r, k);
    SendIsSendsOn(c, X, Left(|X|, r, k), k);
    PrefixIsPasses(c, X, r, k - 1);
    if k < |X| - 1 {
      SendDue(c, X, r, k + 1);
      OneMoreDue(c, X, r, 2 * k - 1);
    }
  }

  lemma AtReturn(P: seq<Program>, X: seq<History>, v: Values, st: State, e: nat, r: nat)
    requires Shaped(P, st) && r < |P| == |X| && RankAt(P, X, v, st, e, r)
    ensures e <= |P[r]| && (st.pc[r] == |P[r]| <==> e == |P[r]| || (e > 0 && !Accepted(P, X, v, r, e - 1)))
    ensures forall j: nat | j < e && !Accepted(P, X, v, r, j) :: j + 1 == e
  {
    hide Accepted, Before;
  }

  lemma EndsAtRecv(c: Collective, X: seq<History>, r: nat, st: State, e: nat, k: nat)
    requires c.Ring? && |X| >= 2 && r < |X| && 0 < k < |X| && Ticks(ProgramsOf(c, |X|), ClockOf(c, |X|))
    requires Shaped(ProgramsOf(c, |X|), st) && RankAt(ProgramsOf(c, |X|), X, ValueOf(c, X), st, e, r)
    requires forall j: nat | j < |ProgramOf(c, |X|, r)| :: j < e <==> Due(c, X, r, j)
    requires EndsAt(c, X, r, k)
    ensures st.pc[r] == |ProgramOf(c, |X|, r)|
  {
    hide Due, ProgramOf, ProgramsOf, Ticks, Told1, OffsetRank, Passes, SendsOn, ValueOf, Accepted, RankAt, Shaped,
         Addressed;
    RecvIsDone(c, X, r, k);
    RecvAccepts(c, X, r, k);
    RingOpAt(c, |X|, r, 0);
    AtReturn(ProgramsOf(c, |X|), X, ValueOf(c, X), st, e, r);
  }

  lemma LastRecvStep(c: Collective, X: seq<History>, r: nat, e: nat) returns (k: nat)
    requires c.Ring? && |X| >= 2 && r < |X| && 0 < e <= |ProgramOf(c, |X|, r)|
    requires e < |ProgramOf(c, |X|, r)| ==> !Accepted(ProgramsOf(c, |X|), X, ValueOf(c, X), r, e - 1)
    ensures 0 < k < |X| && RingRecvIndex(|X|, k) == e - 1 && |ProgramOf(c, |X|, r)| == 2 * |X| - 2
  {
    RingOpAt(c, |X|, r, e - 1);
    ProgramsAre(c, |X|, r);
    k := if e == 2 * |X| - 2 then |X| - 1 else (e - 1) / 2;
    assert e < 2 * |X| - 2 ==> ProgramOf(c, |X|, r)[e - 1].Recv? by {
      hide ValueOf, Before, Suits, ProgramOf, ProgramsOf, RingOp, OffsetRank;
    }
    hide ValueOf, Before, Suits, ProgramOf, ProgramsOf, Accepted, OffsetRank;
  }

  /** A rank that has returned has come to a last receive: to the end, or to one that it refused. */
  lemma LastRecv(c: Collective, X: seq<History>, r: nat, st: State, e: nat) returns (k: nat)
    requires c.Ring? && |X| >= 2 && r < |X| && Ticks(ProgramsOf(c, |X|), ClockOf(c, |X|))
    requires Shaped(ProgramsOf(c, |X|), st) && RankAt(ProgramsOf(c, |X|), X, ValueOf(c, X), st, e, r)
    requires forall j: nat | j < |ProgramOf(c, |X|, r)| :: j < e <==> Due(c, X, r, j)
    requires st.pc[r] == |ProgramOf(c, |X|, r)|
    ensures 0 < k < |X| && EndsAt(c, X, r, k)
  {
    hide Due, ProgramOf, ProgramsOf, Ticks, Told1, OffsetRank, Passes, SendsOn, ValueOf, Accepted, RankAt, Shaped,
         Addressed;
    AtReturn(ProgramsOf(c, |X|), X, ValueOf(c, X), st, e, r);
    RingOpAt(c, |X|, r, 0);
    k := LastRecvStep(c, X, r, e);
    RecvIsDone(c, X, r, k);
    RecvAccepts(c, X, r, k);
  }

  /** However the ranks interleave in a ring collective, when none of them can step any more, exactly those
      have returned that take in all their messages or refuse one that is sent; the others wait for a
      message of a rank that has stopped sending.  The lengths that the ranks contribute and are told
      decide which they are. */
  lemma WhoReturns(c: Collective, X: seq<History>, st: State, r: nat)
    requires c.Ring? && |X| >= 2 && r < |X| && Reachable(ProgramsOf(c, |X|), X, st)
    requires forall q: nat :: !CanStep(ProgramsOf(c, |X|), st, q)
    ensures st.pc[r] == |ProgramOf(c, |X|, r)| <==> Returns(c, X, r)
  {
    var P := ProgramsOf(c, |X|);
    RingTicks(c, |X|);
    PhaseCarries(c, X);
    assert P[r] == ProgramOf(c, |X|, r);
    hide Reachable, CanStep, Carries, ProgramsOf, ProgramOf, EndsAt, Matched, UsedOnce, Ticks, RankAt;
    var e := PhaseStops(P, ClockOf(c, |X|), X, ValueOf(c, X), st);
    assert RankAt(P, X, ValueOf(c, X), st, e[r], r);
    forall j: nat | j < |P[r]| ensures j < e[r] <==> Due(c, X, r, j) {
    }
    hide At, Does, Due;
    if Returns(c, X, r) {
      var k: nat :| 0 < k < |X| && EndsAt(c, X, r, k);
      EndsAtRecv(c, X, r, st, e[r], k);
    }
    if st.pc[r] == |ProgramOf(c, |X|, r)| {
      var k := LastRecv(c, X, r, st, e[r]);
    }
  }

  // ---------------------------------------------------------------- one wrong length in Allgatherv_exp

  ghost function FourCounts(): RR.Counts {
    (d: nat, h: History) => [5, 1, 1, 1]
  }

  /** Rank 0 contributes 4 cells where everyone is told 5. */
  ghost function OneTooFew(): Contribution {
    (s: nat, h: History) => if s == 0 then [0, 0, 0, 0] else [0]
  }

  ghost function FourRanks(): (X: seq<History>)
    ensures |X| == 4
  {
    [[], [], [], []]
  }

  lemma WhoIsTold(s: nat, r: nat)
    requires s < 4 && r < 4
    ensures Told1(RR.GatheringRanges(OneTooFew(), FourCounts()), FourRanks(), s, r) <==> s != 0
  {
  }

  /** Rank 1 refuses what rank 0 sends it before it comes to its send to rank 0; whatever the interleaving,
      rank 0, to which everyone contributes what it is told, never returns. */
  lemma RefusalLeavesWaiting(st: State)
    requires Reachable(ProgramsOf(RR.GatheringRanges(OneTooFew(), FourCounts()), 4), FourRanks(), st)
    requires forall q: nat :: !CanStep(ProgramsOf(RR.GatheringRanges(OneTooFew(), FourCounts()), 4), st, q)
    ensures st.pc[0] < |ProgramOf(RR.GatheringRanges(OneTooFew(), FourCounts()), 4, 0)|
    ensures st.pc[1] == |ProgramOf(RR.GatheringRanges(OneTooFew(), FourCounts()), 4, 1)|
  {
    var c, X := RR.GatheringRanges(OneTooFew(), FourCounts()), FourRanks();
    forall s: nat, r: nat | s < 4 && r < 4 ensures Told1(c, X, s, r) <==> s != 0 {
      WhoIsTold(s, r);
    }
    WhoReturns(c, X, st, 0);
    WhoReturns(c, X, st, 1);
    hide Told1, Reachable, CanStep, ProgramOf, ProgramsOf, RR.GatheringRanges, FourRanks;
    RankZeroWaits(c, X);
    assert EndsAt(c, X, 1, 1);
  }

  lemma RankZeroWaits(c: Collective, X: seq<History>)
    requires c.Ring? && |X| == 4 && forall s: nat, r: nat | s < 4 && r < 4 :: Told1(c, X, s, r) <==> s != 0
    ensures !Returns(c, X, 0)
  {
    hide Told1;
    assert Left(4, 0, 1) == 3 && Left(4, 0, 2) == 2 && Left(4, 0, 3) == 1 && Left(4, 1, 1) == 0;
    assert Told1(c, X, 3, 0) && Told1(c, X, 2, 0) && !Told1(c, X, 0, 1);
    assert !Passes(c, X, 1, 1);
    assert !SendsOn(c, X, 1, 3);
    forall k: nat | 0 < k < 4 ensures !EndsAt(c, X, 0, k) {
    }
  }
}
