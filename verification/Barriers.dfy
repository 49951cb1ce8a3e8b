/**
  Causality between ranks: no step of a collective runs ahead of the step it waits for, whatever
  was called before and whatever is called after; and what follows from that for barriers.
 */
module Barriers {
  import opened Sequences
  import opened Network
  import opened Phases
  import opened Offsets
  import opened Collectives
  import opened Jobs
  import opened MpiReduce
  import opened Delivery

  /** Where call c sits in a longer job. */
  lemma JobAround(prior: seq<Collective>, c: Collective, later: seq<Collective>, n: nat, r: nat)
    requires AllValid(prior, n) && Valid(c, n) && AllValid(later, n) && r < n
    ensures AllValid(prior + [c] + later, n)
    ensures Job(prior + [c] + later, n)[r] == Job(prior, n)[r] + ProgramOf(c, n, r) + Job(later, n)[r]
  {
    JobConcat(prior, [c], n, r);
    JobConcat(prior + [c], later, n, r);
    JobOfOne(c, n, r);
    hide Job, ProgramOf, Addressed;
  }

  lemma JobOfOne(c: Collective, n: nat, r: nat)
    requires Valid(c, n) && r < n
    ensures AllValid([c], n) && Job([c], n)[r] == ProgramOf(c, n, r)
  {
    assert [c][1..] == [];
  }

  // ---------------------------------------------------------------- counting

  lemma {:induction false} SentToJoined(p: Program, q: Program, i: nat, d: nat)
    requires i <= |p| + |q|
    ensures SentTo(p + q, i, d) == if i <= |p| then SentTo(p, i, d) else SentTo(p, |p|, d) + SentTo(q, i - |p|, d)
  {
    if i > 0 {
      SentToJoined(p, q, i - 1, d);
    }
  }

  lemma {:induction false} ReceivedFromJoined(p: Program, q: Program, i: nat, s: nat)
    requires i <= |p| + |q|
    ensures ReceivedFrom(p + q, i, s) ==
            if i <= |p| then ReceivedFrom(p, i, s) else ReceivedFrom(p, |p|, s) + ReceivedFrom(q, i - |p|, s)
  {
    if i > 0 {
      ReceivedFromJoined(p, q, i - 1, s);
    }
  }

  lemma {:induction false} SentToGrows(p: Program, i: nat, j: nat, d: nat)
    requires i <= j <= |p|
    ensures SentTo(p, i, d) <= SentTo(p, j, d)
    decreases j
  {
    if i < j {
      SentToGrows(p, i, j - 1, d);
    }
  }

  lemma {:induction false} ReceivedFromGrows(p: Program, i: nat, j: nat, s: nat)
    requires i <= j <= |p|
    ensures ReceivedFrom(p, i, s) <= ReceivedFrom(p, j, s)
    decreases j
  {
    if i < j {
      ReceivedFromGrows(p, i, j - 1, s);
    }
  }

  lemma {:induction false} NothingSentYet(p: Program, i: nat, d: nat)
    requires i <= |p| && forall k: nat | k < i :: !SendsAt(p, k, d)
    ensures SentTo(p, i, d) == 0
  {
    if i > 0 {
      NothingSentYet(p, i - 1, d);
      assert !SendsAt(p, i - 1, d);
    }
  }

  /** `p` before, `c` the collective's own code, `rest` after: once the receiver has done the
      receive of c, more than the whole of p has come out of the channel. */
  lemma ReceiverCounts(p: Program, c: Program, rest: Program, at: nat, j: nat, s: nat)
    requires ReceivesAt(c, j, s) && |p| + j < at <= |p| + |c| + |rest|
    ensures ReceivedFrom(p + c + rest, at, s) > ReceivedFrom(p, |p|, s)
  {
    ReceivedFromGrows(p + c + rest, |p| + j + 1, at, s);
    ReceivedFromJoined(p + c, rest, |p| + j + 1, s);
    ReceivedFromJoined(p, c, |p| + j + 1, s);
  }

  lemma SenderCounts(p: Program, c: Program, rest: Program, at: nat, i: nat, d: nat)
    requires SendsAt(c, i, d) && at <= |p| + i && forall k: nat | k < i :: !SendsAt(c, k, d)
    ensures SentTo(p + c + rest, at, d) <= SentTo(p, |p|, d)
  {
    SentToGrows(p + c + rest, at, |p| + i, d);
    SentToJoined(p + c, rest, |p| + i, d);
    SentToJoined(p, c, |p| + i, d);
    NothingSentYet(c, i, d);
  }

  lemma ReachableIsConserved(P: seq<Program>, X: seq<History>, st: State)
    requires Reachable(P, X, st) && st.refused == 0
    ensures Conserved(P, st)
  {
    hide Runs, Conserved;
    var schedule :| Runs(P, Start(P, X), schedule, st);
    StartConserved(P, X);
    RunConserves(P, Start(P, X), schedule, st);
  }

  /** P[d] and P[s] are P0 followed by cd and cs and by more. */
  lemma WaitsForItsSend(P0: seq<Program>, P: seq<Program>, st: State, s: nat, cs: Program, restS: Program, i: nat,
                        d: nat, cd: Program, restD: Program, j: nat)
    requires |P0| == |P| && s < |P| && d < |P| && Shaped(P, st) && Conserved(P, st)
    requires P[s] == P0[s] + cs + restS && P[d] == P0[d] + cd + restD
    requires SentTo(P0[s], |P0[s]|, d) == ReceivedFrom(P0[d], |P0[d]|, s)
    requires ReceivesAt(cd, j, s) && SendsAt(cs, i, d) && forall k: nat | k < i :: !SendsAt(cs, k, d)
    requires st.pc[d] > |P0[d]| + j
    ensures st.pc[s] > |P0[s]| + i
  {
    hide ReceivesAt, SendsAt, SentTo, ReceivedFrom;
    assert SentTo(P[s], st.pc[s], d) >= ReceivedFrom(P[d], st.pc[d], s);
    ReceiverCounts(P0[d], cd, restD, st.pc[d], j, s);
    if st.pc[s] <= |P0[s]| + i {
      SenderCounts(P0[s], cs, restS, st.pc[s], i, d);
    }
  }

  // ---------------------------------------------------------------- causality in a sequence of calls

  /** The ranks run the calls, whose lengths fit, and have come to state st. */
  ghost predicate InJob(calls: seq<Collective>, X: seq<History>, st: State) {
    AllValid(calls, |X|) && AllLengthsFit(calls, X) && Reachable(Job(calls, |X|), X, st)
  }

  /** How many steps the calls take rank r. */
  ghost function Steps(calls: seq<Collective>, n: nat, r: nat): nat
    requires AllValid(calls, n) && r < n
  {
    |Job(calls, n)[r]|
  }

  ghost function StepsOf(c: Collective, n: nat, r: nat): nat
    requires Valid(c, n)
  {
    if c.Ring? || c.Turns? then 2 * n - 2 else if r == c.root then n - 1 else 1
  }

  /** In collective c, step j of rank d receives what step i of rank s sends, its first to d. */
  ghost predicate Pairs(c: Collective, n: nat, s: nat, i: nat, d: nat, j: nat) {
    && Valid(c, n) && s < n && d < n
    && ReceivesAt(ProgramOf(c, n, d), j, s) && SendsAt(ProgramOf(c, n, s), i, d)
    && forall k: nat | k < i :: !SendsAt(ProgramOf(c, n, s), k, d)
  }

  lemma FanInPairs(n: nat, pay: Pay, told: Told, s: nat)
    requires 0 < s < n
    ensures Pairs(FanIn(0, pay, told), n, s, 0, 0, s - 1)
  {
    FanInSteps(n, 0, 0, pay, told, s - 1, s);
    FanInSteps(n, 0, s, pay, told, 0, 0);
    hide FanInProgram, SendsAt, ReceivesAt;
  }

  lemma FanOutPairs(n: nat, pay: Pay, d: nat)
    requires 0 < d < n
    ensures Pairs(FanOut(0, pay), n, 0, d - 1, d, 0)
  {
    FanOutSteps(n, 0, d, pay, 0, 0);
    forall k: nat ensures SendsAt(FanOutProgram(n, 0, 0, pay), k, d) <==> k == d - 1 {
      FanOutSteps(n, 0, 0, pay, k, d);
    }
    hide FanOutProgram, SendsAt, ReceivesAt;
  }

  lemma RingPairs(n: nat, pay: Pay, told: Told, s: nat, d: nat)
    requires n >= 2 && s < n && d < n && s != d
    ensures Pairs(Ring(pay, told), n, s, RingSendIndex(Distance(n, s, d)), d, RingRecvIndex(n, Distance(n, s, d)))
  {
    forall k: nat ensures SendsAt(RingProgram(n, s, pay, told), k, d) <==> k == RingSendIndex(Distance(n, s, d)) {
      RingSends(n, s, pay, told, k, d);
    }
    RingReceives(n, d, pay, told, RingRecvIndex(n, Distance(n, s, d)), s);
    hide RingProgram, SendsAt, ReceivesAt, OffsetRank, RingSendIndex;
  }

  /** Whatever was called before and is called after c: a rank d that is past a receive of c means
      a rank s that is past the matching send of c. */
  lemma ReceiveWaitsForItsSend(prior: seq<Collective>, c: Collective, later: seq<Collective>, X: seq<History>,
                               st: State, s: nat, i: nat, d: nat, j: nat)
    requires AllValid(prior, |X|) && AllValid(later, |X|) && InJob(prior + [c] + later, X, st)
    requires Pairs(c, |X|, s, i, d, j)
    ensures |st.pc| == |X|
    ensures st.pc[d] > Steps(prior, |X|, d) + j ==> st.pc[s] > Steps(prior, |X|, s) + i
  {
    hide *;
    var n := |X|;
    PairsAre(c, n, s, i, d, j);
    JobSettled(prior, c, later, X, st, s, d);
    JobAround(prior, c, later, n, s);
    JobAround(prior, c, later, n, d);
    if st.pc[d] > |Job(prior, n)[d]| + j {
      WaitsForItsSend(Job(prior, n), Job(prior + [c] + later, n), st, s, ProgramOf(c, n, s), Job(later, n)[s], i,
                      d, ProgramOf(c, n, d), Job(later, n)[d], j);
    }
    StepsAre(prior, n, s);
    StepsAre(prior, n, d);
  }

  lemma StepsAre(calls: seq<Collective>, n: nat, r: nat)
    requires AllValid(calls, n) && r < n
    ensures Steps(calls, n, r) == |Job(calls, n)[r]|
  {
  }

  lemma PairsAre(c: Collective, n: nat, s: nat, i: nat, d: nat, j: nat)
    requires Pairs(c, n, s, i, d, j)
    ensures Valid(c, n) && s < n && d < n && ReceivesAt(ProgramOf(c, n, d), j, s) && SendsAt(ProgramOf(c, n, s), i, d)
    ensures forall k: nat | k < i :: !SendsAt(ProgramOf(c, n, s), k, d)
  {
  }

  /** In a job whose lengths fit, messages are conserved, and the calls up to c use each channel evenly. */
  lemma JobSettled(prior: seq<Collective>, c: Collective, later: seq<Collective>, X: seq<History>, st: State,
                   s: nat, d: nat)
    requires AllValid(prior, |X|) && AllValid(later, |X|) && InJob(prior + [c] + later, X, st) && s < |X| && d < |X|
    ensures Valid(c, |X|) && AllValid(prior + [c] + later, |X|) && |st.pc| == |X|
    ensures Shaped(Job(prior + [c] + later, |X|), st) && Conserved(Job(prior + [c] + later, |X|), st)
    ensures SentTo(Job(prior, |X|)[s], |Job(prior, |X|)[s]|, d) ==
            ReceivedFrom(Job(prior, |X|)[d], |Job(prior, |X|)[d]|, s)
  {
    assert (prior + [c] + later)[|prior|] == c;
    assert prior + [c] + later == prior + ([c] + later);
    CallsDoNotInterfere(prior + [c] + later, X, st);
    PriorFits(prior, [c] + later, X);
    hide Job, Addressed, Conserved, AfterAll, AllLengthsFit;
    ReachableIsConserved(Job(prior + [c] + later, |X|), X, st);
    JobRealises(prior, X);
    RealisedIsBalanced(Job(prior, |X|), X, AfterAll(prior, X), s, d);
  }

  lemma PriorFits(prior: seq<Collective>, later: seq<Collective>, X: seq<History>)
    requires AllValid(prior, |X|) && AllValid(later, |X|)
    ensures AllValid(prior + later, |X|) && (AllLengthsFit(prior + later, X) ==> AllLengthsFit(prior, X))
  {
    AfterAllConcat(prior, later, X);
  }

  lemma StepsOfOne(c: Collective, n: nat, r: nat)
    requires Valid(c, n) && r < n
    ensures |ProgramOf(c, n, r)| == StepsOf(c, n, r)
  {
  }

  lemma StepsGrow(prior: seq<Collective>, c: Collective, n: nat, r: nat)
    requires AllValid(prior, n) && Valid(c, n) && r < n
    ensures AllValid(prior + [c], n) && Steps(prior + [c], n, r) == Steps(prior, n, r) + StepsOf(c, n, r)
  {
    JobConcat(prior, [c], n, r);
    JobOfOne(c, n, r);
    StepsOfOne(c, n, r);
    hide Job, ProgramOf;
  }

  // ---------------------------------------------------------------- barriers

  /** What RDMA_Barrier does: everyone reports to rank 0, then rank 0 answers everyone. */
  ghost function BarrierCalls(): (calls: seq<Collective>) {
    [FanIn(0, FinishPay(), Unchecked())] + [FanOut(0, FinishPay())]
  }

  /** How many steps one barrier takes a rank. */
  function BarrierLength(n: nat, r: nat): nat
    requires r < n
  {
    if r == 0 then 2 * (n - 1) else 2
  }

  /** Rank s has reached the barrier that follows `prior`: it has reported, or, as rank 0, it has
      heard from everyone. */
  ghost predicate Arrived(prior: seq<Collective>, X: seq<History>, st: State, s: nat)
    requires AllValid(prior, |X|) && s < |X| == |st.pc|
  {
    st.pc[s] >= Steps(prior, |X|, s) + if s == 0 then |X| - 1 else 1
  }

  ghost predicate PassedBarrier(prior: seq<Collective>, X: seq<History>, st: State, q: nat)
    requires AllValid(prior, |X|) && q < |X| == |st.pc|
  {
    st.pc[q] >= Steps(prior, |X|, q) + BarrierLength(|X|, q)
  }

  /** Once rank 0 has heard from everyone, everyone has reported. */
  lemma RootHasHeard(prior: seq<Collective>, pay: Pay, told: Told, later: seq<Collective>, X: seq<History>, st: State,
                     s: nat)
    requires AllValid(prior, |X|) && AllValid(later, |X|) && InJob(prior + [FanIn(0, pay, told)] + later, X, st)
    requires 0 < s < |X| == |st.pc| && Arrived(prior, X, st, 0)
    ensures Arrived(prior, X, st, s)
  {
    hide InJob, Steps, Pairs;
    FanInPairs(|X|, pay, told, s);
    ReceiveWaitsForItsSend(prior, FanIn(0, pay, told), later, X, st, s, 0, 0, s - 1);
  }

  /** A rank that has been answered knows that rank 0 has heard from everyone. */
  lemma AnswerMeansHeard(prior: seq<Collective>, gather: Pay, told: Told, answer: Pay, later: seq<Collective>,
                         X: seq<History>, st: State, q: nat)
    requires AllValid(prior, |X|) && AllValid(later, |X|)
    requires InJob(prior + [FanIn(0, gather, told)] + [FanOut(0, answer)] + later, X, st)
    requires 0 < q < |X| == |st.pc| && PassedBarrier(prior, X, st, q)
    ensures Arrived(prior, X, st, 0)
  {
    hide InJob, Steps, Pairs;
    StepsGrow(prior, FanIn(0, gather, told), |X|, 0);
    StepsGrow(prior, FanIn(0, gather, told), |X|, q);
    FanOutPairs(|X|, answer, q);
    ReceiveWaitsForItsSend(prior + [FanIn(0, gather, told)], FanOut(0, answer), later, X, st, 0, q - 1, q, 0);
  }

  lemma BarrierInCalls(prior: seq<Collective>, later: seq<Collective>, n: nat)
    requires n > 0 && AllValid(prior, n) && AllValid(later, n)
    ensures var gather, answer := [FanIn(0, FinishPay(), Unchecked())], [FanOut(0, FinishPay())];
      && prior + BarrierCalls() + later == prior + gather + answer + later == prior + gather + (answer + later)
      && AllValid(answer + later, n) && AllValid(prior + BarrierCalls() + later, n)
  {
  }

  /** Barrier safety: whatever was called before and is called after, no rank has passed a barrier
      in any reachable state unless every rank has arrived at it. */
  lemma NobodyPassesAlone(prior: seq<Collective>, later: seq<Collective>, X: seq<History>, st: State, q: nat, s: nat)
    requires AllValid(prior, |X|) && AllValid(later, |X|) && InJob(prior + BarrierCalls() + later, X, st)
    requires q < |X| == |st.pc| && s < |X| && PassedBarrier(prior, X, st, q)
    ensures Arrived(prior, X, st, s)
  {
    BarrierInCalls(prior, later, |X|);
    assert PassedBarrier(prior, X, st, 0) ==> Arrived(prior, X, st, 0);
    hide *;
    if q != 0 {
      AnswerMeansHeard(prior, FinishPay(), Unchecked(), FinishPay(), later, X, st, q);
    }
    if s != 0 {
      RootHasHeard(prior, FinishPay(), Unchecked(), [FanOut(0, FinishPay())] + later, X, st, s);
    }
  }

  // ---------------------------------------------------------------- barriers in a row

  ghost function Barriers(k: nat): (calls: seq<Collective>) {
    if k == 0 then [] else Barriers(k - 1) + BarrierCalls()
  }

  lemma {:induction false} BarriersValid(k: nat, n: nat)
    requires n > 0
    ensures AllValid(Barriers(k), n)
  {
    if k > 0 {
      BarriersValid(k - 1, n);
    }
  }

  lemma {:induction false} BarriersJoined(j: nat, k: nat)
    ensures Barriers(j + 1 + k) == Barriers(j) + BarrierCalls() + Barriers(k)
    decreases k
  {
    if k > 0 {
      BarriersJoined(j, k - 1);
      assert j + k == j + 1 + (k - 1);
    }
  }

  /** Barriers look at no lengths, so they always fit. */
  lemma {:induction false} BarriersFit(k: nat, X: seq<History>)
    requires |X| > 0
    ensures AllValid(Barriers(k), |X|) && AllLengthsFit(Barriers(k), X)
  {
    BarriersValid(k, |X|);
    if k == 0 {
      assert Barriers(0) == [];
    } else {
      BarriersFit(k - 1, X);
      OneMoreBarrier(k - 1);
      BarrierFits(AfterAll(Barriers(k - 1), X));
      AfterAllConcat(Barriers(k - 1), BarrierCalls(), X);
    }
  }

  lemma BarrierFits(X: seq<History>)
    requires |X| > 0
    ensures AllValid(BarrierCalls(), |X|) && AllLengthsFit(BarrierCalls(), X)
  {
    var report, answer := FanIn(0, FinishPay(), Unchecked()), FanOut(0, FinishPay());
    AfterOne(report, X);
    AfterOne(answer, After(report, X));
    AfterAllConcat([report], [answer], X);
  }

  /** The ranks do nothing but barriers, and have come to state st. */
  ghost predicate InBarriers(count: nat, X: seq<History>, st: State) {
    AllValid(Barriers(count), |X|) && Reachable(Job(Barriers(count), |X|), X, st)
  }

  lemma BarriersAreAJob(count: nat, X: seq<History>, st: State)
    requires |X| > 0 && InBarriers(count, X, st)
    ensures InJob(Barriers(count), X, st)
  {
    BarriersFit(count, X);
  }

  /** The steps that k barriers take. */
  ghost function BarrierSteps(k: nat, n: nat, r: nat): nat
    requires r < n
  {
    k * BarrierLength(n, r)
  }

  lemma BarrierStepsGrow(k: nat, n: nat, r: nat)
    requires r < n
    ensures BarrierSteps(k + 1, n, r) == BarrierSteps(k, n, r) + BarrierLength(n, r)
  {
  }

  lemma BarrierGrows(prior: seq<Collective>, X: seq<History>, r: nat)
    requires AllValid(prior, |X|) && r < |X|
    ensures AllValid(prior + BarrierCalls(), |X|)
    ensures Steps(prior + BarrierCalls(), |X|, r) == Steps(prior, |X|, r) + BarrierLength(|X|, r)
  {
    var gather, answer := FanIn(0, FinishPay(), Unchecked()), FanOut(0, FinishPay());
    hide Steps;
    StepsGrow(prior, gather, |X|, r);
    StepsGrow(prior + [gather], answer, |X|, r);
    assert prior + BarrierCalls() == prior + [gather] + [answer];
  }

  lemma NoBarriers(X: seq<History>, r: nat)
    requires r < |X|
    ensures AllValid(Barriers(0), |X|) && Steps(Barriers(0), |X|, r) == 0 == BarrierSteps(0, |X|, r)
  {
  }

  lemma OneMoreBarrier(k: nat)
    ensures Barriers(k + 1) == Barriers(k) + BarrierCalls()
  {
  }

  lemma {:induction false} BarriersLength(k: nat, X: seq<History>, r: nat)
    requires r < |X|
    ensures AllValid(Barriers(k), |X|) && Steps(Barriers(k), |X|, r) == BarrierSteps(k, |X|, r)
    decreases k
  {
    hide *;
    NoBarriers(X, r);
    if k > 0 {
      OneMoreBarrier(k - 1);
      BarriersLength(k - 1, X, r);
      BarrierGrows(Barriers(k - 1), X, r);
      BarrierStepsGrow(k - 1, |X|, r);
    }
  }

  /** How many barriers rank r has completed when all it does is barriers. */
  ghost function Completed(n: nat, r: nat, pc: nat): (k: nat)
    requires n >= 2 && r < n
  {
    pc / BarrierLength(n, r)
  }

  lemma CompletedIs(n: nat, r: nat, pc: nat, k: nat)
    requires n >= 2 && r < n
    ensures Completed(n, r, pc) >= k <==> pc >= BarrierSteps(k, n, r)
  {
    var len := BarrierLength(n, r);
    var done := pc / len;
    assert pc == done * len + pc % len;
    if done >= k {
      assert done * len >= k * len;
    } else {
      assert (done + 1) * len <= k * len;
    }
  }

  lemma PcInJob(calls: seq<Collective>, X: seq<History>, st: State, q: nat)
    requires q < |X| && InJob(calls, X, st)
    ensures |st.pc| == |X| && st.pc[q] <= Steps(calls, |X|, q)
  {
  }

  /** A rank cannot complete more barriers than there are. */
  lemma CompletedAtMost(count: nat, X: seq<History>, st: State, q: nat)
    requires |X| >= 2 && q < |X| && InJob(Barriers(count), X, st)
    ensures |st.pc| == |X| && Completed(|X|, q, st.pc[q]) <= count
  {
    hide *;
    PcInJob(Barriers(count), X, st, q);
    BarriersLength(count, X, q);
    CompletedIs(|X|, q, st.pc[q], count + 1);
    BarrierTakesSteps(|X|, q);
    BarrierStepsGrow(count, |X|, q);
  }

  lemma BarrierTakesSteps(n: nat, r: nat)
    requires n >= 2 && r < n
    ensures BarrierLength(n, r) > 0
  {
  }

  /** In a run of barriers, however the ranks interleave, no rank is ever two barriers ahead of
      another. */
  lemma BarriersKeepStep(count: nat, X: seq<History>, st: State, q: nat, s: nat)
    requires |X| >= 2 && q < |X| == |st.pc| && s < |X| && InBarriers(count, X, st)
    ensures Completed(|X|, q, st.pc[q]) <= Completed(|X|, s, st.pc[s]) + 1
  {
    hide InJob, InBarriers, Steps, Barriers, BarrierCalls, Completed, AllValid, BarrierLength, BarrierSteps;
    var n, k := |X|, Completed(|X|, q, st.pc[q]);
    BarriersAreAJob(count, X, st);
    CompletedAtMost(count, X, st, q);
    if k > 0 {
      CompletedIs(n, q, st.pc[q], k);
      BarriersJoined(k - 1, count - k);
      assert k - 1 + 1 + (count - k) == count;
      BarriersValid(count - k, n);
      BarriersLength(k - 1, X, q);
      BarriersLength(k - 1, X, s);
      BarrierStepsGrow(k - 1, n, q);
      NobodyPassesAlone(Barriers(k - 1), Barriers(count - k), X, st, q, s);
      CompletedIs(n, s, st.pc[s], k - 1);
    }
  }

  /** As long as some rank has not come to the end of its barriers, some rank can step. */
  lemma BarriersGoOn(count: nat, X: seq<History>, st: State)
    requires |X| > 0 && InBarriers(count, X, st)
    ensures !Finished(Job(Barriers(count), |X|), st) ==> exists r :: CanStep(Job(Barriers(count), |X|), st, r)
  {
    BarriersFit(count, X);
    CallsDoNotInterfere(Barriers(count), X, st);
  }
}
