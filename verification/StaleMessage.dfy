/**
  A run in which one wrong length breaks a barrier.  Three ranks call Gather and then Barrier; rank 1
  contributes two cells where the root wants one.  The root returns early and leaves rank 2's block in the
  channel; in the barrier it takes that block for rank 2's report, and passes before rank 2 has come.
 */
module StaleMessage {
  import opened Wrappers
  import opened Network
  import opened Offsets
  import opened Collectives
  import opened Jobs
  import opened MpiReduce
  import opened Delivery
  import opened Filling
  import opened RootedResults
  import opened Barriers

  ghost function TwoOfOne(): Contribution {
    (s: nat, h: History) => if s == 1 then [7, 7] else [7]
  }

  ghost function OneWanted(): Width {
    (d: nat, h: History) => 1
  }

  ghost function GatherCall1(): Collective {
    Collecting(0, TwoOfOne(), OneWanted())
  }

  ghost function ThreeRanks(): (X: seq<History>)
    ensures X == [[], [], []]
  {
    [[], [], []]
  }

  ghost function GatherThenBarrier(): (calls: seq<Collective>)
    ensures AllValid(calls, 3)
  {
    [GatherCall1()] + BarrierCalls()
  }

  ghost function Code(): (P: seq<Program>)
    ensures |P| == 3 && Addressed(P)
  {
    Job(GatherThenBarrier(), 3)
  }

  /** What rank r does: its part of the gathering, its report or the hearing of all, the answers. */
  lemma CodeOf(r: nat)
    requires r < 3
    ensures Code()[r] == FanInProgram(3, 0, r, ToAll(TwoOfOne()), LengthTold(OneWanted()))
                         + FanInProgram(3, 0, r, FinishPay(), Unchecked()) + FanOutProgram(3, 0, r, FinishPay())
  {
    var g, report, answer := GatherCall1(), FanIn(0, FinishPay(), Unchecked()), FanOut(0, FinishPay());
    assert GatherThenBarrier() == [g] + [report] + [answer];
    JobAround([g], report, [answer], 3, r);
    JobOfOne(g, 3, r);
    JobOfOne(answer, 3, r);
    hide FanInProgram, FanOutProgram, Job;
  }

  /** The steps of rank 0: its first receive of the gathering, two receives and two sends of the barrier. */
  lemma RootSteps()
    ensures |Code()[0]| == 6
    ensures var op := Code()[0][0]; op.Recv? && op.src == 1 && op.rest == 1 && op.want([]) == Some(1)
    ensures var op := Code()[0][2]; op.Recv? && op.src == 1 && forall h :: op.want(h) == None
    ensures var op := Code()[0][3]; op.Recv? && op.src == 2 && forall h :: op.want(h) == None
    ensures var op := Code()[0][4]; op.Send? && op.dst == 1 && forall h :: op.payload(h) == Finish
    ensures var op := Code()[0][5]; op.Send? && op.dst == 2 && forall h :: op.payload(h) == Finish
  {
    CodeOf(0);
    hide Code;
  }

  /** The first two steps of the others: a block for the root, a report. */
  lemma OtherSteps(r: nat)
    requires r == 1 || r == 2
    ensures |Code()[r]| == 3
    ensures var op := Code()[r][0]; op.Send? && op.dst == 0 && op.payload([]) == if r == 1 then [7, 7] else [7]
    ensures var op := Code()[r][1]; op.Send? && op.dst == 0 && forall h :: op.payload(h) == Finish
  {
    CodeOf(r);
    hide Code;
  }

  lemma {:induction false} RunsOn(P: seq<Program>, st: State, schedule: seq<nat>, mid: State, r: nat)
    requires Shaped(P, st) && Runs(P, st, schedule, mid) && Shaped(P, mid) && CanStep(P, mid, r)
    ensures Runs(P, st, schedule + [r], Step(P, mid, r))
  {
    assert [r][1..] == [];
    hide Step, CanStep, Shaped;
    assert Runs(P, mid, [r], Step(P, mid, r));
    RunsConcat(P, st, schedule, mid, [r], Step(P, mid, r));
  }

  lemma Next(st: State, r: nat) returns (st': State)
    requires Reachable(Code(), ThreeRanks(), st) && CanStep(Code(), st, r)
    ensures st' == Step(Code(), st, r) && Reachable(Code(), ThreeRanks(), st')
  {
    hide Step, CanStep, Code, Start, Runs, Addressed;
    var schedule :| Runs(Code(), Start(Code(), ThreeRanks()), schedule, st);
    st' := Step(Code(), st, r);
    RunsOn(Code(), Start(Code(), ThreeRanks()), schedule, st, r);
  }

  lemma NextSend(st: State, r: nat, d: nat, msg: Message) returns (st': State)
    requires Reachable(Code(), ThreeRanks(), st) && r < 3 && d < 3 && st.pc[r] < |Code()[r]|
    requires var op := Code()[r][st.pc[r]]; op.Send? && op.dst == d && op.payload(st.inbox[r]) == msg
    ensures Reachable(Code(), ThreeRanks(), st') && (r, d) in st.chan
    ensures st'.pc == st.pc[r := st.pc[r] + 1] && st'.inbox == st.inbox && st'.refused == st.refused
    ensures st'.chan == st.chan[(r, d) := st.chan[(r, d)] + [msg]]
  {
    hide Code, Runs, Start, Addressed;
    st' := Next(st, r);
  }

  lemma NextRecv(st: State, r: nat, s: nat, msg: Message) returns (st': State)
    requires Reachable(Code(), ThreeRanks(), st) && r < 3 && s < 3 && st.pc[r] < |Code()[r]|
    requires var op := Code()[r][st.pc[r]]; op.Recv? && op.src == s
    requires (s, r) in st.chan && st.chan[(s, r)] == [msg]
    ensures Reachable(Code(), ThreeRanks(), st')
    ensures st'.inbox == st.inbox[r := st.inbox[r] + [msg]] && st'.chan == st.chan[(s, r) := []]
    ensures var op := Code()[r][st.pc[r]];
      if Suits(op.want(st.inbox[r]), msg) then st'.pc == st.pc[r := st.pc[r] + 1] && st'.refused == st.refused
      else st'.pc == st.pc[r := st.pc[r] + 1 + op.rest] && st'.refused == st.refused + 1
  {
    hide Code, Runs, Start, Addressed, Suits;
    assert [msg][1..] == [];
    st' := Next(st, r);
  }

  lemma Started() returns (st: State)
    ensures Reachable(Code(), ThreeRanks(), st) && st.pc == [0, 0, 0] && st.inbox == [[], [], []] && st.refused == 0
    ensures (1, 0) in st.chan && st.chan[(1, 0)] == [] && (2, 0) in st.chan && st.chan[(2, 0)] == []
  {
    StartIsReachable(Code(), ThreeRanks());
    st := Start(Code(), ThreeRanks());
  }

  /** Rank 1 has contributed to the Gather. */
  lemma OneGave() returns (st: State)
    ensures Reachable(Code(), ThreeRanks(), st) && st.pc == [0, 1, 0] && st.inbox == [[], [], []]
    ensures (1, 0) in st.chan && st.chan[(1, 0)] == [[7, 7]] && (2, 0) in st.chan && st.chan[(2, 0)] == []
  {
    hide *;
    st := Started();
    OtherSteps(1);
    st := NextSend(st, 1, 0, [7, 7]);
  }

  /** So has rank 2. */
  lemma BothGave() returns (st: State)
    ensures Reachable(Code(), ThreeRanks(), st) && st.pc == [0, 1, 1] && st.inbox == [[], [], []]
    ensures (1, 0) in st.chan && st.chan[(1, 0)] == [[7, 7]] && (2, 0) in st.chan && st.chan[(2, 0)] == [[7]]
  {
    hide *;
    st := OneGave();
    OtherSteps(2);
    st := NextSend(st, 2, 0, [7]);
  }

  /** The root has returned from it with an error. */
  lemma RootRefused() returns (st: State)
    ensures Reachable(Code(), ThreeRanks(), st)
    ensures st.pc == [2, 1, 1] && |st.inbox| == 3 && st.refused > 0
    ensures (1, 0) in st.chan && st.chan[(1, 0)] == [] && (2, 0) in st.chan && st.chan[(2, 0)] == [[7]]
  {
    st := BothGave();
    RootSteps();
    hide Code, Reachable;
    st := NextRecv(st, 0, 1, [7, 7]);
  }

  /** Rank 1 has reported to the barrier. */
  lemma OneReported() returns (st: State)
    ensures Reachable(Code(), ThreeRanks(), st) && st.pc == [2, 2, 1] && |st.inbox| == 3
    ensures (1, 0) in st.chan && st.chan[(1, 0)] == [Finish] && (2, 0) in st.chan && st.chan[(2, 0)] == [[7]]
  {
    hide *;
    st := RootRefused();
    OtherSteps(1);
    st := NextSend(st, 1, 0, Finish);
  }

  /** The root has taken the report. */
  lemma RootHeardOne() returns (st: State)
    ensures Reachable(Code(), ThreeRanks(), st) && st.pc == [3, 2, 1] && |st.inbox| == 3
    ensures (2, 0) in st.chan && st.chan[(2, 0)] == [[7]]
  {
    hide Code, Reachable;
    st := OneReported();
    RootSteps();
    st := NextRecv(st, 0, 1, Finish);
  }

  /** It has taken the stale block for the report of rank 2. */
  lemma RootDeceived() returns (st: State)
    ensures Reachable(Code(), ThreeRanks(), st) && st.pc == [4, 2, 1] && |st.inbox| == 3
  {
    hide Code, Reachable;
    st := RootHeardOne();
    RootSteps();
    st := NextRecv(st, 0, 2, [7]);
  }

  /** Rank 0 has passed the barrier, and rank 2 has not arrived at it. */
  lemma PassesAlone() returns (st: State)
    ensures Reachable(Job(GatherThenBarrier(), 3), ThreeRanks(), st) && |st.pc| == 3
    ensures AllValid([GatherCall1()], 3)
    ensures PassedBarrier([GatherCall1()], ThreeRanks(), st, 0) && !Arrived([GatherCall1()], ThreeRanks(), st, 2)
  {
    st := RootDeceived();
    RootSteps();
    GatherSteps();
    CodeIs();
    hide Code, Reachable, Steps;
    st := NextSend(st, 0, 1, Finish);
    st := NextSend(st, 0, 2, Finish);
  }

  lemma CodeIs()
    ensures Code() == Job(GatherThenBarrier(), 3)
  {
  }

  lemma GatherSteps()
    ensures AllValid([GatherCall1()], 3) && Steps([GatherCall1()], 3, 0) == 2 && Steps([GatherCall1()], 3, 2) == 1
  {
    JobOfOne(GatherCall1(), 3, 0);
    JobOfOne(GatherCall1(), 3, 2);
  }
}
