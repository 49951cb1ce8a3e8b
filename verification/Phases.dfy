/**
  One communication phase: a round of messages in which every ordered pair of ranks is used at
  most once and what is sent depends only on what the sender knew when the phase began.

  The condition for a phase to complete is a logical clock on its steps, which grows along every
  program and along every message, together with messages of the lengths the receivers insist on.
  A rank that refuses a message leaves the phase; then exactly those steps are done that do not
  wait, directly or through others, for a step that has been left out.
 */
module Phases {
  import opened Network

  /** What sender s has for receiver d in this phase. */
  type Values = (nat, nat) -> Message

  type Clock = (nat, nat) -> nat

  ghost predicate SendsAt(p: Program, i: nat, d: nat) {
    i < |p| && p[i].Send? && p[i].dst == d
  }

  ghost predicate ReceivesAt(p: Program, j: nat, s: nat) {
    j < |p| && p[j].Recv? && p[j].src == s
  }

  ghost predicate Ticks(P: seq<Program>, clock: Clock) {
    forall r: nat, i: nat, j: nat | r < |P| && i < j < |P[r]| :: clock(r, i) < clock(r, j)
  }

  ghost predicate UsedOnce(P: seq<Program>) {
    && (forall r: nat, i: nat, j: nat, d: nat | r < |P| && SendsAt(P[r], i, d) && SendsAt(P[r], j, d) :: i == j)
    && (forall r: nat, i: nat, j: nat, s: nat | r < |P| && ReceivesAt(P[r], i, s) && ReceivesAt(P[r], j, s) :: i == j)
  }

  ghost predicate Matched(P: seq<Program>, clock: Clock) {
    && (forall d: nat, j: nat, s: nat | d < |P| && s < |P| && ReceivesAt(P[d], j, s) ::
          exists i: nat :: SendsAt(P[s], i, d) && clock(s, i) < clock(d, j))
    && (forall s: nat, i: nat, d: nat | s < |P| && d < |P| && SendsAt(P[s], i, d) ::
          exists j: nat :: ReceivesAt(P[d], j, s))
  }

  /** A refused message ends the phase for the rank that has refused it. */
  ghost predicate LeavesAtOnce(P: seq<Program>) {
    forall r: nat, j: nat | r < |P| && j < |P[r]| && P[r][j].Recv? :: P[r][j].rest == |P[r]| - j - 1
  }

  ghost predicate Pattern(P: seq<Program>, clock: Clock) {
    Addressed(P) && Ticks(P, clock) && UsedOnce(P) && Matched(P, clock) && LeavesAtOnce(P)
  }

  /** The messages rank r takes in with the first i steps of its program. */
  ghost function Got(p: Program, i: nat, r: nat, v: Values): (h: History)
    requires i <= |p|
  {
    if i == 0 then []
    else if p[i - 1].Recv? then Got(p, i - 1, r, v) + [v(p[i - 1].src, r)]
    else Got(p, i - 1, r, v)
  }

  /** All that rank r has received when it comes to step i. */
  ghost function Before(P: seq<Program>, X: seq<History>, v: Values, r: nat, i: nat): History
    requires r < |P| == |X| && i <= |P[r]|
  {
    X[r] + Got(P[r], i, r, v)
  }

  /** Each send carries the value v says. */
  ghost predicate Carries(P: seq<Program>, X: seq<History>, v: Values)
    requires |X| == |P|
  {
    forall s: nat, i: nat | s < |P| && i < |P[s]| && P[s][i].Send? ::
      P[s][i].payload(Before(P, X, v, s, i)) == v(s, P[s][i].dst)
  }

  /** Step j of rank r, if it is a receive, gets a message of the length it insists on. */
  ghost predicate Accepted(P: seq<Program>, X: seq<History>, v: Values, r: nat, j: nat)
    requires r < |P| == |X| && j < |P[r]|
  {
    P[r][j].Recv? ==> Suits(P[r][j].want(Before(P, X, v, r, j)), v(P[r][j].src, r))
  }

  ghost predicate AllAccepted(P: seq<Program>, X: seq<History>, v: Values)
    requires |X| == |P|
  {
    forall r: nat, j: nat | r < |P| && j < |P[r]| :: Accepted(P, X, v, r, j)
  }

  ghost function Outcome(P: seq<Program>, X: seq<History>, v: Values): (Y: seq<History>)
    requires |X| == |P|
    ensures |Y| == |P| && forall r: nat | r < |P| :: Y[r] == X[r] + Got(P[r], |P[r]|, r, v)
  {
    seq(|P|, r requires 0 <= r < |P| => X[r] + Got(P[r], |P[r]|, r, v))
  }

  // ---------------------------------------------------------------- the state of a phase

  ghost predicate HasSent(p: Program, i: nat, d: nat) {
    exists k: nat :: k < i && SendsAt(p, k, d)
  }

  ghost predicate HasReceived(p: Program, j: nat, s: nat) {
    exists k: nat :: k < j && ReceivesAt(p, k, s)
  }

  /** A channel holds its one message from the send until the receive; e[r] steps of rank r have
      been done. */
  ghost predicate ChannelAt(P: seq<Program>, v: Values, st: State, e: seq<nat>, s: nat, d: nat)
    requires Shaped(P, st) && s < |P| == |e| && d < |P|
  {
    && st.chan[(s, d)] == (if HasSent(P[s], e[s], d) && !HasReceived(P[d], e[d], s) then [v(s, d)] else [])
    && (HasReceived(P[d], e[d], s) ==> HasSent(P[s], e[s], d))
  }

  /** The last of the k steps that rank r has done was a receive that refused its message. */
  ghost predicate Stopped(P: seq<Program>, X: seq<History>, v: Values, r: nat, k: nat)
    requires r < |P| == |X| && k <= |P[r]|
  {
    k > 0 && !Accepted(P, X, v, r, k - 1)
  }

  ghost predicate RankAt(P: seq<Program>, X: seq<History>, v: Values, st: State, k: nat, r: nat)
    requires Shaped(P, st) && r < |P| == |X|
  {
    && k <= |P[r]| && st.inbox[r] == Before(P, X, v, r, k)
    && st.pc[r] == (if Stopped(P, X, v, r, k) then |P[r]| else k)
    && forall j: nat | j + 1 < k :: Accepted(P, X, v, r, j)
  }

  /** The whole state, as a function of how many steps each rank has done. */
  ghost predicate At(P: seq<Program>, X: seq<History>, v: Values, st: State, e: seq<nat>)
    requires Shaped(P, st) && |X| == |P|
  {
    && |e| == |P|
    && (forall r: nat | r < |P| :: RankAt(P, X, v, st, e[r], r))
    && (forall s: nat, d: nat | s < |P| && d < |P| :: ChannelAt(P, v, st, e, s, d))
    && (st.refused == 0 <==> forall r: nat | r < |P| :: !Stopped(P, X, v, r, e[r]))
  }

  lemma HasSentStep(p: Program, i: nat, d: nat)
    requires i < |p|
    ensures HasSent(p, i + 1, d) <==> HasSent(p, i, d) || SendsAt(p, i, d)
  {
    if HasSent(p, i + 1, d) {
      var k: nat :| k < i + 1 && SendsAt(p, k, d);
      assert k < i || k == i;
    }
  }

  lemma HasReceivedStep(p: Program, j: nat, s: nat)
    requires j < |p|
    ensures HasReceived(p, j + 1, s) <==> HasReceived(p, j, s) || ReceivesAt(p, j, s)
  {
    if HasReceived(p, j + 1, s) {
      var k: nat :| k < j + 1 && ReceivesAt(p, k, s);
      assert k < j || k == j;
    }
  }

  /** A rank that can step has done all the steps before and stopped at none of them. */
  lemma StepsInTurn(P: seq<Program>, X: seq<History>, v: Values, st: State, e: seq<nat>, r: nat)
    requires Shaped(P, st) && |X| == |P| && At(P, X, v, st, e) && CanStep(P, st, r)
    ensures e[r] == st.pc[r] < |P[r]| && !Stopped(P, X, v, r, e[r]) && st.inbox[r] == Before(P, X, v, r, e[r])
    ensures forall j: nat | j < e[r] :: Accepted(P, X, v, r, j)
    ensures P[r][e[r]].Recv? ==> st.chan[(P[r][e[r]].src, r)] == [v(P[r][e[r]].src, r)]
  {
    assert RankAt(P, X, v, st, e[r], r);
    hide Accepted, Before;
    if P[r][e[r]].Recv? {
      assert OpOk(P[r][e[r]], |P|, |P[r]| - e[r] - 1);
      assert ChannelAt(P, v, st, e, P[r][e[r]].src, r);
    }
  }

  lemma SendKeepsChannel(P: seq<Program>, X: seq<History>, v: Values, st: State, e: seq<nat>, r: nat, s: nat, d: nat)
    requires Shaped(P, st) && |X| == |P| && UsedOnce(P) && Carries(P, X, v) && At(P, X, v, st, e)
    requires CanStep(P, st, r) && P[r][st.pc[r]].Send? && s < |P| && d < |P|
    ensures e[r] == st.pc[r] && ChannelAt(P, v, Step(P, st, r), e[r := e[r] + 1], s, d)
  {
    StepsInTurn(P, X, v, st, e, r);
    var i, d' := e[r], P[r][e[r]].dst;
    assert ChannelAt(P, v, st, e, s, d);
    hide Before, Accepted, Stopped, Suits;
    HasSentStep(P[r], i, d);
    HasReceivedStep(P[r], i, s);
    assert SendsAt(P[r], i, d') && !ReceivesAt(P[r], i, s);
    if s == r && d == d' {
      assert !HasSent(P[r], i, d);
    }
  }

  lemma RecvKeepsChannel(P: seq<Program>, X: seq<History>, v: Values, st: State, e: seq<nat>, r: nat, s: nat, d: nat)
    requires Shaped(P, st) && |X| == |P| && UsedOnce(P) && At(P, X, v, st, e)
    requires CanStep(P, st, r) && P[r][st.pc[r]].Recv? && s < |P| && d < |P|
    ensures e[r] == st.pc[r] && ChannelAt(P, v, Step(P, st, r), e[r := e[r] + 1], s, d)
  {
    StepsInTurn(P, X, v, st, e, r);
    var i := e[r];
    assert ChannelAt(P, v, st, e, s, d);
    hide Before, Accepted, Stopped, Suits;
    HasSentStep(P[r], i, d);
    HasReceivedStep(P[r], i, s);
    assert ReceivesAt(P[r], i, P[r][i].src) && !SendsAt(P[r], i, d);
  }

  lemma StepKeepsRank(P: seq<Program>, X: seq<History>, v: Values, st: State, e: seq<nat>, r: nat)
    requires Shaped(P, st) && |X| == |P| && LeavesAtOnce(P) && At(P, X, v, st, e) && CanStep(P, st, r)
    ensures e[r] == st.pc[r] < |P[r]| && RankAt(P, X, v, Step(P, st, r), e[r] + 1, r)
    ensures Step(P, st, r).refused == if Accepted(P, X, v, r, e[r]) then st.refused else st.refused + 1
  {
    StepsInTurn(P, X, v, st, e, r);
    var i := e[r];
    assert Got(P[r], i + 1, r, v) == Got(P[r], i, r, v) + if P[r][i].Recv? then [v(P[r][i].src, r)] else [];
    hide Got, Suits, ChannelAt;
    assert Before(P, X, v, r, i + 1) == Before(P, X, v, r, i) + if P[r][i].Recv? then [v(P[r][i].src, r)] else [];
  }

  lemma OthersStay(P: seq<Program>, X: seq<History>, v: Values, st: State, k: nat, r: nat, q: nat)
    requires Shaped(P, st) && |X| == |P| && CanStep(P, st, r) && q < |P| && q != r && RankAt(P, X, v, st, k, q)
    ensures RankAt(P, X, v, Step(P, st, r), k, q)
  {
    assert Step(P, st, r).pc[q] == st.pc[q] && Step(P, st, r).inbox[q] == st.inbox[q];
    hide Step, Stopped, Before, Accepted;
  }

  /** Refusals are counted at the ranks that have stopped. */
  lemma StoppedStays(P: seq<Program>, X: seq<History>, v: Values, st: State, e: seq<nat>, r: nat)
    requires Shaped(P, st) && |X| == |P| && LeavesAtOnce(P) && At(P, X, v, st, e) && CanStep(P, st, r)
    ensures e[r] == st.pc[r] < |P[r]|
    ensures var e' := e[r := e[r] + 1];
      && (forall q: nat | q < |P| :: e'[q] <= |P[q]|)
      && (Step(P, st, r).refused == 0 <==> forall q: nat | q < |P| :: !Stopped(P, X, v, q, e'[q]))
  {
    var e' := e[r := e[r] + 1];
    StepsInTurn(P, X, v, st, e, r);
    StepKeepsRank(P, X, v, st, e, r);
    forall q: nat | q < |P| ensures e'[q] <= |P[q]| {
      assert RankAt(P, X, v, st, e[q], q);
    }
    assert Stopped(P, X, v, r, e'[r]) <==> !Accepted(P, X, v, r, e[r]);
    assert forall q: nat | q < |P| && q != r :: Stopped(P, X, v, q, e'[q]) == Stopped(P, X, v, q, e[q]);
    hide Step, CanStep, Accepted, Stopped, RankAt, ChannelAt, Addressed;
  }

  lemma StepKeepsAt(P: seq<Program>, X: seq<History>, v: Values, st: State, e: seq<nat>, r: nat)
    requires Shaped(P, st) && |X| == |P| && UsedOnce(P) && LeavesAtOnce(P) && Carries(P, X, v) && At(P, X, v, st, e)
    requires CanStep(P, st, r)
    ensures e[r] == st.pc[r] < |P[r]| && At(P, X, v, Step(P, st, r), e[r := e[r] + 1])
  {
    var st', e' := Step(P, st, r), e[r := e[r] + 1];
    StepsInTurn(P, X, v, st, e, r);
    StepKeepsRank(P, X, v, st, e, r);
    assert forall q: nat | q < |P| && q != r :: e'[q] == e[q];
    assert Stopped(P, X, v, r, e[r] + 1) <==> !Accepted(P, X, v, r, e[r]);
    StoppedStays(P, X, v, st, e, r);
    hide Step, CanStep, HasSent, HasReceived, Stopped, Accepted, Before, Addressed, RankAt, Carries, UsedOnce,
         ChannelAt;
    forall q: nat | q < |P| ensures RankAt(P, X, v, st', e'[q], q) {
      if q != r {
        OthersStay(P, X, v, st, e[q], r, q);
      }
    }
    forall s: nat, d: nat | s < |P| && d < |P| ensures ChannelAt(P, v, st', e', s, d) {
      if P[r][st.pc[r]].Send? {
        SendKeepsChannel(P, X, v, st, e, r, s, d);
      } else {
        RecvKeepsChannel(P, X, v, st, e, r, s, d);
      }
    }
  }

  lemma {:induction false} RunKeepsAt(P: seq<Program>, X: seq<History>, v: Values, st: State, e: seq<nat>,
                                      schedule: seq<nat>, fin: State) returns (e': seq<nat>)
    requires Shaped(P, st) && |X| == |P| && UsedOnce(P) && LeavesAtOnce(P) && Carries(P, X, v) && At(P, X, v, st, e)
    requires Runs(P, st, schedule, fin)
    ensures Shaped(P, fin) && At(P, X, v, fin, e')
    decreases |schedule|
  {
    assert |e| == |P|;
    hide At, Step, CanStep, Addressed, Carries, UsedOnce;
    if schedule == [] {
      e' := e;
    } else {
      var r := schedule[0];
      StepKeepsAt(P, X, v, st, e, r);
      e' := RunKeepsAt(P, X, v, Step(P, st, r), e[r := e[r] + 1], schedule[1..], fin);
    }
  }

  ghost function NoSteps(n: nat): (e: seq<nat>)
    ensures |e| == n && forall r: nat | r < n :: e[r] == 0
  {
    seq(n, _ => 0)
  }

  lemma StartAt(P: seq<Program>, X: seq<History>, v: Values)
    requires Addressed(P) && |X| == |P|
    ensures At(P, X, v, Start(P, X), NoSteps(|P|))
  {
    assert forall r: nat | r < |P| :: Got(P[r], 0, r, v) == [];
    hide Got, Accepted;
  }

  /** In every interleaving the state is a function of how far each rank has come. */
  lemma ReachableAt(P: seq<Program>, X: seq<History>, v: Values, st: State) returns (e: seq<nat>)
    requires UsedOnce(P) && LeavesAtOnce(P) && |X| == |P| && Carries(P, X, v) && Reachable(P, X, st)
    ensures At(P, X, v, st, e)
  {
    hide At, Runs, Carries, UsedOnce, Start;
    var schedule :| Runs(P, Start(P, X), schedule, st);
    StartAt(P, X, v);
    e := RunKeepsAt(P, X, v, Start(P, X), NoSteps(|P|), schedule, st);
  }

  // ---------------------------------------------------------------- going through

  /** While no message has been refused and some rank has not finished, some rank can step: follow
      the clock downwards. */
  lemma {:induction false} Progress(P: seq<Program>, clock: Clock, X: seq<History>, v: Values, st: State, e: seq<nat>,
                                    r: nat) returns (q: nat)
    requires Shaped(P, st) && |X| == |P| && Pattern(P, clock) && At(P, X, v, st, e) && st.refused == 0
    requires r < |P| && st.pc[r] < |P[r]|
    ensures CanStep(P, st, q)
    decreases clock(r, st.pc[r])
  {
    var j := st.pc[r];
    assert RankAt(P, X, v, st, e[r], r) && e[r] == j;
    if CanStep(P, st, r) {
      q := r;
    } else {
      var s := P[r][j].src;
      assert OpOk(P[r][j], |P|, |P[r]| - j - 1);
      assert ReceivesAt(P[r], j, s);
      var i: nat :| SendsAt(P[s], i, r) && clock(s, i) < clock(r, j);
      assert ChannelAt(P, v, st, e, s, r) && !HasReceived(P[r], j, s);
      assert RankAt(P, X, v, st, e[s], s) && e[s] == st.pc[s];
      assert i >= st.pc[s];
      q := Progress(P, clock, X, v, st, e, s);
    }
  }

  ghost function Remaining(P: seq<Program>, st: State, k: nat): nat
    requires Shaped(P, st) && k <= |P|
  {
    if k == 0 then 0 else Remaining(P, st, k - 1) + |P[k - 1]| - st.pc[k - 1]
  }

  lemma {:induction false} StepUsesOne(P: seq<Program>, st: State, r: nat, k: nat)
    requires Shaped(P, st) && CanStep(P, st, r) && k <= |P|
    ensures Remaining(P, Step(P, st, r), k) <= Remaining(P, st, k) - if r < k then 1 else 0
  {
    if k > 0 {
      StepUsesOne(P, st, r, k - 1);
    }
  }

  /** From a state without refusals the ranks can go on until one refuses a message or all have
      finished. */
  lemma {:induction false} GoesOn(P: seq<Program>, clock: Clock, X: seq<History>, v: Values, st: State, e: seq<nat>)
    returns (schedule: seq<nat>, fin: State, e': seq<nat>)
    requires Shaped(P, st) && |X| == |P| && Pattern(P, clock) && Carries(P, X, v) && At(P, X, v, st, e)
    ensures Runs(P, st, schedule, fin) && Shaped(P, fin) && At(P, X, v, fin, e')
    ensures fin.refused > 0 || Finished(P, fin)
    decreases Remaining(P, st, |P|)
  {
    if st.refused > 0 || Finished(P, st) {
      schedule, fin, e' := [], st, e;
    } else {
      var r: nat :| r < |P| && st.pc[r] != |P[r]|;
      var q := Progress(P, clock, X, v, st, e, r);
      StepKeepsAt(P, X, v, st, e, q);
      StepUsesOne(P, st, q, |P|);
      hide At, Carries, Matched, UsedOnce, Ticks;
      var later;
      later, fin, e' := GoesOn(P, clock, X, v, Step(P, st, q), e[q := e[q] + 1]);
      schedule := [q] + later;
      assert schedule[1..] == later;
    }
  }

  lemma NeverRefused(P: seq<Program>, X: seq<History>, v: Values, st: State, e: seq<nat>)
    requires Shaped(P, st) && |X| == |P| && At(P, X, v, st, e) && AllAccepted(P, X, v)
    ensures st.refused == 0
  {
    forall r: nat | r < |P| ensures !Stopped(P, X, v, r, e[r]) {
      assert RankAt(P, X, v, st, e[r], r);
    }
  }

  /** Ranks that have all finished without a refusal have had all their messages accepted. */
  lemma FinishedAccepts(P: seq<Program>, X: seq<History>, v: Values, fin: State, e: seq<nat>)
    requires Shaped(P, fin) && |X| == |P| && At(P, X, v, fin, e) && Finished(P, fin) && fin.refused == 0
    ensures AllAccepted(P, X, v)
  {
    forall r: nat, j: nat | r < |P| && j < |P[r]| ensures Accepted(P, X, v, r, j) {
      assert RankAt(P, X, v, fin, e[r], r) && !Stopped(P, X, v, r, e[r]);
      assert e[r] == |P[r]|;
    }
  }

  /** Whatever has been sent in a finished phase has been received. */
  lemma EmptyAtEnd(P: seq<Program>, clock: Clock, v: Values, fin: State, e: seq<nat>, s: nat, d: nat)
    requires Shaped(P, fin) && Pattern(P, clock) && s < |P| == |e| && d < |P| && ChannelAt(P, v, fin, e, s, d)
    requires e[s] == |P[s]| && e[d] == |P[d]|
    ensures fin.chan[(s, d)] == []
  {
    if HasSent(P[s], e[s], d) {
      var i: nat :| SendsAt(P[s], i, d);
      var j: nat :| ReceivesAt(P[d], j, s);
      assert HasReceived(P[d], e[d], s);
    }
  }

  lemma FinishedIsDone(P: seq<Program>, clock: Clock, X: seq<History>, v: Values, fin: State, e: seq<nat>)
    requires Shaped(P, fin) && |X| == |P| && Pattern(P, clock) && Finished(P, fin) && At(P, X, v, fin, e)
    requires fin.refused == 0 && forall s: nat, d: nat :: (s, d) in fin.chan ==> s < |P| && d < |P|
    ensures fin == Done(P, Outcome(P, X, v))
  {
    var done := Done(P, Outcome(P, X, v));
    forall r: nat | r < |P| ensures e[r] == fin.pc[r] == |P[r]| && fin.inbox[r] == done.inbox[r] {
      assert RankAt(P, X, v, fin, e[r], r);
    }
    forall s: nat, d: nat | s < |P| && d < |P| ensures fin.chan[(s, d)] == [] {
      EmptyAtEnd(P, clock, v, fin, e, s, d);
    }
    hide At, Addressed, Pattern, Got, Outcome;
    assert fin.pc == done.pc;
    assert fin.inbox == done.inbox;
    SameChannels(fin.chan, done.chan, |P|);
  }

  lemma SameChannels(a: map<(nat, nat), seq<Message>>, b: map<(nat, nat), seq<Message>>, n: nat)
    requires forall s: nat, d: nat :: (s, d) in a <==> s < n && d < n
    requires forall s: nat, d: nat :: (s, d) in b <==> s < n && d < n
    requires forall s: nat, d: nat | s < n && d < n :: a[(s, d)] == b[(s, d)]
    ensures a == b
  {
    forall k: (nat, nat) ensures k in a <==> k in b {
      assert k == (k.0, k.1);
    }
    forall k: (nat, nat) | k in a ensures a[k] == b[k] {
      assert k == (k.0, k.1);
    }
  }

  lemma {:induction false} ChannelsFixed(P: seq<Program>, st: State, schedule: seq<nat>, fin: State)
    requires Shaped(P, st) && Runs(P, st, schedule, fin)
    ensures fin.chan.Keys == st.chan.Keys
    decreases |schedule|
  {
    if schedule != [] {
      assert Step(P, st, schedule[0]).chan.Keys == st.chan.Keys;
      ChannelsFixed(P, Step(P, st, schedule[0]), schedule[1..], fin);
    }
  }

  /** A clocked phase whose messages have the right lengths runs to its end, and what every rank then
      holds is its outcome. */
  lemma PhaseRealises(P: seq<Program>, clock: Clock, X: seq<History>, v: Values)
    requires |X| == |P| && Pattern(P, clock) && Carries(P, X, v) && AllAccepted(P, X, v)
    ensures Realises(P, X, Outcome(P, X, v))
  {
    hide Step, Runs, At, Carries, AllAccepted;
    var st := Start(P, X);
    StartAt(P, X, v);
    var schedule, fin, e := GoesOn(P, clock, X, v, st, NoSteps(|P|));
    NeverRefused(P, X, v, fin, e);
    ChannelsFixed(P, st, schedule, fin);
    assert forall k :: k in st.chan <==> k.0 < |P| && k.1 < |P|;
    FinishedIsDone(P, clock, X, v, fin, e);
  }

  /** If one message has the wrong length, every interleaving can only go on to a refusal. */
  lemma PhaseRefuses(P: seq<Program>, clock: Clock, X: seq<History>, v: Values, st: State)
    returns (later: seq<nat>, fin: State)
    requires |X| == |P| && Pattern(P, clock) && Carries(P, X, v) && !AllAccepted(P, X, v) && Reachable(P, X, st)
    ensures Runs(P, st, later, fin) && fin.refused > 0
  {
    hide Runs, At, Carries, AllAccepted, Matched, UsedOnce, Ticks;
    var e := ReachableAt(P, X, v, st);
    var e';
    later, fin, e' := GoesOn(P, clock, X, v, st, e);
    if fin.refused == 0 {
      FinishedAccepts(P, X, v, fin, e');
    }
  }

  // ---------------------------------------------------------------- exactly what is done

  /** Step j of rank r does not wait, directly or through others, for a step that is left out: the rank
      comes to it, and if it is a receive then its message is sent. */
  ghost predicate Does(P: seq<Program>, clock: Clock, X: seq<History>, v: Values, r: nat, j: nat)
    requires Addressed(P) && Ticks(P, clock) && r < |P| == |X| && j < |P[r]|
    decreases clock(r, j)
  {
    && (forall k: nat | k < j :: Does(P, clock, X, v, r, k) && Accepted(P, X, v, r, k))
    && (P[r][j].Recv? ==>
          var s := P[r][j].src;
          assert OpOk(P[r][j], |P|, |P[r]| - j - 1);
          exists i: nat | i < |P[s]| :: SendsAt(P[s], i, r) && clock(s, i) < clock(r, j) && Does(P, clock, X, v, s, i))
  }

  /** Every step done so far is one of these. */
  ghost predicate DoneAreDue(P: seq<Program>, clock: Clock, X: seq<History>, v: Values, e: seq<nat>)
    requires Addressed(P) && Ticks(P, clock) && |P| == |X| == |e|
  {
    forall q: nat, j: nat | q < |P| && j < e[q] && j < |P[q]| :: Does(P, clock, X, v, q, j)
  }

  /** The send that has filled the channel a receive waits on. */
  lemma SenderDid(P: seq<Program>, clock: Clock, X: seq<History>, v: Values, st: State, e: seq<nat>, r: nat)
    returns (i: nat)
    requires Pattern(P, clock) && |X| == |P| && Shaped(P, st) && At(P, X, v, st, e) && CanStep(P, st, r)
    requires P[r][st.pc[r]].Recv?
    ensures e[r] == st.pc[r]
    ensures var s := P[r][e[r]].src;
      s < |P| && i < e[s] <= |P[s]| && SendsAt(P[s], i, r) && clock(s, i) < clock(r, e[r])
  {
    StepsInTurn(P, X, v, st, e, r);
    var s := P[r][e[r]].src;
    assert OpOk(P[r][e[r]], |P|, |P[r]| - e[r] - 1);
    assert ChannelAt(P, v, st, e, s, r) && RankAt(P, X, v, st, e[s], s);
    hide Accepted, Stopped, Before, RankAt, Step;
    i :| i < e[s] && SendsAt(P[s], i, r);
    assert ReceivesAt(P[r], e[r], s);
    var i': nat :| SendsAt(P[s], i', r) && clock(s, i') < clock(r, e[r]);
    assert i' == i;
  }

  lemma StepIsDue(P: seq<Program>, clock: Clock, X: seq<History>, v: Values, st: State, e: seq<nat>, r: nat)
    requires Pattern(P, clock) && |X| == |P| && Shaped(P, st) && At(P, X, v, st, e) && CanStep(P, st, r)
    requires DoneAreDue(P, clock, X, v, e)
    ensures e[r] < |P[r]| && DoneAreDue(P, clock, X, v, e[r := e[r] + 1])
  {
    StepsInTurn(P, X, v, st, e, r);
    var j := e[r];
    if P[r][j].Recv? {
      var i := SenderDid(P, clock, X, v, st, e, r);
      assert Does(P, clock, X, v, P[r][j].src, i);
    }
    hide At, Accepted, Matched, UsedOnce, CanStep;
    assert Does(P, clock, X, v, r, j);
  }

  /** In every interleaving, only such steps have been done. */
  lemma {:induction false} OnlyDue(P: seq<Program>, clock: Clock, X: seq<History>, v: Values, st: State, e: seq<nat>,
                                   schedule: seq<nat>, fin: State) returns (e': seq<nat>)
    requires Pattern(P, clock) && |X| == |P| && Carries(P, X, v) && Shaped(P, st) && At(P, X, v, st, e)
    requires Runs(P, st, schedule, fin)
    requires DoneAreDue(P, clock, X, v, e)
    ensures Shaped(P, fin) && At(P, X, v, fin, e') && |e'| == |P|
    ensures DoneAreDue(P, clock, X, v, e')
    decreases |schedule|
  {
    assert |e| == |P|;
    hide At, Step, CanStep, Carries, UsedOnce, Matched, DoneAreDue, Addressed, LeavesAtOnce, Ticks;
    if schedule == [] {
      e' := e;
    } else {
      var r := schedule[0];
      StepIsDue(P, clock, X, v, st, e, r);
      StepKeepsAt(P, X, v, st, e, r);
      e' := OnlyDue(P, clock, X, v, Step(P, st, r), e[r := e[r] + 1], schedule[1..], fin);
    }
  }

  /** When no rank can step, all of them have been done. */
  lemma {:induction false} AllDue(P: seq<Program>, clock: Clock, X: seq<History>, v: Values, st: State, e: seq<nat>,
                                  r: nat, j: nat)
    requires Pattern(P, clock) && |X| == |P| && Shaped(P, st) && At(P, X, v, st, e)
    requires forall q: nat :: !CanStep(P, st, q)
    requires r < |P| && j < |P[r]| && Does(P, clock, X, v, r, j)
    ensures j < e[r]
    decreases clock(r, j)
  {
    assert RankAt(P, X, v, st, e[r], r);
    if e[r] <= j {
      if e[r] < j {
        AllDue(P, clock, X, v, st, e, r, e[r]);
      }
      assert e[r] == j && !Stopped(P, X, v, r, j) && st.pc[r] == j;
      assert !CanStep(P, st, r);
      var s := P[r][j].src;
      assert OpOk(P[r][j], |P|, |P[r]| - j - 1);
      var i: nat :| i < |P[s]| && SendsAt(P[s], i, r) && clock(s, i) < clock(r, j) && Does(P, clock, X, v, s, i);
      AllDue(P, clock, X, v, st, e, s, i);
      assert ChannelAt(P, v, st, e, s, r) && HasSent(P[s], e[s], r) && ReceivesAt(P[r], j, s);
    }
  }

  /** However the ranks interleave, when none of them can step each has done exactly the steps that do
      not wait for one that is left out. */
  lemma PhaseStops(P: seq<Program>, clock: Clock, X: seq<History>, v: Values, st: State) returns (e: seq<nat>)
    requires |X| == |P| && Pattern(P, clock) && Carries(P, X, v) && Reachable(P, X, st)
    requires forall q: nat :: !CanStep(P, st, q)
    ensures At(P, X, v, st, e)
    ensures forall r: nat, j: nat | r < |P| && j < |P[r]| :: j < e[r] <==> Does(P, clock, X, v, r, j)
  {
    hide At, Runs, Carries, Start, Does, CanStep;
    var schedule :| Runs(P, Start(P, X), schedule, st);
    StartAt(P, X, v);
    e := OnlyDue(P, clock, X, v, Start(P, X), NoSteps(|P|), schedule, st);
    forall r: nat, j: nat | r < |P| && j < |P[r]| && Does(P, clock, X, v, r, j) ensures j < e[r] {
      AllDue(P, clock, X, v, st, e, r, j);
    }
  }
}
