/**
  Ranks that run code of send_ and recv_ steps over reliable FIFO channels.

  There is one channel for each ordered pair of ranks and messages carry no tags.  A send is
  buffered and never blocks; a receive blocks while its channel is empty.  The message a rank
  sends may be any function of all the messages it has received so far, and a receive may insist
  on a length: a rank that takes in a message of another length returns early, which means that it
  leaves out the steps its call has left.
 */
module Network {
  import opened Wrappers

  type Message = seq<int>
  type History = seq<Message>

  /** `payload` and `want` are read off all that the rank has received before the step; a receive
      that refuses its message leaves out the next `rest` steps. */
  datatype Op = Send(dst: nat, payload: History -> Message) | Recv(src: nat, want: History -> Option<int>, rest: nat)

  type Program = seq<Op>

  /** `pc` counts the steps each rank has done or left out, `inbox` holds everything it has received;
      `refused` counts the messages refused by all ranks together. */
  datatype State = State(pc: seq<nat>, inbox: seq<History>, chan: map<(nat, nat), seq<Message>>, refused: nat)

  /** The message has the length the receive insists on, if it insists on one. */
  predicate Suits(want: Option<int>, msg: Message) {
    want.Some? ==> |msg| == want.value
  }

  ghost predicate OpOk(op: Op, n: nat, left: int) {
    match op
    case Send(d, _) => d < n
    case Recv(s, _, rest) => s < n && rest <= left
  }

  ghost predicate Addressed(P: seq<Program>) {
    forall r, i | 0 <= r < |P| && 0 <= i < |P[r]| :: OpOk(P[r][i], |P|, |P[r]| - i - 1)
  }

  ghost predicate Shaped(P: seq<Program>, st: State) {
    && Addressed(P)
    && |st.pc| == |st.inbox| == |P|
    && (forall r | 0 <= r < |P| :: st.pc[r] <= |P[r]|)
    && (forall s: nat, d: nat | s < |P| && d < |P| :: (s, d) in st.chan)
  }

  ghost predicate CanStep(P: seq<Program>, st: State, r: nat)
    requires Shaped(P, st)
  {
    && r < |P|
    && st.pc[r] < |P[r]|
    && match P[r][st.pc[r]]
       case Send(_, _) => true
       case Recv(s, _, _) => st.chan[(s, r)] != []
  }

  ghost function Step(P: seq<Program>, st: State, r: nat): (st': State)
    requires Shaped(P, st) && CanStep(P, st, r)
    ensures Shaped(P, st')
  {
    assert OpOk(P[r][st.pc[r]], |P|, |P[r]| - st.pc[r] - 1);
    match P[r][st.pc[r]]
    case Send(d, payload) =>
      st.(pc := st.pc[r := st.pc[r] + 1], chan := st.chan[(r, d) := st.chan[(r, d)] + [payload(st.inbox[r])]])
    case Recv(s, want, rest) =>
      var c := st.chan[(s, r)];
      var skip := if Suits(want(st.inbox[r]), c[0]) then 0 else rest;
      State(st.pc[r := st.pc[r] + 1 + skip], st.inbox[r := st.inbox[r] + [c[0]]], st.chan[(s, r) := c[1..]],
            if Suits(want(st.inbox[r]), c[0]) then st.refused else st.refused + 1)
  }

  /** The schedule lets the ranks it names step one after the other, from `st` to `fin`. */
  ghost predicate Runs(P: seq<Program>, st: State, schedule: seq<nat>, fin: State)
    requires Shaped(P, st)
    decreases |schedule|
  {
    if schedule == [] then st == fin
    else CanStep(P, st, schedule[0]) && Runs(P, Step(P, st, schedule[0]), schedule[1..], fin)
  }

  ghost predicate Finished(P: seq<Program>, st: State) {
    |st.pc| == |P| && forall r | 0 <= r < |P| :: st.pc[r] == |P[r]|
  }

  lemma {:induction false} RunsKeepsShape(P: seq<Program>, st: State, schedule: seq<nat>, fin: State)
    requires Shaped(P, st) && Runs(P, st, schedule, fin)
    ensures Shaped(P, fin)
    decreases |schedule|
  {
    if schedule != [] {
      RunsKeepsShape(P, Step(P, st, schedule[0]), schedule[1..], fin);
    }
  }

  lemma {:induction false} RunsConcat(P: seq<Program>, st: State, a: seq<nat>, mid: State, b: seq<nat>, fin: State)
    requires Shaped(P, st) && Runs(P, st, a, mid) && Shaped(P, mid) && Runs(P, mid, b, fin)
    ensures Runs(P, st, a + b, fin)
    decreases |a|
  {
    hide Step, CanStep, Shaped;
    if a == [] {
      assert a + b == b;
    } else {
      RunsConcat(P, Step(P, st, a[0]), a[1..], mid, b, fin);
      assert (a + b)[1..] == a[1..] + b;
    }
  }

  // ---------------------------------------------------------------- confluence

  /** What a step of q leaves alone: the rank r and the front of every channel r reads. */
  lemma StepElsewhere(P: seq<Program>, st: State, q: nat, r: nat)
    requires Shaped(P, st) && q != r && CanStep(P, st, q) && CanStep(P, st, r)
    ensures var st' := Step(P, st, q);
      && st'.pc[r] == st.pc[r] && st'.inbox[r] == st.inbox[r]
      && (forall s: nat | s < |P| :: st.chan[(s, r)] <= st'.chan[(s, r)])
      && CanStep(P, st', r)
  {
  }

  /** What a step does to its own rank depends on that rank and the fronts of its channels only. */
  lemma StepIsLocal(P: seq<Program>, st: State, other: State, r: nat)
    requires Shaped(P, st) && Shaped(P, other) && CanStep(P, st, r) && CanStep(P, other, r)
    requires other.pc[r] == st.pc[r] && other.inbox[r] == st.inbox[r]
    requires forall s: nat | s < |P| :: st.chan[(s, r)] <= other.chan[(s, r)]
    ensures var x, y := Step(P, st, r), Step(P, other, r);
      && y.pc == other.pc[r := x.pc[r]] && y.inbox == other.inbox[r := x.inbox[r]]
      && x.pc == st.pc[r := x.pc[r]] && x.inbox == st.inbox[r := x.inbox[r]]
      && y.refused - other.refused == x.refused - st.refused
  {
    hide Suits;
    assert OpOk(P[r][st.pc[r]], |P|, |P[r]| - st.pc[r] - 1);
  }

  lemma RanksCommute(P: seq<Program>, st: State, q: nat, r: nat)
    requires Shaped(P, st) && q != r && CanStep(P, st, q) && CanStep(P, st, r)
    requires CanStep(P, Step(P, st, q), r) && CanStep(P, Step(P, st, r), q)
    ensures var x, y := Step(P, Step(P, st, q), r), Step(P, Step(P, st, r), q);
      x.pc == y.pc && x.inbox == y.inbox && x.refused == y.refused
  {
    var x, y := Step(P, st, q), Step(P, st, r);
    StepElsewhere(P, st, q, r);
    StepElsewhere(P, st, r, q);
    hide Step, CanStep, Addressed;
    StepIsLocal(P, st, x, r);
    StepIsLocal(P, st, y, q);
  }

  lemma ChannelsCommute(P: seq<Program>, st: State, q: nat, r: nat)
    requires Shaped(P, st) && q != r && CanStep(P, st, q) && CanStep(P, st, r)
    requires CanStep(P, Step(P, st, q), r) && CanStep(P, Step(P, st, r), q)
    ensures Step(P, Step(P, st, q), r).chan == Step(P, Step(P, st, r), q).chan
  {
    var x, y := Step(P, Step(P, st, q), r), Step(P, Step(P, st, r), q);
    hide Suits;
    forall k | k in x.chan ensures x.chan[k] == y.chan[k] {
    }
  }

  /** Steps of two different ranks commute, and neither disables the other. */
  lemma Diamond(P: seq<Program>, st: State, q: nat, r: nat)
    requires Shaped(P, st) && q != r && CanStep(P, st, q) && CanStep(P, st, r)
    ensures CanStep(P, Step(P, st, q), r) && CanStep(P, Step(P, st, r), q)
    ensures Step(P, Step(P, st, q), r) == Step(P, Step(P, st, r), q)
  {
    StepElsewhere(P, st, q, r);
    StepElsewhere(P, st, r, q);
    hide Step, CanStep, Shaped;
    RanksCommute(P, st, q, r);
    ChannelsCommute(P, st, q, r);
  }

  /** One step of r and a run of all ranks from the same state: each can be continued to a common
      state, and the run needs at most the step itself. */
  lemma {:induction false} Strip(P: seq<Program>, st: State, r: nat, b: seq<nat>, fin: State)
    returns (c: seq<nat>, d: seq<nat>, join: State)
    requires Shaped(P, st) && CanStep(P, st, r) && Runs(P, st, b, fin)
    ensures Shaped(P, fin) && Runs(P, Step(P, st, r), c, join) && Runs(P, fin, d, join)
    ensures (d == [] || d == [r]) && 1 + |c| == |b| + |d|
    decreases |b|
  {
    if b == [] {
      c, d, join := [], [r], Step(P, st, r);
      assert d[1..] == [];
    } else if b[0] == r {
      c, d, join := b[1..], [], fin;
      RunsKeepsShape(P, st, b, fin);
    } else {
      var q := b[0];
      Diamond(P, st, q, r);
      var later;
      later, d, join := Strip(P, Step(P, st, q), r, b[1..], fin);
      c := [q] + later;
      assert c[1..] == later;
    }
  }

  /** Any two runs from the same state can be continued to a common state. */
  lemma {:induction false} Join(P: seq<Program>, st: State, a: seq<nat>, x: State, b: seq<nat>, y: State)
    returns (c: seq<nat>, d: seq<nat>, join: State)
    requires Shaped(P, st) && Runs(P, st, a, x) && Runs(P, st, b, y)
    ensures Shaped(P, x) && Shaped(P, y) && Runs(P, x, c, join) && Runs(P, y, d, join)
    ensures |a| + |c| == |b| + |d|
    decreases |a|
  {
    hide Step, CanStep, Shaped;
    if a == [] {
      c, d, join := b, [], y;
      RunsKeepsShape(P, st, b, y);
    } else {
      var next := Step(P, st, a[0]);
      var c0, d0, mid := Strip(P, st, a[0], b, y);
      var d1;
      c, d1, join := Join(P, next, a[1..], x, c0, mid);
      RunsConcat(P, y, d0, mid, d1, join);
      d := d0 + d1;
    }
  }

  /** A finished state has nowhere left to go. */
  lemma FinishedIsFinal(P: seq<Program>, st: State, schedule: seq<nat>, fin: State)
    requires Shaped(P, st) && Finished(P, st) && Runs(P, st, schedule, fin)
    ensures schedule == [] && st == fin
  {
  }

  /** If one schedule completes, then every schedule can be completed, in the same number of
      steps and with the same result. */
  lemma EveryScheduleCompletes(P: seq<Program>, st: State, full: seq<nat>, fin: State, part: seq<nat>, mid: State)
    returns (rest: seq<nat>)
    requires Shaped(P, st) && Runs(P, st, full, fin) && Finished(P, fin)
    requires Runs(P, st, part, mid)
    ensures Shaped(P, mid) && Runs(P, mid, rest, fin) && |part| + |rest| == |full|
  {
    hide Step, CanStep, Shaped;
    var d, join;
    rest, d, join := Join(P, st, part, mid, full, fin);
    FinishedIsFinal(P, fin, d, join);
  }

  lemma {:induction false} InboxGrows(P: seq<Program>, st: State, schedule: seq<nat>, fin: State, r: nat)
    requires Shaped(P, st) && Runs(P, st, schedule, fin) && r < |P|
    ensures |fin.inbox| == |P| && st.inbox[r] <= fin.inbox[r]
    decreases |schedule|
  {
    if schedule != [] {
      InboxGrows(P, Step(P, st, schedule[0]), schedule[1..], fin, r);
    }
  }

  lemma {:induction false} StepsGrow(P: seq<Program>, st: State, schedule: seq<nat>, fin: State, r: nat)
    requires Shaped(P, st) && Runs(P, st, schedule, fin) && r < |P|
    ensures |fin.pc| == |P| && st.pc[r] <= fin.pc[r]
    decreases |schedule|
  {
    if schedule != [] {
      StepsGrow(P, Step(P, st, schedule[0]), schedule[1..], fin, r);
    }
  }

  lemma {:induction false} RefusalsGrow(P: seq<Program>, st: State, schedule: seq<nat>, fin: State)
    requires Shaped(P, st) && Runs(P, st, schedule, fin)
    ensures st.refused <= fin.refused
    decreases |schedule|
  {
    if schedule != [] {
      RefusalsGrow(P, Step(P, st, schedule[0]), schedule[1..], fin);
    }
  }

  // ---------------------------------------------------------------- programs with a complete run

  ghost function NoMessages(n: nat): (c: map<(nat, nat), seq<Message>>)
    ensures forall s: nat, d: nat | s < n && d < n :: (s, d) in c && c[(s, d)] == []
  {
    map s: nat, d: nat | s < n && d < n :: (s, d) := []
  }

  ghost function Start(P: seq<Program>, X: seq<History>): (st: State)
    ensures st.inbox == X && st.refused == 0 && (Addressed(P) && |X| == |P| ==> Shaped(P, st))
  {
    State(seq(|P|, _ => 0), X, NoMessages(|P|), 0)
  }

  ghost function Done(P: seq<Program>, Y: seq<History>): (st: State)
    ensures st.inbox == Y && st.refused == 0 && Finished(P, st) && (Addressed(P) && |Y| == |P| ==> Shaped(P, st))
  {
    State(seq(|P|, r requires 0 <= r < |P| => |P[r]|), Y, NoMessages(|P|), 0)
  }

  /** Some schedule takes the ranks from inboxes X to inboxes Y, with nothing left in a channel and
      no message refused. */
  ghost predicate Realises(P: seq<Program>, X: seq<History>, Y: seq<History>) {
    && Addressed(P) && |X| == |Y| == |P|
    && exists schedule :: Runs(P, Start(P, X), schedule, Done(P, Y))
  }

  /** The guarantee for a reachable state: it is never stuck, no message has been refused, everything
      received so far is what the one-at-a-time run receives, and when all ranks have finished the
      result is Y. */
  ghost predicate OnTrack(P: seq<Program>, Y: seq<History>, st: State)
    requires Shaped(P, st)
  {
    && |Y| == |P| && st.refused == 0
    && (Finished(P, st) ==> st == Done(P, Y))
    && (!Finished(P, st) ==> exists r :: CanStep(P, st, r))
    && (forall r | 0 <= r < |P| :: st.inbox[r] <= Y[r])
  }

  /** Some interleaving of the ranks, started from inboxes X, leads to `st`. */
  ghost predicate Reachable(P: seq<Program>, X: seq<History>, st: State) {
    && Addressed(P) && |X| == |P| && Shaped(P, st)
    && exists schedule :: Runs(P, Start(P, X), schedule, st)
  }

  lemma EveryInterleaving(P: seq<Program>, X: seq<History>, Y: seq<History>, st: State)
    requires Realises(P, X, Y) && Reachable(P, X, st)
    ensures OnTrack(P, Y, st)
    ensures exists rest :: Runs(P, st, rest, Done(P, Y))
  {
    hide Step, Done, Start, CanStep, Addressed;
    var schedule :| Runs(P, Start(P, X), schedule, st);
    var full :| Runs(P, Start(P, X), full, Done(P, Y));
    var rest := EveryScheduleCompletes(P, Start(P, X), full, Done(P, Y), schedule, st);
    CompletableIsOnTrack(P, Y, st, rest);
  }

  lemma CompletableIsOnTrack(P: seq<Program>, Y: seq<History>, st: State, rest: seq<nat>)
    requires |Y| == |P| && Shaped(P, st) && Runs(P, st, rest, Done(P, Y))
    ensures OnTrack(P, Y, st)
  {
    hide Step, CanStep, Addressed;
    RefusalsGrow(P, st, rest, Done(P, Y));
    forall r: nat | r < |P| ensures st.inbox[r] <= Y[r] {
      InboxGrows(P, st, rest, Done(P, Y), r);
    }
    hide Done;
    if Finished(P, st) {
      FinishedIsFinal(P, st, rest, Done(P, Y));
    } else {
      assert rest != [];
      assert CanStep(P, st, rest[0]);
    }
  }

  /** All complete interleavings take the same number of steps: none can go on for ever. */
  lemma SameLength(P: seq<Program>, X: seq<History>, Y: seq<History>, a: seq<nat>, b: seq<nat>, st: State)
    requires Realises(P, X, Y)
    requires Runs(P, Start(P, X), a, Done(P, Y)) && Runs(P, Start(P, X), b, st)
    ensures |b| <= |a| && (|b| == |a| <==> Finished(P, st))
  {
    hide Step, Done, Start;
    var rest := EveryScheduleCompletes(P, Start(P, X), a, Done(P, Y), b, st);
    if Finished(P, st) {
      FinishedIsFinal(P, st, rest, Done(P, Y));
    }
  }

  // ---------------------------------------------------------------- one program after another

  ghost function Then(P: seq<Program>, Q: seq<Program>): (PQ: seq<Program>)
    requires |P| == |Q|
    ensures |PQ| == |P| && forall r | 0 <= r < |P| :: PQ[r] == P[r] + Q[r]
  {
    seq(|P|, r requires 0 <= r < |P| => P[r] + Q[r])
  }

  ghost function Shift(P: seq<Program>, st: State): (st': State)
    requires |st.pc| == |P|
    ensures |st'.pc| == |P| && forall r | 0 <= r < |P| :: st'.pc[r] == |P[r]| + st.pc[r]
  {
    st.(pc := seq(|P|, r requires 0 <= r < |P| => |P[r]| + st.pc[r]))
  }

  lemma FirstStep(P: seq<Program>, Q: seq<Program>, st: State, r: nat)
    requires |P| == |Q| && Addressed(Q) && Shaped(P, st) && CanStep(P, st, r)
    ensures Shaped(Then(P, Q), st) && CanStep(Then(P, Q), st, r) && Step(Then(P, Q), st, r) == Step(P, st, r)
  {
    ThenAddressed(P, Q);
    assert Then(P, Q)[r][st.pc[r]] == P[r][st.pc[r]];
    hide Suits;
  }

  lemma {:induction false} RunsFirst(P: seq<Program>, Q: seq<Program>, st: State, schedule: seq<nat>, fin: State)
    requires |P| == |Q| && Addressed(Q) && Shaped(P, st) && Runs(P, st, schedule, fin)
    ensures Shaped(Then(P, Q), st) && Runs(Then(P, Q), st, schedule, fin)
    decreases |schedule|
  {
    ThenAddressed(P, Q);
    assert Shaped(Then(P, Q), st);
    hide Step, CanStep, Shaped;
    if schedule != [] {
      FirstStep(P, Q, st, schedule[0]);
      RunsFirst(P, Q, Step(P, st, schedule[0]), schedule[1..], fin);
    }
  }

  lemma SecondStep(P: seq<Program>, Q: seq<Program>, st: State, r: nat)
    requires |P| == |Q| && Addressed(P) && Shaped(Q, st) && CanStep(Q, st, r)
    ensures Shaped(Then(P, Q), Shift(P, st)) && CanStep(Then(P, Q), Shift(P, st), r)
    ensures Step(Then(P, Q), Shift(P, st), r) == Shift(P, Step(Q, st, r))
  {
    var PQ := Then(P, Q);
    ThenAddressed(P, Q);
    assert PQ[r][Shift(P, st).pc[r]] == Q[r][st.pc[r]];
    hide Suits;
    assert Step(PQ, Shift(P, st), r).pc == Shift(P, Step(Q, st, r)).pc;
  }

  lemma {:induction false} RunsSecond(P: seq<Program>, Q: seq<Program>, st: State, schedule: seq<nat>, fin: State)
    requires |P| == |Q| && Addressed(P) && Shaped(Q, st) && Runs(Q, st, schedule, fin)
    ensures |fin.pc| == |P|
    ensures Shaped(Then(P, Q), Shift(P, st)) && Runs(Then(P, Q), Shift(P, st), schedule, Shift(P, fin))
    decreases |schedule|
  {
    ThenAddressed(P, Q);
    assert Shaped(Then(P, Q), Shift(P, st)) && |st.pc| == |P|;
    hide Step, CanStep, Shaped, Shift;
    if schedule != [] {
      SecondStep(P, Q, st, schedule[0]);
      RunsSecond(P, Q, Step(Q, st, schedule[0]), schedule[1..], fin);
    }
  }

  lemma ThenAddressed(P: seq<Program>, Q: seq<Program>)
    requires |P| == |Q| && Addressed(P) && Addressed(Q)
    ensures Addressed(Then(P, Q))
  {
    forall r, i | 0 <= r < |P| && 0 <= i < |P[r]| + |Q[r]|
      ensures OpOk((P[r] + Q[r])[i], |P|, |P[r]| + |Q[r]| - i - 1)
    {
      if i < |P[r]| {
        assert OpOk(P[r][i], |P|, |P[r]| - i - 1);
      } else {
        assert (P[r] + Q[r])[i] == Q[r][i - |P[r]|];
      }
    }
  }

  lemma ShiftedEnds(P: seq<Program>, Q: seq<Program>, X: seq<History>, Y: seq<History>, Z: seq<History>)
    requires |P| == |Q|
    ensures Start(Then(P, Q), X) == Start(P, X)
    ensures Shift(P, Start(Q, Y)) == Done(P, Y)
    ensures Shift(P, Done(Q, Z)) == Done(Then(P, Q), Z)
  {
    assert Shift(P, Start(Q, Y)).pc == Done(P, Y).pc;
    assert Shift(P, Done(Q, Z)).pc == Done(Then(P, Q), Z).pc;
  }

  /** Running one after the other is one complete run of the joined programs. */
  lemma Compose(P: seq<Program>, Q: seq<Program>, X: seq<History>, Y: seq<History>, Z: seq<History>)
    requires |P| == |Q| && Realises(P, X, Y) && Realises(Q, Y, Z)
    ensures Realises(Then(P, Q), X, Z)
  {
    hide Step, Start, Done, Shift, CanStep, Shaped, Runs, Addressed, Then;
    var PQ := Then(P, Q);
    ThenAddressed(P, Q);
    var a :| Runs(P, Start(P, X), a, Done(P, Y));
    var b :| Runs(Q, Start(Q, Y), b, Done(Q, Z));
    RunsFirst(P, Q, Start(P, X), a, Done(P, Y));
    RunsSecond(P, Q, Start(Q, Y), b, Done(Q, Z));
    ShiftedEnds(P, Q, X, Y, Z);
    RunsConcat(PQ, Start(P, X), a, Done(P, Y), b, Shift(P, Done(Q, Z)));
  }

  lemma FirstPartRuns(P: seq<Program>, Q: seq<Program>, X: seq<History>, Y: seq<History>) returns (full: seq<nat>)
    requires |P| == |Q| && Addressed(Q) && Realises(P, X, Y)
    ensures Addressed(Then(P, Q)) && Runs(Then(P, Q), Start(Then(P, Q), X), full, Done(P, Y))
  {
    hide Step, CanStep;
    ThenAddressed(P, Q);
    full :| Runs(P, Start(P, X), full, Done(P, Y));
    RunsFirst(P, Q, Start(P, X), full, Done(P, Y));
    ShiftedEnds(P, Q, X, Y, Y);
  }

  /** What the ranks receive in P is settled, whatever Q is and although ranks run ahead into Q, and
      nothing that happens in Q can keep a rank from coming through P. */
  lemma FirstPartIsSettled(P: seq<Program>, Q: seq<Program>, X: seq<History>, Y: seq<History>, st: State, r: nat)
    requires |P| == |Q| && Addressed(Q) && Realises(P, X, Y) && Reachable(Then(P, Q), X, st) && r < |P|
    ensures st.inbox[r] <= Y[r] || Y[r] <= st.inbox[r]
    ensures (forall q: nat | q < |P| :: !CanStep(Then(P, Q), st, q)) ==> Y[r] <= st.inbox[r] && |P[r]| <= st.pc[r]
  {
    var PQ := Then(P, Q);
    var mid := Done(P, Y);
    assert mid.pc[r] == |P[r]|;
    hide Step, Start, Done, Then;
    var full := FirstPartRuns(P, Q, X, Y);
    var part :| Runs(PQ, Start(PQ, X), part, st);
    var c, d, join := Join(PQ, Start(PQ, X), part, st, full, mid);
    InboxGrows(PQ, st, c, join, r);
    InboxGrows(PQ, mid, d, join, r);
    StepsGrow(PQ, mid, d, join, r);
    if forall q: nat | q < |P| :: !CanStep(PQ, st, q) {
      assert c == [];
    }
  }

  // ---------------------------------------------------------------- conservation of messages

  ghost function SentTo(p: Program, i: nat, d: nat): nat
    requires i <= |p|
  {
    if i == 0 then 0 else SentTo(p, i - 1, d) + if p[i - 1].Send? && p[i - 1].dst == d then 1 else 0
  }

  ghost function ReceivedFrom(p: Program, i: nat, s: nat): nat
    requires i <= |p|
  {
    if i == 0 then 0 else ReceivedFrom(p, i - 1, s) + if p[i - 1].Recv? && p[i - 1].src == s then 1 else 0
  }

  ghost predicate Conserved(P: seq<Program>, st: State)
    requires Shaped(P, st)
  {
    forall s: nat, d: nat | s < |P| && d < |P| ::
      SentTo(P[s], st.pc[s], d) == ReceivedFrom(P[d], st.pc[d], s) + |st.chan[(s, d)]|
  }

  lemma StepConserves(P: seq<Program>, st: State, r: nat)
    requires Shaped(P, st) && Conserved(P, st) && CanStep(P, st, r) && Step(P, st, r).refused == st.refused
    ensures Conserved(P, Step(P, st, r))
  {
    hide Suits, Addressed;
  }

  lemma {:induction false} RunConserves(P: seq<Program>, st: State, schedule: seq<nat>, fin: State)
    requires Shaped(P, st) && Conserved(P, st) && Runs(P, st, schedule, fin) && fin.refused == st.refused
    ensures Shaped(P, fin) && Conserved(P, fin)
    decreases |schedule|
  {
    if schedule != [] {
      RefusalsGrow(P, Step(P, st, schedule[0]), schedule[1..], fin);
      StepConserves(P, st, schedule[0]);
      RunConserves(P, Step(P, st, schedule[0]), schedule[1..], fin);
    }
  }

  lemma StartConserved(P: seq<Program>, X: seq<History>)
    requires Addressed(P) && |X| == |P|
    ensures Conserved(P, Start(P, X))
  {
  }

  /** On every channel, a program with a complete run sends exactly as much as it receives. */
  lemma RealisedIsBalanced(P: seq<Program>, X: seq<History>, Y: seq<History>, s: nat, d: nat)
    requires Realises(P, X, Y) && s < |P| && d < |P|
    ensures SentTo(P[s], |P[s]|, d) == ReceivedFrom(P[d], |P[d]|, s)
  {
    hide Step, Runs, CanStep;
    var schedule :| Runs(P, Start(P, X), schedule, Done(P, Y));
    StartConserved(P, X);
    RunConserves(P, Start(P, X), schedule, Done(P, Y));
    assert Done(P, Y).chan[(s, d)] == [] && Done(P, Y).pc[s] == |P[s]| && Done(P, Y).pc[d] == |P[d]|;
  }
}
