/**
  What a collective delivers, and what any sequence of collective calls does when all ranks make the
  same calls in the same order: it goes through in every interleaving exactly if each rank hands over
  as much as the other side is told to expect.
 */
module Jobs {
  import opened Sequences
  import opened Network
  import opened Phases
  import opened Offsets
  import opened Collectives

  // ---------------------------------------------------------------- what a phase delivers

  /** How many messages rank r has taken in during the collective when it comes to step k. */
  ghost function Earlier(c: Collective, n: nat, r: nat, k: nat): nat
    requires Valid(c, n) && r < n
  {
    match c
    case Ring(_, _) => RingEarlier(k)
    case FanOut(_, _) => 0
    case FanIn(root, _, _) => if r == root then k else 0
    case Turns(_, _) => if k < r then k else if k < r + n - 1 then r else k - n + 1
  }

  /** Every step hands over or insists on what its rank knew on entry. */
  lemma OpForm(c: Collective, n: nat, r: nat, k: nat)
    requires Valid(c, n) && r < n && k < |ProgramOf(c, n, r)|
    ensures var op, m := ProgramOf(c, n, r)[k], Earlier(c, n, r, k);
      && (op.Send? ==> op.payload == Give(c.pay, r, op.dst, m))
      && (op.Recv? ==> op.want == Insist(ToldIn(c), op.src, r, m))
  {
    hide Give, Insist;
  }

  /** From the m ranks to the left, in the order of the ring. */
  ghost function RingHeard(n: nat, r: nat, v: Values, m: nat): (h: History)
    requires r < n && m < n
    ensures |h| == m && forall j: nat | j < m :: h[j] == v(Left(n, r, j + 1), r)
  {
    seq(m, j requires 0 <= j < m => v(Left(n, r, j + 1), r))
  }

  /** From the first m of the other ranks. */
  ghost function OthersHeard(r: nat, v: Values, m: nat): (h: History)
    ensures |h| == m && forall j: nat | j < m :: h[j] == v(Skip(r, j), r)
  {
    seq(m, j requires 0 <= j < m => v(Skip(r, j), r))
  }

  /** The messages that rank r has taken in when it comes to step k of the collective. */
  ghost function Heard(c: Collective, n: nat, r: nat, v: Values, k: nat): (h: History)
    requires Valid(c, n) && r < n && k <= |ProgramOf(c, n, r)|
  {
    match c
    case Ring(_, _) => RingHeard(n, r, v, if k == 2 * n - 2 then n - 1 else RingEarlier(k))
    case FanOut(root, _) => if r == root || k == 0 then [] else [v(root, r)]
    case FanIn(root, _, _) => if r == root then OthersHeard(r, v, k) else []
    case Turns(_, _) => OthersHeard(r, v, Earlier(c, n, r, k))
  }

  lemma RingHeardStep(n: nat, r: nat, pay: Pay, told: Told, v: Values, k: nat)
    requires n >= 2 && r < n && k < 2 * n - 2
    ensures var c, op := Ring(pay, told), RingOp(n, r, pay, told, k);
      Heard(c, n, r, v, k + 1) == Heard(c, n, r, v, k) + if op.Recv? then [v(op.src, r)] else []
  {
    hide Give, Insist, OffsetRank;
  }

  lemma TurnsHeardStep(n: nat, r: nat, pay: Pay, told: Told, v: Values, k: nat)
    requires r < n && k < 2 * n - 2
    ensures var c, op := Turns(pay, told), TurnsOp(n, r, pay, told, k);
      Heard(c, n, r, v, k + 1) == Heard(c, n, r, v, k) + if op.Recv? then [v(op.src, r)] else []
  {
    hide Give, Insist;
  }

  lemma RootHeardStep(c: Collective, n: nat, r: nat, v: Values, k: nat)
    requires Valid(c, n) && r < n && k < |ProgramOf(c, n, r)| && (c.FanOut? || c.FanIn?)
    ensures var op := ProgramOf(c, n, r)[k];
      Heard(c, n, r, v, k + 1) == Heard(c, n, r, v, k) + if op.Recv? then [v(op.src, r)] else []
  {
    hide Give, Insist;
  }

  lemma HeardStep(c: Collective, n: nat, r: nat, v: Values, k: nat)
    requires Valid(c, n) && r < n && k < |ProgramOf(c, n, r)|
    ensures var op := ProgramOf(c, n, r)[k];
      Heard(c, n, r, v, k + 1) == Heard(c, n, r, v, k) + if op.Recv? then [v(op.src, r)] else []
  {
    hide Heard, FanOutProgram, FanInProgram, RingOp, TurnsOp;
    match c
    case Ring(pay, told) => RingHeardStep(n, r, pay, told, v, k);
    case Turns(pay, told) => TurnsHeardStep(n, r, pay, told, v, k);
    case _ => RootHeardStep(c, n, r, v, k);
  }

  lemma GotStep(p: Program, k: nat, r: nat, v: Values)
    requires k < |p|
    ensures Got(p, k + 1, r, v) == Got(p, k, r, v) + if p[k].Recv? then [v(p[k].src, r)] else []
  {
  }

  lemma NothingHeard(c: Collective, n: nat, r: nat, v: Values)
    requires Valid(c, n) && r < n
    ensures Heard(c, n, r, v, 0) == [] == Got(ProgramOf(c, n, r), 0, r, v)
  {
  }

  lemma {:induction false} GotIs(c: Collective, n: nat, r: nat, v: Values, k: nat)
    requires Valid(c, n) && r < n && k <= |ProgramOf(c, n, r)|
    ensures Got(ProgramOf(c, n, r), k, r, v) == Heard(c, n, r, v, k)
  {
    hide *;
    if k == 0 {
      NothingHeard(c, n, r, v);
    } else {
      GotIs(c, n, r, v, k - 1);
      GotStep(ProgramOf(c, n, r), k - 1, r, v);
      HeardStep(c, n, r, v, k - 1);
    }
  }

  lemma HeardEarlier(c: Collective, n: nat, r: nat, v: Values, k: nat)
    requires Valid(c, n) && r < n && k < |ProgramOf(c, n, r)|
    ensures |Heard(c, n, r, v, k)| == Earlier(c, n, r, k)
  {
    hide Give, Insist;
  }

  lemma HeardAtEnd(c: Collective, X: seq<History>, r: nat)
    requires Valid(c, |X|) && r < |X|
    ensures Heard(c, |X|, r, ValueOf(c, X), |ProgramOf(c, |X|, r)|) == Receives(c, X, r)
  {
    hide OffsetRank, Give, Insist;
  }

  lemma PhaseDelivers(c: Collective, X: seq<History>, r: nat)
    requires Valid(c, |X|) && r < |X|
    ensures var p := ProgramOf(c, |X|, r);
      Got(p, |p|, r, ValueOf(c, X)) == Receives(c, X, r)
  {
    GotIs(c, |X|, r, ValueOf(c, X), |ProgramOf(c, |X|, r)|);
    HeardAtEnd(c, X, r);
    hide *;
  }

  lemma EntryIs(x: History, got: History)
    ensures Entry(x + got, |got|) == x
  {
  }

  /** At every step the rank still knows what it knew on entry. */
  lemma KnowsEntry(c: Collective, X: seq<History>, r: nat, k: nat)
    requires Valid(c, |X|) && r < |X| && k < |ProgramOf(c, |X|, r)|
    ensures Entry(Before(ProgramsOf(c, |X|), X, ValueOf(c, X), r, k), Earlier(c, |X|, r, k)) == X[r]
  {
    GotIs(c, |X|, r, ValueOf(c, X), k);
    HeardEarlier(c, |X|, r, ValueOf(c, X), k);
    EntryIs(X[r], Heard(c, |X|, r, ValueOf(c, X), k));
    hide Got, Heard, Earlier, ValueOf, Entry, ProgramOf;
  }

  lemma PhaseCarries(c: Collective, X: seq<History>)
    requires Valid(c, |X|)
    ensures Carries(ProgramsOf(c, |X|), X, ValueOf(c, X))
  {
    var P: seq<Program> := ProgramsOf(c, |X|);
    hide ProgramOf, ProgramsOf, Before, Earlier, Entry, Addressed, LeavesAtOnce;
    forall s: nat, i: nat | s < |P| && i < |P[s]| && P[s][i].Send?
      ensures P[s][i].payload(Before(P, X, ValueOf(c, X), s, i)) == ValueOf(c, X)(s, P[s][i].dst)
    {
      OpForm(c, |X|, s, i);
      KnowsEntry(c, X, s, i);
    }
  }

  /** Whether a receive accepts its message is decided by the arguments of the two ranks. */
  lemma AcceptanceIs(c: Collective, X: seq<History>, r: nat, k: nat)
    requires Valid(c, |X|) && r < |X| && k < |ProgramOf(c, |X|, r)|
    ensures var op := ProgramOf(c, |X|, r)[k];
      Accepted(ProgramsOf(c, |X|), X, ValueOf(c, X), r, k) <==>
      (op.Recv? ==> op.src < |X| && Suits(ToldIn(c)(op.src, r, X[r]), c.pay(op.src, r, X[op.src])))
  {
    OpForm(c, |X|, r, k);
    OpsAreOk(c, |X|, r, k);
    KnowsEntry(c, X, r, k);
    hide ProgramOf, Before, Earlier, Entry, Addressed, LeavesAtOnce, Suits;
  }

  /** Two ranks talk if and only if the one has a receive for the other. */
  lemma TalksIs(c: Collective, n: nat, s: nat, d: nat)
    requires Valid(c, n) && s < n && d < n
    ensures Talks(c, n, s, d) <==> exists k: nat :: ReceivesAt(ProgramOf(c, n, d), k, s)
  {
    hide RingProgram, FanOutProgram, FanInProgram, TurnsProgram, ReceivesAt, SendsAt, OffsetRank, SkipIndex;
    var p := ProgramOf(c, n, d);
    forall k: nat ensures ReceivesAt(p, k, s) ==> Talks(c, n, s, d) {
      StepTalks(c, n, s, d, k);
    }
    if Talks(c, n, s, d) {
      var k := TalkStep(c, n, s, d);
    }
  }

  lemma StepTalks(c: Collective, n: nat, s: nat, d: nat, k: nat)
    requires Valid(c, n) && s < n && d < n
    ensures ReceivesAt(ProgramOf(c, n, d), k, s) ==> Talks(c, n, s, d)
  {
    hide RingProgram, FanOutProgram, FanInProgram, TurnsProgram, ReceivesAt, SendsAt, OffsetRank, SkipIndex;
    match c {
      case Ring(pay, told) => RingReceives(n, d, pay, told, k, s);
      case FanOut(root, pay) => FanOutSteps(n, root, d, pay, k, s);
      case FanIn(root, pay, told) => FanInSteps(n, root, d, pay, told, k, s);
      case Turns(pay, told) => TurnsSteps(n, d, pay, told, k, s);
    }
  }

  lemma TalkStep(c: Collective, n: nat, s: nat, d: nat) returns (k: nat)
    requires Valid(c, n) && Talks(c, n, s, d)
    ensures ReceivesAt(ProgramOf(c, n, d), k, s)
  {
    hide RingProgram, FanOutProgram, FanInProgram, TurnsProgram, ReceivesAt, SendsAt, OffsetRank, SkipIndex;
    match c {
      case Ring(pay, told) =>
        k := RingRecvIndex(n, Distance(n, s, d));
        RingReceives(n, d, pay, told, k, s);
      case FanOut(root, pay) =>
        k := 0;
        FanOutSteps(n, root, d, pay, k, s);
      case FanIn(root, pay, told) =>
        k := SkipIndex(root, s);
        FanInSteps(n, root, d, pay, told, k, s);
      case Turns(pay, told) =>
        k := TurnsRecvIndex(n, d, s);
        TurnsSteps(n, d, pay, told, k, s);
    }
  }

  lemma LengthsFitIs(c: Collective, X: seq<History>)
    requires Valid(c, |X|)
    ensures LengthsFit(c, X) <==> AllAccepted(ProgramsOf(c, |X|), X, ValueOf(c, X))
  {
    var P, v := ProgramsOf(c, |X|), ValueOf(c, X);
    assert forall r: nat | r < |X| :: P[r] == ProgramOf(c, |X|, r);
    hide ProgramOf, ProgramsOf, ValueOf, Accepted, Addressed, LeavesAtOnce, Suits, Talks;
    if LengthsFit(c, X) {
      forall r: nat, k: nat | r < |P| && k < |P[r]| ensures Accepted(P, X, v, r, k) {
        AcceptanceIs(c, X, r, k);
        OpsAreOk(c, |X|, r, k);
        if P[r][k].Recv? {
          assert ReceivesAt(P[r], k, P[r][k].src);
          TalksIs(c, |X|, P[r][k].src, r);
        }
      }
    }
    if AllAccepted(P, X, v) {
      forall s: nat, d: nat | Talks(c, |X|, s, d) ensures Suits(ToldIn(c)(s, d, X[d]), c.pay(s, d, X[s])) {
        assert s < |X| && d < |X| by { TalkersAreRanks(c, |X|, s, d); }
        var k := TalkStep(c, |X|, s, d);
        AcceptanceIs(c, X, d, k);
        assert Accepted(P, X, v, d, k);
      }
    }
  }

  lemma TalkersAreRanks(c: Collective, n: nat, s: nat, d: nat)
    requires Talks(c, n, s, d)
    ensures s < n && d < n && s != d
  {
  }

  /** A collective called by all ranks with lengths that fit completes and delivers its table. */
  lemma CollectiveRealises(c: Collective, X: seq<History>)
    requires Valid(c, |X|) && LengthsFit(c, X)
    ensures Realises(ProgramsOf(c, |X|), X, After(c, X))
  {
    var P := ProgramsOf(c, |X|);
    IsPattern(c, |X|);
    PhaseCarries(c, X);
    LengthsFitIs(c, X);
    hide Pattern, Carries, AllAccepted, Realises, LengthsFit, ProgramOf, Got, Receives;
    PhaseRealises(P, ClockOf(c, |X|), X, ValueOf(c, X));
    forall r: nat | r < |X| ensures Outcome(P, X, ValueOf(c, X))[r] == After(c, X)[r] {
      PhaseDelivers(c, X, r);
    }
    assert Outcome(P, X, ValueOf(c, X)) == After(c, X);
  }

  /** A collective whose lengths do not fit: no interleaving can avoid that a message is refused. */
  lemma CollectiveRefuses(c: Collective, X: seq<History>, st: State) returns (later: seq<nat>, fin: State)
    requires Valid(c, |X|) && !LengthsFit(c, X) && Reachable(ProgramsOf(c, |X|), X, st)
    ensures Runs(ProgramsOf(c, |X|), st, later, fin) && fin.refused > 0
  {
    IsPattern(c, |X|);
    PhaseCarries(c, X);
    LengthsFitIs(c, X);
    hide Pattern, Carries, AllAccepted, Reachable, Runs, LengthsFit, ProgramsOf;
    later, fin := PhaseRefuses(ProgramsOf(c, |X|), ClockOf(c, |X|), X, ValueOf(c, X), st);
  }

  // ---------------------------------------------------------------- any sequence of collectives

  ghost predicate AllValid(calls: seq<Collective>, n: nat) {
    forall i | 0 <= i < |calls| :: Valid(calls[i], n)
  }

  /** The code of each rank for the whole sequence of calls. */
  ghost function Job(calls: seq<Collective>, n: nat): (P: seq<Program>)
    requires AllValid(calls, n)
    ensures |P| == n && Addressed(P)
    decreases |calls|
  {
    if calls == [] then seq(n, _ => [])
    else
      var P, Q := ProgramsOf(calls[0], n), Job(calls[1..], n);
      ThenAddressed(P, Q);
      Then(P, Q)
  }

  /** What the ranks have received when the calls are run one at a time. */
  ghost function AfterAll(calls: seq<Collective>, X: seq<History>): (Y: seq<History>)
    requires AllValid(calls, |X|)
    ensures |Y| == |X|
    decreases |calls|
  {
    if calls == [] then X else AfterAll(calls[1..], After(calls[0], X))
  }

  /** Each call fits when it is its turn. */
  ghost predicate AllLengthsFit(calls: seq<Collective>, X: seq<History>)
    requires AllValid(calls, |X|)
    decreases |calls|
  {
    calls != [] ==> LengthsFit(calls[0], X) && AllLengthsFit(calls[1..], After(calls[0], X))
  }

  lemma NoCallsRealise(X: seq<History>)
    ensures Realises(Job([], |X|), X, X)
  {
    var P := Job([], |X|);
    assert Start(P, X).pc == Done(P, X).pc;
    assert Runs(P, Start(P, X), [], Done(P, X));
  }

  lemma {:induction false} JobRealises(calls: seq<Collective>, X: seq<History>)
    requires AllValid(calls, |X|) && AllLengthsFit(calls, X)
    ensures Realises(Job(calls, |X|), X, AfterAll(calls, X))
    decreases |calls|
  {
    hide Realises, After, ProgramsOf, LengthsFit;
    if calls == [] {
      NoCallsRealise(X);
    } else {
      CollectiveRealises(calls[0], X);
      JobRealises(calls[1..], After(calls[0], X));
      Compose(ProgramsOf(calls[0], |X|), Job(calls[1..], |X|), X, After(calls[0], X), AfterAll(calls, X));
    }
  }

  lemma RefusedFirst(P: seq<Program>, Q: seq<Program>, X: seq<History>, schedule: seq<nat>, fin: State)
    requires |P| == |Q| == |X| && Addressed(P) && Addressed(Q) && Runs(P, Start(P, X), schedule, fin)
    ensures Addressed(Then(P, Q)) && Runs(Then(P, Q), Start(Then(P, Q), X), schedule, fin)
  {
    RunsFirst(P, Q, Start(P, X), schedule, fin);
    ShiftedEnds(P, Q, X, X, X);
    ThenAddressed(P, Q);
    hide Addressed, Then, Runs;
  }

  lemma RefusedSecond(P: seq<Program>, Q: seq<Program>, X: seq<History>, Y: seq<History>, later: seq<nat>, fin: State)
    returns (schedule: seq<nat>, fin': State)
    requires |P| == |Q| && Addressed(Q) && Realises(P, X, Y) && Runs(Q, Start(Q, Y), later, fin)
    ensures Addressed(Then(P, Q)) && Runs(Then(P, Q), Start(Then(P, Q), X), schedule, fin') &&
            fin'.refused == fin.refused
  {
    hide Step, CanStep;
    var full := FirstPartRuns(P, Q, X, Y);
    RunsSecond(P, Q, Start(Q, Y), later, fin);
    ShiftedEnds(P, Q, X, Y, Y);
    schedule, fin' := full + later, Shift(P, fin);
    assert Shaped(Then(P, Q), Done(P, Y));
    hide Shaped, Runs, Then, Start, Done;
    RunsConcat(Then(P, Q), Start(Then(P, Q), X), full, Done(P, Y), later, fin');
  }

  lemma StartIsReachable(P: seq<Program>, X: seq<History>)
    requires Addressed(P) && |X| == |P|
    ensures Reachable(P, X, Start(P, X))
  {
    assert Runs(P, Start(P, X), [], Start(P, X));
  }

  /** If the lengths of some call do not fit, a message is refused in some run. */
  lemma {:induction false} JobCanRefuse(calls: seq<Collective>, X: seq<History>)
    returns (schedule: seq<nat>, fin: State)
    requires AllValid(calls, |X|) && !AllLengthsFit(calls, X)
    ensures Runs(Job(calls, |X|), Start(Job(calls, |X|), X), schedule, fin) && fin.refused > 0
    decreases |calls|
  {
    var P, Q := ProgramsOf(calls[0], |X|), Job(calls[1..], |X|);
    assert Job(calls, |X|) == Then(P, Q);
    hide Realises, After, ProgramsOf, LengthsFit, Then, Runs, Start, Addressed;
    if LengthsFit(calls[0], X) {
      CollectiveRealises(calls[0], X);
      var later, end := JobCanRefuse(calls[1..], After(calls[0], X));
      schedule, fin := RefusedSecond(P, Q, X, After(calls[0], X), later, end);
    } else {
      StartIsReachable(P, X);
      schedule, fin := CollectiveRefuses(calls[0], X, Start(P, X));
      RefusedFirst(P, Q, X, schedule, fin);
    }
  }

  /** Ranks that make the same collective calls in the same order, with lengths that fit, whatever
      the calls and however their steps interleave: no reachable state is stuck, no message is refused,
      every receive takes in exactly the message it would take in if the calls were run one at a
      time, and when all ranks have finished they have what that run gives them. */
  lemma CallsDoNotInterfere(calls: seq<Collective>, X: seq<History>, st: State)
    requires AllValid(calls, |X|) && AllLengthsFit(calls, X)
    requires Reachable(Job(calls, |X|), X, st)
    ensures OnTrack(Job(calls, |X|), AfterAll(calls, X), st)
  {
    JobRealises(calls, X);
    EveryInterleaving(Job(calls, |X|), X, AfterAll(calls, X), st);
  }

  /** The other way round: if one length in one call does not fit, every interleaving, however far it
      has come, can only be continued to a state in which some rank has refused a message. */
  lemma CallsThatDoNotFit(calls: seq<Collective>, X: seq<History>, st: State) returns (later: seq<nat>, fin: State)
    requires AllValid(calls, |X|) && !AllLengthsFit(calls, X)
    requires Reachable(Job(calls, |X|), X, st)
    ensures Runs(Job(calls, |X|), st, later, fin) && fin.refused > 0
  {
    var P := Job(calls, |X|);
    hide Job, AllLengthsFit, Start, Step, CanStep, Addressed;
    var bad, end := JobCanRefuse(calls, X);
    var part :| Runs(P, Start(P, X), part, st);
    var d;
    later, d, fin := Join(P, Start(P, X), part, st, bad, end);
    RefusalsGrow(P, end, d, fin);
  }

  // ---------------------------------------------------------------- one call among others

  lemma JobStep(calls: seq<Collective>, n: nat, r: nat)
    requires AllValid(calls, n) && r < n && calls != []
    ensures AllValid(calls[1..], n) && Job(calls, n)[r] == ProgramOf(calls[0], n, r) + Job(calls[1..], n)[r]
  {
  }

  lemma {:induction false} JobConcat(a: seq<Collective>, b: seq<Collective>, n: nat, r: nat)
    requires AllValid(a, n) && AllValid(b, n) && r < n
    ensures AllValid(a + b, n) && Job(a + b, n)[r] == Job(a, n)[r] + Job(b, n)[r]
    decreases |a|
  {
    if a == [] {
      assert a + b == b;
    } else {
      assert (a + b)[1..] == a[1..] + b && (a + b)[0] == a[0];
      assert AllValid(a + b, n) && AllValid(a[1..], n);
      JobStep(a, n, r);
      JobStep(a + b, n, r);
      hide *;
      JobConcat(a[1..], b, n, r);
      Associative(ProgramOf(a[0], n, r), Job(a[1..], n)[r], Job(b, n)[r]);
    }
  }

  lemma JobIsThen(a: seq<Collective>, b: seq<Collective>, n: nat)
    requires AllValid(a, n) && AllValid(b, n)
    ensures AllValid(a + b, n) && Job(a + b, n) == Then(Job(a, n), Job(b, n))
  {
    hide Job, Valid, Addressed;
    forall r: nat | r < n ensures Job(a + b, n)[r] == Then(Job(a, n), Job(b, n))[r] {
      JobConcat(a, b, n, r);
    }
  }

  lemma {:induction false} AfterAllConcat(a: seq<Collective>, b: seq<Collective>, X: seq<History>)
    requires AllValid(a, |X|) && AllValid(b, |X|)
    ensures AllValid(a + b, |X|) && AfterAll(a + b, X) == AfterAll(b, AfterAll(a, X))
    ensures AllLengthsFit(a + b, X) <==> AllLengthsFit(a, X) && AllLengthsFit(b, AfterAll(a, X))
    decreases |a|
  {
    if a == [] {
      assert a + b == b;
    } else {
      assert (a + b)[1..] == a[1..] + b && (a + b)[0] == a[0];
      hide After, LengthsFit;
      AfterAllConcat(a[1..], b, After(a[0], X));
    }
  }

  lemma {:induction false} AfterAllExtends(calls: seq<Collective>, X: seq<History>, r: nat)
    requires AllValid(calls, |X|) && r < |X|
    ensures X[r] <= AfterAll(calls, X)[r]
    decreases |calls|
  {
    if calls != [] {
      AfterAllExtends(calls[1..], After(calls[0], X), r);
    }
  }

  lemma AfterOne(c: Collective, X: seq<History>)
    requires Valid(c, |X|)
    ensures AllValid([c], |X|) && AfterAll([c], X) == After(c, X) && (AllLengthsFit([c], X) <==> LengthsFit(c, X))
  {
    assert [c][1..] == [];
    hide LengthsFit, After;
    assert AllLengthsFit([c][1..], After(c, X));
  }

  /** A moment in an interleaving: the ranks, which had received X, make the calls `prior`, then
      `calls`, then `later`, and have come to state st. */
  datatype Moment = Moment(X: seq<History>, prior: seq<Collective>, calls: seq<Collective>, later: seq<Collective>,
                           st: State)

  /** The lengths of the calls fit, up to and including `calls`; what comes later may be anything. */
  ghost predicate Occurs(w: Moment) {
    && AllValid(w.prior, |w.X|) && AllValid(w.calls, |w.X|) && AllValid(w.later, |w.X|)
    && AllValid(w.prior + w.calls, |w.X|) && AllValid(w.prior + w.calls + w.later, |w.X|)
    && AllLengthsFit(w.prior + w.calls, w.X)
    && Reachable(Job(w.prior + w.calls + w.later, |w.X|), w.X, w.st)
  }

  /** What the ranks have received before they enter `calls`. */
  ghost function Entering(w: Moment): (Y: seq<History>)
    requires AllValid(w.prior, |w.X|)
    ensures |Y| == |w.X|
  {
    AfterAll(w.prior, w.X)
  }

  ghost function Leaving(w: Moment): (Y: seq<History>)
    requires AllValid(w.prior, |w.X|) && AllValid(w.calls, |w.X|)
    ensures |Y| == |w.X|
  {
    AfterAll(w.calls, Entering(w))
  }

  /** Rank r has taken in the messages `got` by its `calls`: those that follow, in its inbox, the ones
      it had when it entered them; and they are as many as the calls bring. */
  ghost predicate TookIn(w: Moment, r: nat, got: History) {
    && Occurs(w) && r < |w.X| == |w.st.inbox|
    && var enter, leave := |Entering(w)[r]|, |Leaving(w)[r]|;
    enter <= leave <= |w.st.inbox[r]| && got == w.st.inbox[r][enter..leave]
  }

  lemma InboxIsSettled(w: Moment, r: nat)
    requires Occurs(w) && r < |w.X|
    ensures |w.st.inbox| == |w.X|
    ensures w.st.inbox[r] <= Leaving(w)[r] || Leaving(w)[r] <= w.st.inbox[r]
    ensures var P := Job(w.prior + w.calls + w.later, |w.X|);
      (forall q: nat | q < |w.X| :: !CanStep(P, w.st, q)) ==> Leaving(w)[r] <= w.st.inbox[r]
  {
    JobRealises(w.prior + w.calls, w.X);
    JobIsThen(w.prior + w.calls, w.later, |w.X|);
    AfterAllConcat(w.prior, w.calls, w.X);
    hide Job, AllValid, AllLengthsFit, AfterAll, Realises, Then, CanStep;
    FirstPartIsSettled(Job(w.prior + w.calls, |w.X|), Job(w.later, |w.X|), w.X, Leaving(w), w.st, r);
  }

  /** In every interleaving, whatever came before and comes after, the messages a rank takes in by
      these calls are those of these calls, in their order. */
  lemma EachCallGetsItsOwn(w: Moment, r: nat, got: History)
    requires TookIn(w, r, got)
    ensures Entering(w)[r] <= Leaving(w)[r] && got == Leaving(w)[r][|Entering(w)[r]|..]
  {
    InboxIsSettled(w, r);
    AfterAllExtends(w.calls, Entering(w), r);
    SettledPart(w.st.inbox[r], Entering(w)[r], Leaving(w)[r]);
    hide *;
  }

  lemma SettledPart(inbox: History, enter: History, leave: History)
    requires (inbox <= leave || leave <= inbox) && enter <= leave && |leave| <= |inbox|
    ensures inbox[|enter|..|leave|] == leave[|enter|..]
  {
  }

  lemma OneCallGetsItsOwn(w: Moment, c: Collective, r: nat, got: History)
    requires TookIn(w, r, got) && w.calls == [c]
    ensures Valid(c, |w.X|) && LengthsFit(c, Entering(w)) && got == Receives(c, Entering(w), r)
  {
    EachCallGetsItsOwn(w, r, got);
    assert w.calls[0] == c;
    AfterOne(c, Entering(w));
    AfterAllConcat(w.prior, w.calls, w.X);
    hide Occurs, AfterAll, Receives, LengthsFit, AllLengthsFit;
  }

  /** When no rank can step any more, every rank has taken in what the calls bring. */
  lemma EveryoneTakesIn(w: Moment, r: nat)
    requires Occurs(w) && r < |w.X|
    requires var P := Job(w.prior + w.calls + w.later, |w.X|); forall q: nat | q < |w.X| :: !CanStep(P, w.st, q)
    ensures TookIn(w, r, Bringing(w, r))
  {
    InboxIsSettled(w, r);
    AfterAllExtends(w.calls, Entering(w), r);
    SettledPart(w.st.inbox[r], Entering(w)[r], Leaving(w)[r]);
    hide Occurs, CanStep, Job, Entering, Leaving;
  }

  ghost function Bringing(w: Moment, r: nat): History
    requires AllValid(w.prior, |w.X|) && AllValid(w.calls, |w.X|) && r < |w.X|
  {
    var Y, Z := Entering(w)[r], Leaving(w)[r];
    if |Y| <= |Z| then Z[|Y|..] else []
  }
}
