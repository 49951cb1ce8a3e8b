/**
  The message patterns of the collectives and what any sequence of them delivers.

  Every collective of the library is one of four patterns or a short list of them: the staggered
  ring (Allgather_exp, Allgatherv_exp, Alltoall), one root sending to all others (Bcast, Scatter),
  all others sending to one root (Gather, Reduce), and every rank sending to all others in turn
  (Allgather).
 */
module Collectives {
  import opened Wrappers
  import opened Network
  import opened Phases
  import opened Offsets

  /** `pay(s, d, h)` is what rank s hands over for rank d when it enters the collective having
      received h before; arguments may thus depend on the results of earlier collectives. */
  type Pay = (nat, nat, History) -> Message

  /** `told(s, d, h)` is the length that rank d, having received h before, insists on for what comes
      from rank s.  A rank that is sent to by a root has nothing left to do when it has its message,
      whatever its length, so nothing is told to it here. */
  type Told = (nat, nat, History) -> Option<int>

  datatype Collective =
    | Ring(pay: Pay, told: Told)
    | FanOut(root: nat, pay: Pay)
    | FanIn(root: nat, pay: Pay, told: Told)
    | Turns(pay: Pay, told: Told)

  ghost predicate Valid(c: Collective, n: nat) {
    match c
    case Ring(_, _) => n >= 2
    case FanOut(root, _) => root < n
    case FanIn(root, _, _) => root < n
    case Turns(_, _) => n > 0
  }

  /** A collective that looks at no message's length. */
  ghost function Unchecked(): Told {
    (s: nat, d: nat, h: History) => None
  }

  ghost function ToldIn(c: Collective): Told {
    if c.FanOut? then Unchecked() else c.told
  }

  /** What a rank had received when it entered the call, in which it has received m messages since. */
  ghost function Entry(h: History, m: nat): History {
    if m <= |h| then h[..|h| - m] else h
  }

  ghost function Give(pay: Pay, s: nat, d: nat, m: nat): History -> Message {
    (h: History) => pay(s, d, Entry(h, m))
  }

  ghost function Insist(told: Told, s: nat, d: nat, m: nat): History -> Option<int> {
    (h: History) => told(s, d, Entry(h, m))
  }

  // ---------------------------------------------------------------- the four patterns

  /** How many messages have been taken in on the ring before step k. */
  ghost function RingEarlier(k: nat): nat {
    if k == 0 then 0 else (k - 1) / 2
  }

  /** Send 1, then send i and receive i - 1 for i = 2 .. n - 1, then receive n - 1. */
  ghost function RingProgram(n: nat, r: nat, pay: Pay, told: Told): (p: Program)
    requires n >= 2 && r < n
    ensures |p| == 2 * n - 2
  {
    seq(2 * n - 2, k requires 0 <= k < 2 * n - 2 => RingOp(n, r, pay, told, k))
  }

  ghost function RingOp(n: nat, r: nat, pay: Pay, told: Told, k: nat): Op
    requires n >= 2 && r < n && k < 2 * n - 2
  {
    var m := RingEarlier(k);
    if k == 0 then Send(Right(n, r, 1), Give(pay, r, Right(n, r, 1), m))
    else if k == 2 * n - 3 then Recv(Left(n, r, n - 1), Insist(told, Left(n, r, n - 1), r, m), 0)
    else if k % 2 == 1 then var d := Right(n, r, (k + 3) / 2); Send(d, Give(pay, r, d, m))
    else var s := Left(n, r, k / 2); Recv(s, Insist(told, s, r, m), 2 * n - 3 - k)
  }

  ghost function FanOutProgram(n: nat, root: nat, r: nat, pay: Pay): (p: Program)
    requires root < n && r < n
    ensures |p| == if r == root then n - 1 else 1
  {
    if r == root then
      seq(n - 1, k requires 0 <= k < n - 1 => Send(Skip(root, k), Give(pay, r, Skip(root, k), 0)))
    else [Recv(root, Insist(Unchecked(), root, r, 0), 0)]
  }

  ghost function FanInProgram(n: nat, root: nat, r: nat, pay: Pay, told: Told): (p: Program)
    requires root < n && r < n
    ensures |p| == if r == root then n - 1 else 1
  {
    if r == root then
      seq(n - 1, k requires 0 <= k < n - 1 => Recv(Skip(root, k), Insist(told, Skip(root, k), r, k), n - 2 - k))
    else [Send(root, Give(pay, r, root, 0))]
  }

  /** The turns of the ranks below r, its own turn, the turns of the ranks above. */
  ghost function TurnsOp(n: nat, r: nat, pay: Pay, told: Told, k: nat): Op
    requires r < n && k < 2 * n - 2
  {
    if k < r then Recv(k, Insist(told, k, r, k), 2 * n - 3 - k)
    else if k < r + n - 1 then Send(Skip(r, k - r), Give(pay, r, Skip(r, k - r), r))
    else Recv(k - n + 2, Insist(told, k - n + 2, r, k - n + 1), 2 * n - 3 - k)
  }

  ghost function TurnsProgram(n: nat, r: nat, pay: Pay, told: Told): (p: Program)
    requires r < n
    ensures |p| == 2 * n - 2
  {
    seq(2 * n - 2, k requires 0 <= k < 2 * n - 2 => TurnsOp(n, r, pay, told, k))
  }

  ghost function ProgramOf(c: Collective, n: nat, r: nat): Program
    requires Valid(c, n) && r < n
  {
    match c
    case Ring(pay, told) => RingProgram(n, r, pay, told)
    case FanOut(root, pay) => FanOutProgram(n, root, r, pay)
    case FanIn(root, pay, told) => FanInProgram(n, root, r, pay, told)
    case Turns(pay, told) => TurnsProgram(n, r, pay, told)
  }

  lemma OpsAreOk(c: Collective, n: nat, r: nat, i: nat)
    requires Valid(c, n) && r < n && i < |ProgramOf(c, n, r)|
    ensures OpOk(ProgramOf(c, n, r)[i], n, |ProgramOf(c, n, r)| - i - 1)
    ensures ProgramOf(c, n, r)[i].Recv? ==> ProgramOf(c, n, r)[i].rest == |ProgramOf(c, n, r)| - i - 1
  {
    hide Give, Insist;
  }

  ghost function ProgramsOf(c: Collective, n: nat): (P: seq<Program>)
    requires Valid(c, n)
    ensures |P| == n && forall r: nat | r < n :: P[r] == ProgramOf(c, n, r)
    ensures Addressed(P) && LeavesAtOnce(P)
  {
    var P := seq(n, r requires 0 <= r < n => ProgramOf(c, n, r));
    assert Addressed(P) && LeavesAtOnce(P) by {
      forall r: nat, i: nat | r < n && i < |P[r]|
        ensures OpOk(P[r][i], n, |P[r]| - i - 1) && (P[r][i].Recv? ==> P[r][i].rest == |P[r]| - i - 1)
      {
        OpsAreOk(c, n, r, i);
      }
    }
    P
  }

  /** What rank r receives in the collective, in order, when rank s enters it with history X[s]. */
  ghost function Receives(c: Collective, X: seq<History>, r: nat): (h: History)
    requires Valid(c, |X|) && r < |X|
    ensures |h| == ReceiveCount(c, |X|, r)
  {
    var n := |X|;
    match c
    case Ring(pay, _) => seq(n - 1, j requires 0 <= j < n - 1 =>
                             var s := Left(n, r, j + 1); pay(s, r, X[s]))
    case FanOut(root, pay) => if r == root then [] else [pay(root, r, X[root])]
    case FanIn(root, pay, _) => if r == root then seq(n - 1, k requires 0 <= k < n - 1 =>
                                                      pay(Skip(root, k), root, X[Skip(root, k)]))
                                else []
    case Turns(pay, _) => seq(n - 1, k requires 0 <= k < n - 1 => pay(Skip(r, k), r, X[Skip(r, k)]))
  }

  ghost function ReceiveCount(c: Collective, n: nat, r: nat): nat
    requires Valid(c, n) && r < n
  {
    match c
    case Ring(_, _) => n - 1
    case FanOut(root, _) => if r == root then 0 else 1
    case FanIn(root, _, _) => if r == root then n - 1 else 0
    case Turns(_, _) => n - 1
  }

  ghost function After(c: Collective, X: seq<History>): (Y: seq<History>)
    requires Valid(c, |X|)
    ensures |Y| == |X| && forall r: nat | r < |X| :: Y[r] == X[r] + Receives(c, X, r)
  {
    seq(|X|, r requires 0 <= r < |X| => X[r] + Receives(c, X, r))
  }

  ghost function ValueOf(c: Collective, X: seq<History>): Values {
    (s: nat, d: nat) => if s < |X| then c.pay(s, d, X[s]) else []
  }

  /** Rank s sends a message to rank d in the collective. */
  ghost predicate Talks(c: Collective, n: nat, s: nat, d: nat) {
    && s < n && d < n && s != d
    && match c
       case Ring(_, _) => true
       case FanOut(root, _) => s == root
       case FanIn(root, _, _) => d == root
       case Turns(_, _) => true
  }

  /** What can be looked up in the arguments of the call: each rank hands over as much as the other
      side is told to expect. */
  ghost predicate LengthsFit(c: Collective, X: seq<History>) {
    forall s: nat, d: nat | Talks(c, |X|, s, d) :: Suits(ToldIn(c)(s, d, X[d]), c.pay(s, d, X[s]))
  }

  // ---------------------------------------------------------------- each pattern is a clocked phase

  ghost function TurnTime(n: nat, q: nat): nat { 2 * n * q }

  lemma TurnTimes(n: nat, p: nat, q: nat)
    requires p < q
    ensures TurnTime(n, p) + 2 * n <= TurnTime(n, q)
  {
    assert 2 * n * (p + 1) <= 2 * n * q;
  }

  ghost function TurnClock(n: nat, r: nat, k: nat): nat {
    if k < r then TurnTime(n, k) + n
    else if k < r + n - 1 then TurnTime(n, r) + k - r
    else TurnTime(n, k + 2 - n) + n
  }

  ghost function ClockOf(c: Collective, n: nat): Clock {
    match c
    case Ring(_, _) => (r: nat, k: nat) => k
    case FanOut(root, _) => (r: nat, k: nat) => if r == root then k else n + k
    case FanIn(root, _, _) => (r: nat, k: nat) => if r == root then k + 1 else k
    case Turns(_, _) => (r: nat, k: nat) => TurnClock(n, r, k)
  }

  ghost function RingSendIndex(i: nat): nat { if i <= 1 then 0 else 2 * i - 3 }

  ghost function RingRecvIndex(n: nat, i: nat): nat
    requires n >= 2
  {
    if i == n - 1 then 2 * n - 3 else 2 * i
  }

  lemma RingSends(n: nat, r: nat, pay: Pay, told: Told, k: nat, q: nat)
    requires n >= 2 && r < n && q < n
    ensures SendsAt(RingProgram(n, r, pay, told), k, q) <==> q != r && k == RingSendIndex(Distance(n, r, q))
  {
    hide Give, Insist;
    var p := RingProgram(n, r, pay, told);
    if k < 2 * n - 2 {
      assert p[k] == RingOp(n, r, pay, told, k);
    }
    if q != r {
      var i := Distance(n, r, q);
      assert p[RingSendIndex(i)] == RingOp(n, r, pay, told, RingSendIndex(i));
    }
  }

  lemma RingReceives(n: nat, r: nat, pay: Pay, told: Told, k: nat, q: nat)
    requires n >= 2 && r < n && q < n
    ensures ReceivesAt(RingProgram(n, r, pay, told), k, q) <==> q != r && k == RingRecvIndex(n, Distance(n, q, r))
  {
    hide Give, Insist;
    var p := RingProgram(n, r, pay, told);
    if k < 2 * n - 2 {
      assert p[k] == RingOp(n, r, pay, told, k);
    }
    if q != r {
      var j := Distance(n, q, r);
      assert p[RingRecvIndex(n, j)] == RingOp(n, r, pay, told, RingRecvIndex(n, j));
    }
  }

  lemma AddressedSends(P: seq<Program>)
    requires Addressed(P)
    ensures forall r: nat, k: nat, d: nat | r < |P| && SendsAt(P[r], k, d) :: d < |P|
    ensures forall r: nat, k: nat, s: nat | r < |P| && ReceivesAt(P[r], k, s) :: s < |P|
  {
    forall r: nat, k: nat | r < |P| && k < |P[r]| ensures OpOk(P[r][k], |P|, |P[r]| - k - 1) {
    }
  }

  lemma RingUsedOnce(n: nat, pay: Pay, told: Told, P: seq<Program>)
    requires n >= 2 && P == ProgramsOf(Ring(pay, told), n)
    ensures UsedOnce(P)
  {
    AddressedSends(P);
    assert forall r: nat | r < n :: P[r] == RingProgram(n, r, pay, told);
    hide ProgramsOf, RingProgram, Addressed, SendsAt, ReceivesAt, OffsetRank, LeavesAtOnce;
    forall r: nat, k: nat, q: nat | r < n && SendsAt(P[r], k, q)
      ensures q < n && k == RingSendIndex(Distance(n, r, q)) {
      RingSends(n, r, pay, told, k, q);
    }
    forall r: nat, k: nat, q: nat | r < n && ReceivesAt(P[r], k, q)
      ensures q < n && k == RingRecvIndex(n, Distance(n, q, r))
    {
      RingReceives(n, r, pay, told, k, q);
    }
  }

  /** The receive of d from s and the send it waits for. */
  lemma RingMatches(n: nat, pay: Pay, told: Told, s: nat, d: nat, k: nat)
    requires n >= 2 && s < n && d < n
    ensures ReceivesAt(RingProgram(n, d, pay, told), k, s) ==>
      var i := RingSendIndex(Distance(n, s, d)); SendsAt(RingProgram(n, s, pay, told), i, d) && i < k
    ensures SendsAt(RingProgram(n, s, pay, told), k, d) ==>
      ReceivesAt(RingProgram(n, d, pay, told), RingRecvIndex(n, Distance(n, s, d)), s)
  {
    RingSends(n, s, pay, told, k, d);
    RingSends(n, s, pay, told, RingSendIndex(Distance(n, s, d)), d);
    RingReceives(n, d, pay, told, k, s);
    RingReceives(n, d, pay, told, RingRecvIndex(n, Distance(n, s, d)), s);
    hide RingProgram, SendsAt, ReceivesAt;
  }

  lemma RingPattern(n: nat, pay: Pay, told: Told, P: seq<Program>)
    requires n >= 2 && P == ProgramsOf(Ring(pay, told), n)
    ensures Pattern(P, ClockOf(Ring(pay, told), n))
  {
    RingUsedOnce(n, pay, told, P);
    assert forall r: nat | r < n :: P[r] == RingProgram(n, r, pay, told);
    hide ProgramsOf, RingProgram, Addressed, SendsAt, ReceivesAt, OffsetRank, LeavesAtOnce, RingSendIndex,
         RingRecvIndex;
    forall d: nat, j: nat, s: nat | d < n && s < n && ReceivesAt(P[d], j, s)
      ensures exists i: nat :: SendsAt(P[s], i, d) && i < j
    {
      RingMatches(n, pay, told, s, d, j);
    }
    forall s: nat, i: nat, d: nat | s < n && d < n && SendsAt(P[s], i, d)
      ensures exists j: nat :: ReceivesAt(P[d], j, s)
    {
      RingMatches(n, pay, told, s, d, i);
    }
  }

  lemma FanOutSteps(n: nat, root: nat, r: nat, pay: Pay, k: nat, q: nat)
    requires root < n && r < n
    ensures SendsAt(FanOutProgram(n, root, r, pay), k, q) <==>
            r == root && q != root && q < n && k == SkipIndex(root, q)
    ensures ReceivesAt(FanOutProgram(n, root, r, pay), k, q) <==> r != root && q == root && k == 0
  {
    hide Give, Insist;
  }

  lemma FanOutPattern(n: nat, root: nat, pay: Pay, P: seq<Program>)
    requires root < n && P == ProgramsOf(FanOut(root, pay), n)
    ensures Pattern(P, ClockOf(FanOut(root, pay), n))
  {
    assert Ticks(P, ClockOf(FanOut(root, pay), n));
    forall r: nat, k: nat, q: nat | r < n
      ensures SendsAt(P[r], k, q) <==> r == root && q != root && q < n && k == SkipIndex(root, q)
      ensures ReceivesAt(P[r], k, q) <==> r != root && q == root && k == 0
    {
      FanOutSteps(n, root, r, pay, k, q);
    }
    hide ProgramsOf, FanOutProgram, Addressed, LeavesAtOnce, Ticks;
    forall d: nat, j: nat, s: nat | d < n && s < n && ReceivesAt(P[d], j, s)
      ensures exists i: nat :: SendsAt(P[s], i, d) && i < n + j
    {
      assert SendsAt(P[s], SkipIndex(root, d), d);
    }
    forall s: nat, i: nat, d: nat | s < n && d < n && SendsAt(P[s], i, d)
      ensures exists j: nat :: ReceivesAt(P[d], j, s)
    {
      assert ReceivesAt(P[d], 0, s);
    }
  }

  lemma FanInSteps(n: nat, root: nat, r: nat, pay: Pay, told: Told, k: nat, q: nat)
    requires root < n && r < n
    ensures SendsAt(FanInProgram(n, root, r, pay, told), k, q) <==> r != root && q == root && k == 0
    ensures ReceivesAt(FanInProgram(n, root, r, pay, told), k, q) <==>
            r == root && q != root && q < n && k == SkipIndex(root, q)
  {
    hide Give, Insist;
  }

  lemma FanInPattern(n: nat, root: nat, pay: Pay, told: Told, P: seq<Program>)
    requires root < n && P == ProgramsOf(FanIn(root, pay, told), n)
    ensures Pattern(P, ClockOf(FanIn(root, pay, told), n))
  {
    assert Ticks(P, ClockOf(FanIn(root, pay, told), n));
    forall r: nat, k: nat, q: nat | r < n
      ensures SendsAt(P[r], k, q) <==> r != root && q == root && k == 0
      ensures ReceivesAt(P[r], k, q) <==> r == root && q != root && q < n && k == SkipIndex(root, q)
    {
      FanInSteps(n, root, r, pay, told, k, q);
    }
    hide ProgramsOf, FanInProgram, Addressed, LeavesAtOnce, Ticks;
    forall d: nat, j: nat, s: nat | d < n && s < n && ReceivesAt(P[d], j, s)
      ensures exists i: nat :: SendsAt(P[s], i, d) && i < j + 1
    {
      assert SendsAt(P[s], 0, d);
    }
    forall s: nat, i: nat, d: nat | s < n && d < n && SendsAt(P[s], i, d)
      ensures exists j: nat :: ReceivesAt(P[d], j, s)
    {
      assert ReceivesAt(P[d], SkipIndex(root, s), s);
    }
  }

  ghost function TurnsRecvIndex(n: nat, r: nat, q: nat): int {
    if q < r then q else q + n - 2
  }

  lemma TurnsSteps(n: nat, r: nat, pay: Pay, told: Told, k: nat, q: nat)
    requires r < n
    ensures SendsAt(TurnsProgram(n, r, pay, told), k, q) <==> q != r && q < n && k == r + SkipIndex(r, q)
    ensures ReceivesAt(TurnsProgram(n, r, pay, told), k, q) <==> q != r && q < n && k == TurnsRecvIndex(n, r, q)
  {
    hide Give, Insist;
    var p := TurnsProgram(n, r, pay, told);
    if k < 2 * n - 2 {
      assert p[k] == TurnsOp(n, r, pay, told, k);
    }
    if q != r && q < n {
      var i, j := r + SkipIndex(r, q), TurnsRecvIndex(n, r, q);
      assert p[i] == TurnsOp(n, r, pay, told, i) && p[j] == TurnsOp(n, r, pay, told, j);
    }
  }

  lemma TurnsTick(n: nat, r: nat, i: nat, j: nat)
    requires r < n && i < j < 2 * n - 2
    ensures TurnClock(n, r, i) < TurnClock(n, r, j)
  {
    var x := if i < r then i else if i < r + n - 1 then r else i + 2 - n;
    var y := if j < r then j else if j < r + n - 1 then r else j + 2 - n;
    if x < y {
      TurnTimes(n, x, y);
    }
    hide TurnTime;
  }

  lemma TurnsWait(n: nat, s: nat, d: nat)
    requires s < n && d < n && s != d
    ensures TurnClock(n, s, s + SkipIndex(s, d)) < TurnClock(n, d, TurnsRecvIndex(n, d, s))
  {
    hide TurnTime;
  }

  lemma TurnsPattern(n: nat, pay: Pay, told: Told, P: seq<Program>)
    requires n > 0 && P == ProgramsOf(Turns(pay, told), n)
    ensures Pattern(P, ClockOf(Turns(pay, told), n))
  {
    forall r: nat, i: nat, j: nat | r < n && i < j < |P[r]| ensures TurnClock(n, r, i) < TurnClock(n, r, j) {
      TurnsTick(n, r, i, j);
    }
    forall r: nat, k: nat, q: nat | r < n
      ensures SendsAt(P[r], k, q) <==> q != r && q < n && k == r + SkipIndex(r, q)
      ensures ReceivesAt(P[r], k, q) <==> q != r && q < n && k == TurnsRecvIndex(n, r, q)
    {
      TurnsSteps(n, r, pay, told, k, q);
    }
    assert Ticks(P, ClockOf(Turns(pay, told), n));
    hide ProgramsOf, TurnsProgram, Addressed, LeavesAtOnce, Ticks, TurnClock;
    forall d: nat, j: nat, s: nat | d < n && s < n && ReceivesAt(P[d], j, s)
      ensures exists i: nat :: SendsAt(P[s], i, d) && TurnClock(n, s, i) < TurnClock(n, d, j)
    {
      TurnsWait(n, s, d);
      assert SendsAt(P[s], s + SkipIndex(s, d), d);
    }
    forall s: nat, i: nat, d: nat | s < n && d < n && SendsAt(P[s], i, d)
      ensures exists j: nat :: ReceivesAt(P[d], j, s)
    {
      assert ReceivesAt(P[d], TurnsRecvIndex(n, d, s), s);
    }
  }

  lemma IsPattern(c: Collective, n: nat)
    requires Valid(c, n)
    ensures Pattern(ProgramsOf(c, n), ClockOf(c, n))
  {
    hide Pattern, ProgramsOf, ClockOf;
    match c {
      case Ring(pay, told) => RingPattern(n, pay, told, ProgramsOf(c, n));
      case FanOut(root, pay) => FanOutPattern(n, root, pay, ProgramsOf(c, n));
      case FanIn(root, pay, told) => FanInPattern(n, root, pay, told, ProgramsOf(c, n));
      case Turns(pay, told) => TurnsPattern(n, pay, told, ProgramsOf(c, n));
    }
  }
}
