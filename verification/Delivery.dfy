/**
  From the code of one rank to all ranks: whatever the endpoint is fed with, the sends and receives of
  each collective's code are a run of the program that the network results speak of, to its end or
  to the first message that is refused.
 */
module Delivery {
  import opened Sequences
  import opened Wrappers
  import opened Network
  import opened Offsets
  import opened Buffers
  import opened Endpoints
  import opened Collectives
  import opened Jobs
  import opened MpiRing
  import opened MpiRooted
  import opened MpiReduce
  import opened Filling

  /** The actions of one run of the code are a run of program p by a rank with history h. */
  ghost predicate Performed(p: Program, h: History, run: Run) {
    run.log <= run.log' && Performs(p, h, run.log'[|run.log|..])
  }

  lemma ActionsPerformed(p: Program, h: History, run: Run, actions: seq<Action>)
    requires run.log' == run.log + actions && Performs(p, h, actions)
    ensures Performed(p, h, run)
  {
    assert run.log'[|run.log|..] == actions;
    hide Performs;
  }

  lemma TakenIsFed(feed: seq<Option<Message>>, m: nat)
    requires m <= |feed| && forall k: nat | k < m :: feed[k].Some?
    ensures FedWith(feed, Taken(feed, m))
  {
  }

  lemma FedOneMore(feed: seq<Option<Message>>, got: History)
    requires FedWith(feed, got) && |got| < |feed| && feed[|got|].Some?
    ensures FedWith(feed, got + [feed[|got|].value])
  {
  }

  // ---------------------------------------------------------------- the ring

  /** The call hands over and insists on what `pay` and `told` say for a rank with history h. */
  ghost predicate RingCallOf(c: RingCall, pay: Pay, told: Told, h: History) {
    && Well(c)
    && (forall d: nat | d < c.n :: pay(c.r, d, h) == c.blk[d])
    && (forall i: nat | 0 < i < c.n :: told(Left(c.n, c.r, i), c.r, h) == WantedAt(c, i - 1))
  }

  ghost function RingTaken(n: nat, k: nat): nat {
    if k == 2 * n - 2 then n - 1 else RingEarlier(k)
  }

  lemma RingLogStep(c: RingCall, got: seq<Message>, k: nat)
    requires Well(c) && k < 2 * |got| + 2 && k < 2 * c.n - 2 && (k + 1 == 2 * c.n - 2 ==> |got| == c.n - 1)
    ensures RingLog(c, got, k + 1) == RingLog(c, got, k) + [RingAction(c, got, k)]
    ensures RingTaken(c.n, k + 1) <= |got|
    ensures var a := RingAction(c, got, k);
      got[..RingTaken(c.n, k + 1)] == got[..RingTaken(c.n, k)] + if a.Received? then [a.data] else []
  {
    hide OffsetRank;
  }

  lemma RingStepFollows(c: RingCall, pay: Pay, told: Told, h: History, got: seq<Message>, x: History, k: nat)
    requires RingCallOf(c, pay, told, h) && k < 2 * c.n - 2 && k < 2 * |got| + 2 && |x| == RingEarlier(k)
    requires k == 2 * c.n - 3 ==> |got| == c.n - 1
    ensures var op, a := RingOp(c.n, c.r, pay, told, k), RingAction(c, got, k);
      && Follows(op, h + x, a) && (op.Recv? ==> RingEarlier(k) < |got|)
      && (Refuses(op, h + x, a) <==> op.Recv? && !Fine(c.want, RingEarlier(k), got[RingEarlier(k)]))
  {
    EntryIs(h, x);
    hide OffsetRank, Entry;
  }

  ghost predicate AllFine(want: Wanted, got: seq<Message>, m: nat) {
    m <= |got| && forall k: nat | k < m :: Fine(want, k, got[k])
  }

  /** As long as messages are accepted, the actions are those of the program. */
  lemma {:induction false} RingPerforming(c: RingCall, pay: Pay, told: Told, h: History, got: seq<Message>, k: nat)
    requires Well(c) && RingCallOf(c, pay, told, h) && AllFine(c.want, got, |got|)
    requires k <= 2 * |got| + 2 && k <= 2 * c.n - 2 && (k == 2 * c.n - 2 ==> |got| == c.n - 1)
    ensures Performing(RingProgram(c.n, c.r, pay, told), h, RingLog(c, got, k))
    ensures RingTaken(c.n, k) <= |got| && ReceivedIn(RingLog(c, got, k)) == got[..RingTaken(c.n, k)]
  {
    hide *;
    if k == 0 {
      RingPerformingStarts(c, pay, told, h, got);
    } else {
      RingPerforming(c, pay, told, h, got, k - 1);
      RingPerformingStep(c, pay, told, h, got, k - 1);
    }
  }

  lemma RingPerformingStarts(c: RingCall, pay: Pay, told: Told, h: History, got: seq<Message>)
    requires Well(c)
    ensures Performing(RingProgram(c.n, c.r, pay, told), h, RingLog(c, got, 0))
    ensures RingTaken(c.n, 0) == 0 && ReceivedIn(RingLog(c, got, 0)) == got[..0]
  {
    assert RingLog(c, got, 0) == [];
    PerformingStarts(RingProgram(c.n, c.r, pay, told), h);
  }

  lemma RingPerformingStep(c: RingCall, pay: Pay, told: Told, h: History, got: seq<Message>, k: nat)
    requires Well(c) && RingCallOf(c, pay, told, h) && AllFine(c.want, got, |got|)
    requires k < 2 * |got| + 2 && k < 2 * c.n - 2 && (k + 1 == 2 * c.n - 2 ==> |got| == c.n - 1)
    requires Performing(RingProgram(c.n, c.r, pay, told), h, RingLog(c, got, k))
    requires RingTaken(c.n, k) <= |got| && ReceivedIn(RingLog(c, got, k)) == got[..RingTaken(c.n, k)]
    ensures Performing(RingProgram(c.n, c.r, pay, told), h, RingLog(c, got, k + 1))
    ensures RingTaken(c.n, k + 1) <= |got| && ReceivedIn(RingLog(c, got, k + 1)) == got[..RingTaken(c.n, k + 1)]
  {
    var p, log, a := RingProgram(c.n, c.r, pay, told), RingLog(c, got, k), RingAction(c, got, k);
    assert p[k] == RingOp(c.n, c.r, pay, told, k);
    hide Performing, ReceivedIn, RingProgram, RingLog, RingOp, RingAction, Follows, Refuses, RingCallOf, OffsetRank;
    RingLogStep(c, got, k);
    RingStepFollows(c, pay, told, h, got, ReceivedIn(log), k);
    assert !Refuses(p[k], h + ReceivedIn(log), a);
    hide *;
    PerformingStep(p, h, log, a);
  }

  lemma RingPerformsAll(c: RingCall, pay: Pay, told: Told, h: History, got: seq<Message>)
    requires RingCallOf(c, pay, told, h) && |got| == c.n - 1 && AllFine(c.want, got, |got|)
    ensures Performs(RingProgram(c.n, c.r, pay, told), h, RingLog(c, got, 2 * c.n - 2))
    ensures ReceivedIn(RingLog(c, got, 2 * c.n - 2)) == got
  {
    hide *;
    RingEnd(c, pay, told, h);
    WholePrefix(got);
    RingPerforming(c, pay, told, h, got, 2 * c.n - 2);
    WholeRun(RingProgram(c.n, c.r, pay, told), h, RingLog(c, got, 2 * c.n - 2));
  }

  lemma RingEnd(c: RingCall, pay: Pay, told: Told, h: History)
    requires RingCallOf(c, pay, told, h)
    ensures Well(c) && c.n >= 2 && c.r < c.n && RingTaken(c.n, 2 * c.n - 2) == c.n - 1
  {
  }

  lemma BeforeRefusal(c: RingCall, got: seq<Message>)
    requires Well(c) && |got| < c.n - 1
    ensures var k := RingLength(c.n, |got|);
      k < 2 * c.n - 2 && k <= 2 * |got| + 2 && RingEarlier(k) == |got| == RingTaken(c.n, k) &&
        (k == 2 * c.n - 3 ==> |got| == c.n - 2)
  {
  }

  lemma RefusingStep(c: RingCall, pay: Pay, told: Told, h: History, got: seq<Message>, msg: Message)
    requires RingCallOf(c, pay, told, h) && |got| < c.n - 1 && !Fine(c.want, |got|, msg)
    ensures var k := RingLength(c.n, |got|);
      && k < 2 * c.n - 2
      && var op, a := RingOp(c.n, c.r, pay, told, k), Received(Left(c.n, c.r, |got| + 1), msg);
      Follows(op, h + got, a) && Refuses(op, h + got, a) && op.rest == 2 * c.n - 3 - k
  {
    EntryIs(h, got);
    hide OffsetRank, Entry;
  }

  lemma RingRefuses(c: RingCall, pay: Pay, told: Told, h: History, got: seq<Message>, msg: Message)
    requires RingCallOf(c, pay, told, h) && |got| < c.n - 1 && AllFine(c.want, got, |got|)
    requires !Fine(c.want, |got|, msg)
    ensures var log := RingLog(c, got, RingLength(c.n, |got|)) + [Received(Left(c.n, c.r, |got| + 1), msg)];
      Performs(RingProgram(c.n, c.r, pay, told), h, log) && ReceivedIn(log) == got + [msg]
  {
    var k := RingLength(c.n, |got|);
    var p, log, a := RingProgram(c.n, c.r, pay, told), RingLog(c, got, k), Received(Left(c.n, c.r, |got| + 1), msg);
    BeforeRefusal(c, got);
    assert p[k] == RingOp(c.n, c.r, pay, told, k) && |p| == 2 * c.n - 2;
    hide Performing, ReceivedIn, RingProgram, RingLog, AllFine, RingCallOf, RingOp, Follows, Refuses, Fine, RingLength,
         RingTaken;
    RingPerforming(c, pay, told, h, got, k);
    assert got[..|got|] == got;
    RefusingStep(c, pay, told, h, got, msg);
    hide *;
    RefusalEnds(p, h, log, a);
  }

  /** What the ring's code records, as one stretch of actions. */
  ghost function RingRecord(c: RingCall, feed: seq<Option<Message>>, m: nat): seq<Action>
    requires Well(c) && m <= c.n - 1 <= |feed| && forall k: nat | k < m :: feed[k].Some?
  {
    RingLog(c, Taken(feed, m), RingLength(c.n, m)) +
    if m < c.n - 1 && feed[m].Some? then [Received(Left(c.n, c.r, m + 1), feed[m].value)] else []
  }

  lemma LoggedBy(c: RingCall, feed: seq<Option<Message>>, run: Run)
    requires RanRing(c, feed, run) && run.status != 4
    ensures var m := Accepted(feed, c.want, 0, c.n - 1);
      && (m < c.n - 1 ==> feed[m].Some?)
      && run.log' == run.log + RingLog(c, Taken(feed, m), RingLength(c.n, m)) +
                     (if m < c.n - 1 then [Received(Left(c.n, c.r, m + 1), feed[m].value)] else [])
  {
    hide RingLog, RingPieces, AllFit, PutAll, RingLength, Fine, OffsetRank, Taken, Accepted;
  }

  lemma RecordIs(c: RingCall, feed: seq<Option<Message>>, run: Run) returns (m: nat)
    requires RanRing(c, feed, run) && run.status != 4
    ensures Well(c) && m <= c.n - 1 <= |feed| && m == Accepted(feed, c.want, 0, c.n - 1)
    ensures forall k: nat | k < m :: feed[k].Some?
    ensures run.log' == run.log + RingRecord(c, feed, m)
    ensures m < c.n - 1 ==> feed[m].Some?
  {
    m := Accepted(feed, c.want, 0, c.n - 1);
    LoggedBy(c, feed, run);
    var log := RingLog(c, Taken(feed, m), RingLength(c.n, m));
    hide RanRing, RingLog, RingLength, Fine, OffsetRank, Taken, Accepted, Room;
    Associative(run.log, log, RingRecord(c, feed, m)[|log|..]);
    assert RingRecord(c, feed, m) == log + RingRecord(c, feed, m)[|log|..];
  }

  lemma AcceptedAreFine(c: RingCall, feed: seq<Option<Message>>, m: nat)
    requires Well(c) && c.n - 1 <= |feed| && m == Accepted(feed, c.want, 0, c.n - 1) <= c.n - 1
    ensures FedWith(feed, Taken(feed, m)) && |Taken(feed, m)| == m && AllFine(c.want, Taken(feed, m), m)
    ensures m < c.n - 1 && feed[m].Some? ==> !Fine(c.want, m, feed[m].value)
  {
    TakenIsFed(feed, m);
    hide Fine;
  }

  lemma RingActions(c: RingCall, feed: seq<Option<Message>>, run: Run)
    returns (m: nat, got: seq<Message>, actions: seq<Action>)
    requires RanRing(c, feed, run) && run.status != 4
    ensures m <= c.n - 1 <= |feed| && FedWith(feed, got) && |got| == m && AllFine(c.want, got, m)
    ensures run.log' == run.log + actions
    ensures m == c.n - 1 ==> actions == RingLog(c, got, 2 * c.n - 2)
    ensures m < c.n - 1 ==> feed[m].Some? && !Fine(c.want, m, feed[m].value)
    ensures m < c.n - 1 ==>
      actions == RingLog(c, got, RingLength(c.n, m)) + [Received(Left(c.n, c.r, m + 1), feed[m].value)]
  {
    m := RecordIs(c, feed, run);
    got, actions := Taken(feed, m), RingRecord(c, feed, m);
    AcceptedAreFine(c, feed, m);
    WholeLength(c.n);
    hide RanRing, RingLog, Taken, Accepted, RingLength, Fine, AllFine, FedWith, OffsetRank;
  }

  lemma WholeLength(n: nat)
    requires n >= 2
    ensures RingLength(n, n - 1) == 2 * n - 2
  {
  }

  /** The actions of Allgather_exp, Allgatherv_exp and Alltoall, unless a connection is closed under
      way, are a run of the ring program, to its end or to the first message that is refused. */
  lemma RingPerforms(c: RingCall, pay: Pay, told: Told, h: History, feed: seq<Option<Message>>, run: Run)
    returns (actions: seq<Action>)
    requires RingCallOf(c, pay, told, h) && RanRing(c, feed, run) && run.status != 4
    ensures run.log' == run.log + actions && Performs(RingProgram(c.n, c.r, pay, told), h, actions)
    ensures FedWith(feed, ReceivedIn(actions))
  {
    hide *;
    var m, got, log := RingActions(c, feed, run);
    actions := log;
    if m == c.n - 1 {
      RingPerformsAll(c, pay, told, h, got);
    } else {
      RingRefuses(c, pay, told, h, got, feed[m].value);
      FedOneMore(feed, got);
    }
  }

  // ---------------------------------------------------------------- one root sends

  lemma {:induction false} FanOutPerforming(n: nat, root: nat, blk: seq<Message>, pay: Pay, h: History, k: nat)
    requires root < n == |blk| && k <= n - 1 && forall d: nat | d < n :: pay(root, d, h) == blk[d]
    ensures Performing(FanOutProgram(n, root, root, pay), h, FanOutLog(root, blk, k))
    ensures ReceivedIn(FanOutLog(root, blk, k)) == []
  {
    if k == 0 {
      assert FanOutLog(root, blk, 0) == [];
      PerformingStarts(FanOutProgram(n, root, root, pay), h);
    } else {
      hide Performing, ReceivedIn, FanOutProgram, FanOutLog;
      FanOutPerforming(n, root, blk, pay, h, k - 1);
      FanOutPerformingStep(n, root, blk, pay, h, k - 1);
    }
  }

  lemma FanOutPerformingStep(n: nat, root: nat, blk: seq<Message>, pay: Pay, h: History, k: nat)
    requires root < n == |blk| && k < n - 1 && forall d: nat | d < n :: pay(root, d, h) == blk[d]
    requires Performing(FanOutProgram(n, root, root, pay), h, FanOutLog(root, blk, k))
    requires ReceivedIn(FanOutLog(root, blk, k)) == []
    ensures Performing(FanOutProgram(n, root, root, pay), h, FanOutLog(root, blk, k + 1))
    ensures ReceivedIn(FanOutLog(root, blk, k + 1)) == []
  {
    hide Performing, ReceivedIn;
    var p, log, a := FanOutProgram(n, root, root, pay), FanOutLog(root, blk, k),
      Sent(Skip(root, k), blk[Skip(root, k)]);
    EntryIs(h, []);
    assert Follows(p[k], h + [], a) && !Refuses(p[k], h + [], a);
    assert FanOutLog(root, blk, k + 1) == log + [a];
    hide *;
    PerformingStep(p, h, log, a);
  }

  /** The actions of a root of Bcast or Scatter. */
  lemma FanOutPerforms(n: nat, root: nat, blk: seq<Message>, pay: Pay, h: History)
    requires root < n == |blk| && forall d: nat | d < n :: pay(root, d, h) == blk[d]
    ensures Performs(FanOutProgram(n, root, root, pay), h, FanOutLog(root, blk, n - 1))
    ensures ReceivedIn(FanOutLog(root, blk, n - 1)) == []
  {
    FanOutPerforming(n, root, blk, pay, h, n - 1);
    hide Performing, ReceivedIn;
  }

  lemma OneAction(p: Program, h: History, a: Action)
    requires |p| == 1 && Follows(p[0], h + [], a) && !Refuses(p[0], h + [], a)
    ensures Performs(p, h, [a]) && ReceivedIn([a]) == if a.Received? then [a.data] else []
  {
    PerformingStarts(p, h);
    assert [] + [a] == [a];
    hide Follows, Refuses, ReceivedIn, Performing;
    PerformingStep(p, h, [], a);
  }

  /** The one action of the other ranks of a Bcast or Scatter. */
  lemma FanOutTakes(n: nat, root: nat, r: nat, pay: Pay, h: History, msg: Message)
    requires root < n && r < n && r != root
    ensures Performs(FanOutProgram(n, root, r, pay), h, [Received(root, msg)])
    ensures ReceivedIn([Received(root, msg)]) == [msg]
  {
    OneAction(FanOutProgram(n, root, r, pay), h, Received(root, msg));
  }

  /** A Bcast performs the fan-out, whether a rank takes the message over or not. */
  lemma BcastPerforms(n: nat, r: nat, root: nat, at: nat, len: nat, pay: Pay, h: History, feed: seq<Option<Message>>,
                      run: Run) returns (actions: seq<Action>)
    requires RanBcast(n, r, root, at, len, feed, run) && run.status != 4
    requires r == root ==> forall d: nat | d < n :: pay(root, d, h) == run.buf[at..at + len]
    ensures run.log' == run.log + actions && Performs(FanOutProgram(n, root, r, pay), h, actions)
    ensures FedWith(feed, ReceivedIn(actions))
  {
    if r == root {
      actions := FanOutLog(root, Copies(n, run.buf[at..at + len]), n - 1);
      FanOutPerforms(n, root, Copies(n, run.buf[at..at + len]), pay, h);
    } else {
      actions := [Received(root, feed[0].value)];
      FanOutTakes(n, root, r, pay, h, feed[0].value);
    }
    hide Performs, FanOutProgram;
  }

  /** A Scatter performs it likewise. */
  lemma ScatterPerforms(n: nat, r: nat, root: nat, sbuf: seq<int>, sc: nat, rc: nat, pay: Pay, h: History,
                        feed: seq<Option<Message>>, run: Run) returns (actions: seq<Action>)
    requires RanScatter(n, r, root, sbuf, sc, rc, feed, run) && run.status != -1
    requires r == root ==> forall d: nat | d < n :: pay(root, d, h) == Block(sbuf, d, sc)
    ensures run.log' == run.log + actions && Performs(FanOutProgram(n, root, r, pay), h, actions)
    ensures FedWith(feed, ReceivedIn(actions))
  {
    hide Block, BlockAt;
    if r == root {
      actions := FanOutLog(root, Blocks(sbuf, n, sc), n - 1);
      FanOutPerforms(n, root, Blocks(sbuf, n, sc), pay, h);
    } else {
      actions := [Received(root, feed[0].value)];
      FanOutTakes(n, root, r, pay, h, feed[0].value);
    }
    hide Performs, FanOutProgram, HasBlocks;
  }

  // ---------------------------------------------------------------- one root receives

  lemma FanInStepFollows(n: nat, root: nat, pay: Pay, told: Told, h: History, x: History, msg: Message)
    requires root < n && |x| < n - 1
    ensures var op, a := FanInProgram(n, root, root, pay, told)[|x|], Received(Skip(root, |x|), msg);
      && Follows(op, h + x, a) && op.rest == n - 2 - |x|
      && (Refuses(op, h + x, a) <==> !Suits(told(Skip(root, |x|), root, h), msg))
  {
    EntryIs(h, x);
  }

  ghost predicate AllSuit(root: nat, told: Told, h: History, got: seq<Message>) {
    forall k: nat | k < |got| :: Suits(told(Skip(root, k), root, h), got[k])
  }

  lemma {:induction false} FanInPerforming(n: nat, root: nat, pay: Pay, told: Told, h: History, got: seq<Message>)
    requires root < n && |got| <= n - 1 && AllSuit(root, told, h, got)
    ensures Performing(FanInProgram(n, root, root, pay, told), h, FanInLog(root, got))
    ensures ReceivedIn(FanInLog(root, got)) == got
  {
    if got == [] {
      assert FanInLog(root, got) == [];
      PerformingStarts(FanInProgram(n, root, root, pay, told), h);
    } else {
      var init, last := got[..|got| - 1], got[|got| - 1];
      assert got == init + [last] && Suits(told(Skip(root, |init|), root, h), last);
      hide Performing, ReceivedIn, FanInProgram, FanInLog, Suits;
      FanInPerforming(n, root, pay, told, h, init);
      FanInPerformingStep(n, root, pay, told, h, init, last);
    }
  }

  lemma FanInPerformingStep(n: nat, root: nat, pay: Pay, told: Told, h: History, got: seq<Message>, msg: Message)
    requires root < n && |got| < n - 1 && Suits(told(Skip(root, |got|), root, h), msg)
    requires Performing(FanInProgram(n, root, root, pay, told), h, FanInLog(root, got))
    requires ReceivedIn(FanInLog(root, got)) == got
    ensures Performing(FanInProgram(n, root, root, pay, told), h, FanInLog(root, got + [msg]))
    ensures ReceivedIn(FanInLog(root, got + [msg])) == got + [msg]
  {
    hide Performing, ReceivedIn, Suits;
    var p, log, a := FanInProgram(n, root, root, pay, told), FanInLog(root, got), Received(Skip(root, |got|), msg);
    FanInStepFollows(n, root, pay, told, h, got, msg);
    assert FanInLog(root, got + [msg]) == log + [a] && |p| == n - 1;
    hide *;
    PerformingStep(p, h, log, a);
  }

  /** The actions of a root of Gather or Reduce. */
  lemma FanInPerforms(n: nat, root: nat, pay: Pay, told: Told, h: History, got: seq<Message>)
    requires root < n && |got| == n - 1 && AllSuit(root, told, h, got)
    ensures Performs(FanInProgram(n, root, root, pay, told), h, FanInLog(root, got))
    ensures ReceivedIn(FanInLog(root, got)) == got
  {
    FanInPerforming(n, root, pay, told, h, got);
    hide FanInLog, Performing, ReceivedIn;
  }

  lemma FanInRefuses(n: nat, root: nat, pay: Pay, told: Told, h: History, got: seq<Message>, msg: Message)
    requires root < n && |got| < n - 1 && AllSuit(root, told, h, got)
    requires !Suits(told(Skip(root, |got|), root, h), msg)
    ensures var log := FanInLog(root, got) + [Received(Skip(root, |got|), msg)];
      Performs(FanInProgram(n, root, root, pay, told), h, log) && ReceivedIn(log) == got + [msg]
  {
    var log, a := FanInLog(root, got), Received(Skip(root, |got|), msg);
    FanInPerforming(n, root, pay, told, h, got);
    FanInStepFollows(n, root, pay, told, h, got, msg);
    hide *;
    RefusalEnds(FanInProgram(n, root, root, pay, told), h, log, a);
  }

  /** The one action of the other ranks of a Gather or Reduce. */
  lemma FanInGives(n: nat, root: nat, r: nat, pay: Pay, told: Told, h: History, data: Message)
    requires root < n && r < n && r != root && pay(r, root, h) == data
    ensures Performs(FanInProgram(n, root, r, pay, told), h, [Sent(root, data)])
    ensures ReceivedIn([Sent(root, data)]) == []
  {
    EntryIs(h, []);
    OneAction(FanInProgram(n, root, r, pay, told), h, Sent(root, data));
  }

  /** Gather's own loop, which passes its turn in silence, does what the pattern asks of a root. */
  lemma {:induction false} GatherLogIsFanIn(c: GatherCall, got: seq<Message>, i: nat)
    requires c.mine == [] && c.r < c.n && |got| == Others(c.r, i)
    ensures TurnLog(c, got, i) == FanInLog(c.r, got)
  {
    if i > 0 {
      if i - 1 == c.r {
        GatherLogIsFanIn(c, got, i - 1);
      } else {
        var init, last := got[..|got| - 1], got[|got| - 1];
        assert got == init + [last];
        GatherLogIsFanIn(c, init, i - 1);
        TurnLogFixed(c, init, last, i - 1);
        FanInStep(c.r, init, i - 1, last);
      }
    }
  }

  /** What the gathering code records, as one stretch of actions. */
  lemma GatherActions(c: GatherCall, feed: seq<Option<Message>>, run: Run) returns (m: nat, got: seq<Message>)
    requires RanGather(c, feed, run) && run.status != 4
    ensures m <= c.n - 1 <= |feed| && FedWith(feed, got) && |got| == m == Others(c.r, StopRank(c, m))
    ensures forall k: nat | k < m :: |got[k]| == c.rc
    ensures m == c.n - 1 ==> run.log' == run.log + TurnLog(c, got, c.n)
    ensures m < c.n - 1 ==> feed[m].Some? && |feed[m].value| != c.rc
    ensures m < c.n - 1 ==>
      run.log' == run.log + (TurnLog(c, got, Skip(c.r, m)) + [Received(Skip(c.r, m), feed[m].value)])
  {
    m := Accepted(feed, Uniform(c.n - 1, c.rc), 0, c.n - 1);
    got := Taken(feed, m);
    TakenIsFed(feed, m);
    hide TurnLog, BlockPieces, AllFit, PutAll, BlocksFit;
    assert run.log + TurnLog(c, got, StopRank(c, m)) + [] == run.log + TurnLog(c, got, StopRank(c, m));
  }

  /** The root of a Gather performs the fan-in, to its end or to the first block of another length. */
  lemma GatherPerforms(c: GatherCall, pay: Pay, told: Told, h: History, feed: seq<Option<Message>>, run: Run)
    returns (actions: seq<Action>)
    requires RanGather(c, feed, run) && c.mine == [] && run.status != 4
    requires forall s: nat | s < c.n && s != c.r :: told(s, c.r, h) == Some(c.rc)
    ensures run.log' == run.log + actions && Performs(FanInProgram(c.n, c.r, c.r, pay, told), h, actions)
    ensures FedWith(feed, ReceivedIn(actions))
  {
    var m, got := GatherActions(c, feed, run);
    assert AllSuit(c.r, told, h, got);
    assert c.r < c.n && StopRank(c, c.n - 1) == c.n && Others(c.r, c.n) == c.n - 1;
    hide *;
    if m == c.n - 1 {
      actions := FanInLog(c.r, got);
      GatherLogIsFanIn(c, got, c.n);
      FanInPerforms(c.n, c.r, pay, told, h, got);
    } else {
      actions := FanInLog(c.r, got) + [Received(Skip(c.r, m), feed[m].value)];
      GatherLogIsFanIn(c, got, Skip(c.r, m));
      FanInRefuses(c.n, c.r, pay, told, h, got, feed[m].value);
      FedOneMore(feed, got);
    }
  }

  // ---------------------------------------------------------------- everyone in turn

  ghost function TurnsTaken(n: nat, r: nat, k: nat): nat
    requires r < n
  {
    if k <= r then k else if k < r + n - 1 then r else k - n + 1
  }

  ghost function TurnsAction(n: nat, r: nat, own: Message, got: seq<Message>, k: nat): Action
    requires r < n && TurnsTaken(n, r, k + 1) <= |got|
  {
    if k < r then Received(k, got[k])
    else if k < r + n - 1 then Sent(Skip(r, k - r), own)
    else Received(k - n + 2, got[k - n + 1])
  }

  ghost function TurnsLog(n: nat, r: nat, own: Message, got: seq<Message>, len: nat): (log: seq<Action>)
    requires r < n && TurnsTaken(n, r, len) <= |got|
    ensures |log| == len
  {
    seq(len, k requires 0 <= k < len => TurnsAction(n, r, own, got, k))
  }

  /** How many steps there are before the turn of rank i. */
  ghost function TurnsLength(n: nat, r: nat, i: nat): int
    requires r < n
  {
    if i <= r then i else i + n - 2
  }

  lemma OwnTurn(n: nat, r: nat, own: Message, got: seq<Message>)
    requires r < n && r <= |got|
    ensures TurnsLength(n, r, r) == r && TurnsTaken(n, r, r) <= |got|
    ensures TurnsLength(n, r, r + 1) == r + n - 1 && TurnsTaken(n, r, r + n - 1) <= |got|
    ensures TurnsLog(n, r, own, got, r) + FanOutLog(r, Copies(n, own), n - 1) == TurnsLog(n, r, own, got, r + n - 1)
  {
  }

  lemma OtherTurn(n: nat, r: nat, own: Message, got: seq<Message>, i: nat)
    requires r < n && i < n && i != r && Others(r, i + 1) <= |got|
    ensures TurnsLength(n, r, i) >= 0 && TurnsTaken(n, r, TurnsLength(n, r, i)) <= |got|
    ensures TurnsLength(n, r, i + 1) == TurnsLength(n, r, i) + 1 && TurnsTaken(n, r, TurnsLength(n, r, i) + 1) <= |got|
    ensures SkipIndex(r, i) < |got|
    ensures TurnsLog(n, r, own, got, TurnsLength(n, r, i)) + [Received(i, got[SkipIndex(r, i)])]
         == TurnsLog(n, r, own, got, TurnsLength(n, r, i + 1))
  {
  }

  lemma TurnLogStep(c: GatherCall, got: seq<Message>, i: nat)
    requires Others(c.r, i + 1) <= |got|
    ensures Others(c.r, i) <= |got| && (i == c.r ==> c.r <= |got|) && (i != c.r ==> SkipIndex(c.r, i) < |got|)
    ensures TurnLog(c, got, i + 1) ==
            TurnLog(c, got, i) + if i == c.r then c.mine else [Received(i, got[SkipIndex(c.r, i)])]
  {
  }

  lemma NoTurns(c: GatherCall, got: seq<Message>)
    requires c.r < c.n
    ensures TurnsLength(c.n, c.r, 0) == 0 == TurnsTaken(c.n, c.r, 0) && Others(c.r, 0) == 0
    ensures TurnLog(c, got, 0) == [] == TurnsLog(c.n, c.r, c.own, got, 0)
  {
  }

  lemma {:induction false} TurnLogIs(c: GatherCall, got: seq<Message>, i: nat)
    requires c.r < c.n && c.mine == FanOutLog(c.r, Copies(c.n, c.own), c.n - 1) && i <= c.n && Others(c.r, i) <= |got|
    ensures TurnsLength(c.n, c.r, i) >= 0 && TurnsTaken(c.n, c.r, TurnsLength(c.n, c.r, i)) <= |got|
    ensures TurnLog(c, got, i) == TurnsLog(c.n, c.r, c.own, got, TurnsLength(c.n, c.r, i))
  {
    hide *;
    if i == 0 {
      NoTurns(c, got);
    } else {
      TurnLogStep(c, got, i - 1);
      TurnLogIs(c, got, i - 1);
      if i - 1 == c.r {
        OwnTurn(c.n, c.r, c.own, got);
      } else {
        OtherTurn(c.n, c.r, c.own, got, i - 1);
      }
    }
  }

  lemma TurnsLogStep(n: nat, r: nat, own: Message, got: seq<Message>, k: nat)
    requires r < n && TurnsTaken(n, r, k + 1) <= |got| && k < 2 * n - 2
    ensures TurnsTaken(n, r, k) <= |got|
    ensures TurnsLog(n, r, own, got, k + 1) == TurnsLog(n, r, own, got, k) + [TurnsAction(n, r, own, got, k)]
    ensures var a := TurnsAction(n, r, own, got, k);
      got[..TurnsTaken(n, r, k + 1)] == got[..TurnsTaken(n, r, k)] + if a.Received? then [a.data] else []
  {
  }

  lemma TurnsStepFollows(n: nat, r: nat, own: Message, pay: Pay, told: Told, h: History, got: seq<Message>, x: History,
                         k: nat)
    requires r < n && TurnsTaken(n, r, k + 1) <= |got| && k < 2 * n - 2 && |x| == TurnsTaken(n, r, k)
    requires forall d: nat | d < n && d != r :: pay(r, d, h) == own
    ensures var op, a, m := TurnsOp(n, r, pay, told, k), TurnsAction(n, r, own, got, k), TurnsTaken(n, r, k);
      && Follows(op, h + x, a) && (op.Recv? ==> m < |got|)
      && (Refuses(op, h + x, a) <==> op.Recv? && !Suits(told(Skip(r, m), r, h), got[m]))
  {
    EntryIs(h, x);
    hide Entry;
  }

  lemma {:induction false} TurnsPerforming(n: nat, r: nat, own: Message, pay: Pay, told: Told, h: History,
                                           got: seq<Message>, k: nat)
    requires r < n && forall d: nat | d < n && d != r :: pay(r, d, h) == own
    requires TurnsTaken(n, r, k) <= |got| && k <= 2 * n - 2 && AllSuit(r, told, h, got)
    ensures Performing(TurnsProgram(n, r, pay, told), h, TurnsLog(n, r, own, got, k))
    ensures ReceivedIn(TurnsLog(n, r, own, got, k)) == got[..TurnsTaken(n, r, k)]
  {
    hide *;
    if k == 0 {
      TurnsPerformingStarts(n, r, own, pay, told, h, got);
    } else {
      TurnsLogStep(n, r, own, got, k - 1);
      TurnsPerforming(n, r, own, pay, told, h, got, k - 1);
      TurnsPerformingStep(n, r, own, pay, told, h, got, k - 1);
    }
  }

  lemma TurnsPerformingStarts(n: nat, r: nat, own: Message, pay: Pay, told: Told, h: History, got: seq<Message>)
    requires r < n
    ensures TurnsTaken(n, r, 0) == 0
    ensures Performing(TurnsProgram(n, r, pay, told), h, TurnsLog(n, r, own, got, 0))
    ensures ReceivedIn(TurnsLog(n, r, own, got, 0)) == got[..0]
  {
    assert TurnsLog(n, r, own, got, 0) == [];
    PerformingStarts(TurnsProgram(n, r, pay, told), h);
  }

  lemma TurnsPerformingStep(n: nat, r: nat, own: Message, pay: Pay, told: Told, h: History, got: seq<Message>, k: nat)
    requires r < n && forall d: nat | d < n && d != r :: pay(r, d, h) == own
    requires TurnsTaken(n, r, k + 1) <= |got| && k < 2 * n - 2 && AllSuit(r, told, h, got) &&
             TurnsTaken(n, r, k) <= |got|
    requires Performing(TurnsProgram(n, r, pay, told), h, TurnsLog(n, r, own, got, k))
    requires ReceivedIn(TurnsLog(n, r, own, got, k)) == got[..TurnsTaken(n, r, k)]
    ensures Performing(TurnsProgram(n, r, pay, told), h, TurnsLog(n, r, own, got, k + 1))
    ensures ReceivedIn(TurnsLog(n, r, own, got, k + 1)) == got[..TurnsTaken(n, r, k + 1)]
  {
    var p, log, a := TurnsProgram(n, r, pay, told), TurnsLog(n, r, own, got, k), TurnsAction(n, r, own, got, k);
    assert p[k] == TurnsOp(n, r, pay, told, k);
    hide Performing, ReceivedIn, TurnsProgram, TurnsLog, TurnsOp, TurnsAction, Follows, Refuses, TurnsTaken, Suits;
    TurnsLogStep(n, r, own, got, k);
    TurnsStepFollows(n, r, own, pay, told, h, got, ReceivedIn(log), k);
    assert !Refuses(p[k], h + ReceivedIn(log), a);
    hide *;
    PerformingStep(p, h, log, a);
  }

  lemma TurnsPerformsAll(n: nat, r: nat, own: Message, pay: Pay, told: Told, h: History, got: seq<Message>)
    requires r < n && forall d: nat | d < n && d != r :: pay(r, d, h) == own
    requires |got| == n - 1 && AllSuit(r, told, h, got)
    ensures TurnsTaken(n, r, 2 * n - 2) == n - 1
    ensures Performs(TurnsProgram(n, r, pay, told), h, TurnsLog(n, r, own, got, 2 * n - 2))
    ensures ReceivedIn(TurnsLog(n, r, own, got, 2 * n - 2)) == got
  {
    hide *;
    TurnsEnd(n, r, own, got);
    WholePrefix(got);
    TurnsPerforming(n, r, own, pay, told, h, got, 2 * n - 2);
    WholeRun(TurnsProgram(n, r, pay, told), h, TurnsLog(n, r, own, got, 2 * n - 2));
  }

  lemma TurnsEnd(n: nat, r: nat, own: Message, got: seq<Message>)
    requires r < n && |got| == n - 1
    ensures TurnsTaken(n, r, 2 * n - 2) == n - 1
  {
  }

  lemma TurnsRefuses(n: nat, r: nat, own: Message, pay: Pay, told: Told, h: History, got: seq<Message>, msg: Message)
    requires r < n && forall d: nat | d < n && d != r :: pay(r, d, h) == own
    requires |got| < n - 1 && AllSuit(r, told, h, got) && !Suits(told(Skip(r, |got|), r, h), msg)
    ensures TurnsLength(n, r, Skip(r, |got|)) >= 0 && TurnsTaken(n, r, TurnsLength(n, r, Skip(r, |got|))) == |got|
    ensures var log := TurnsLog(n, r, own, got, TurnsLength(n, r, Skip(r, |got|))) + [Received(Skip(r, |got|), msg)];
      Performs(TurnsProgram(n, r, pay, told), h, log) && ReceivedIn(log) == got + [msg]
  {
    var len: nat := TurnsLength(n, r, Skip(r, |got|));
    var p, log, a := TurnsProgram(n, r, pay, told), TurnsLog(n, r, own, got, len), Received(Skip(r, |got|), msg);
    assert len < |p| == 2 * n - 2 && p[len] == TurnsOp(n, r, pay, told, len) && TurnsTaken(n, r, len) == |got|;
    hide Performing, ReceivedIn, TurnsProgram, TurnsLog, AllSuit, TurnsOp, Follows, Refuses, Suits, TurnsTaken,
         TurnsLength;
    TurnsPerforming(n, r, own, pay, told, h, got, len);
    assert got[..|got|] == got;
    TurnsRefusingStep(n, r, pay, told, h, got, msg);
    hide *;
    RefusalEnds(p, h, log, a);
  }

  lemma TurnsRefusingStep(n: nat, r: nat, pay: Pay, told: Told, h: History, got: seq<Message>, msg: Message)
    requires r < n && |got| < n - 1 && !Suits(told(Skip(r, |got|), r, h), msg)
    ensures 0 <= TurnsLength(n, r, Skip(r, |got|)) < 2 * n - 2
    ensures var len := TurnsLength(n, r, Skip(r, |got|));
      var op, a := TurnsOp(n, r, pay, told, len), Received(Skip(r, |got|), msg);
      Follows(op, h + got, a) && Refuses(op, h + got, a) && op.rest == 2 * n - 3 - len
  {
    EntryIs(h, got);
    hide Entry;
  }

  /** An Allgather, which stops at the first broadcast whose length is not the one it wants, performs
      the program of turns, to its end or up to there: it then leaves out its own broadcast too, if
      that has not been its turn yet. */
  lemma AllgatherPerforms(c: GatherCall, pay: Pay, told: Told, h: History, feed: seq<Option<Message>>, run: Run)
    returns (actions: seq<Action>)
    requires RanGather(c, feed, run) && c.mine == FanOutLog(c.r, Copies(c.n, c.own), c.n - 1) && run.status != 4
    requires forall d: nat | d < c.n && d != c.r :: pay(c.r, d, h) == c.own
    requires forall s: nat | s < c.n && s != c.r :: told(s, c.r, h) == Some(c.rc)
    ensures run.log' == run.log + actions && Performs(TurnsProgram(c.n, c.r, pay, told), h, actions)
    ensures FedWith(feed, ReceivedIn(actions))
  {
    hide *;
    var m, got := AllgatherHas(c, told, h, feed, run);
    if m == c.n - 1 {
      actions := TurnsLog(c.n, c.r, c.own, got, 2 * c.n - 2);
      TurnLogIs(c, got, c.n);
      TurnsPerformsAll(c.n, c.r, c.own, pay, told, h, got);
    } else {
      TurnLogIs(c, got, Skip(c.r, m));
      TurnsRefuses(c.n, c.r, c.own, pay, told, h, got, feed[m].value);
      FedOneMore(feed, got);
      actions := TurnsLog(c.n, c.r, c.own, got, TurnsLength(c.n, c.r, Skip(c.r, m)))
        + [Received(Skip(c.r, m), feed[m].value)];
    }
  }

  lemma AllgatherHas(c: GatherCall, told: Told, h: History, feed: seq<Option<Message>>, run: Run)
    returns (m: nat, got: seq<Message>)
    requires RanGather(c, feed, run) && run.status != 4
    requires forall s: nat | s < c.n && s != c.r :: told(s, c.r, h) == Some(c.rc)
    ensures c.r < c.n && m <= c.n - 1 <= |feed| && FedWith(feed, got) && |got| == m && AllSuit(c.r, told, h, got)
    ensures m == c.n - 1 ==> Others(c.r, c.n) == |got| && run.log' == run.log + TurnLog(c, got, c.n)
    ensures m == c.n - 1 ==> TurnsLength(c.n, c.r, c.n) == 2 * c.n - 2 && TurnsTaken(c.n, c.r, 2 * c.n - 2) <= |got|
    ensures m < c.n - 1 ==>
      && feed[m].Some? && !Suits(told(Skip(c.r, m), c.r, h), feed[m].value)
      && Skip(c.r, m) <= c.n && Others(c.r, Skip(c.r, m)) == |got|
      && run.log' == run.log + (TurnLog(c, got, Skip(c.r, m)) + [Received(Skip(c.r, m), feed[m].value)])
  {
    m, got := GatherActions(c, feed, run);
    assert c.r < c.n;
    hide RanGather, TurnLog;
  }

  // ---------------------------------------------------------------- two patterns in a row

  /** The actions are a run of one pattern, then one of another by a rank that knows more. */
  ghost predicate PerformsBoth(p: Program, q: Program, h: History, log: seq<Action>) {
    exists k: nat | k <= |log| :: Performs(p, h, log[..k]) && Performs(q, h + ReceivedIn(log[..k]), log[k..])
  }

  lemma BothPerformed(p: Program, q: Program, h: History, a: seq<Action>, b: seq<Action>)
    requires Performs(p, h, a) && Performs(q, h + ReceivedIn(a), b)
    ensures PerformsBoth(p, q, h, a + b)
  {
    assert (a + b)[..|a|] == a && (a + b)[|a|..] == b;
  }

  /** A Reduce performs the fan-in. */
  lemma ReducePerforms(n: nat, r: nat, root: nat, own: seq<int>, op: nat, pay: Pay, h: History,
                       feed: seq<Option<Message>>, run: Run)
    returns (actions: seq<Action>)
    requires RanReduce(n, r, root, own, op, feed, run) && (r != root ==> pay(r, root, h) == own)
    ensures run.log' == run.log + actions && Performs(FanInProgram(n, root, r, pay, Unchecked()), h, actions)
    ensures FedWith(feed, ReceivedIn(actions))
    ensures r == root ==> ReceivedIn(actions) == Taken(feed, n - 1)
  {
    hide FoldIn;
    if r == root {
      actions := FanInLog(root, Taken(feed, n - 1));
      TakenIsFed(feed, n - 1);
      FanInPerforms(n, root, pay, Unchecked(), h, Taken(feed, n - 1));
    } else {
      actions := [Sent(root, own)];
      FanInGives(n, root, r, pay, Unchecked(), h, own);
    }
  }

  /** An Allreduce with something to reduce performs a fan-in and then a fan-out of what has been folded. */
  lemma AllreducePerforms(n: nat, r: nat, own: seq<int>, op: nat, pay: Pay, answer: Pay, h: History,
                          feed: seq<Option<Message>>, run: Run) returns (actions: seq<Action>)
    requires RanAllreduce(n, r, own, op, feed, run) && own != []
    requires r != 0 ==> feed != [] && pay(r, 0, h) == own && feed[0].Some?
    requires r == 0 ==> n > 0 && AllArrive(feed, n - 1, |own|) && Long(Taken(feed, n - 1), |own|)
    requires r == 0 ==>
      var got := Taken(feed, n - 1); forall d: nat | d < n :: answer(0, d, h + got) == FoldIn(op, own, got)
    ensures run.log' == run.log + actions
    ensures PerformsBoth(FanInProgram(n, 0, r, pay, Unchecked()), FanOutProgram(n, 0, r, answer), h, actions)
    ensures FedWith(feed, ReceivedIn(actions))
  {
    hide *;
    if r == 0 {
      actions := RootAllreduces(n, own, op, pay, answer, h, feed, run);
    } else {
      actions := OtherAllreduces(n, r, own, op, pay, answer, h, feed, run);
    }
  }

  lemma RootAllreduces(n: nat, own: seq<int>, op: nat, pay: Pay, answer: Pay, h: History, feed: seq<Option<Message>>,
                       run: Run)
    returns (actions: seq<Action>)
    requires RanAllreduce(n, 0, own, op, feed, run) && own != []
    requires n > 0 && AllArrive(feed, n - 1, |own|) && Long(Taken(feed, n - 1), |own|)
    requires var got := Taken(feed, n - 1); forall d: nat | d < n :: answer(0, d, h + got) == FoldIn(op, own, got)
    ensures run.log' == run.log + actions
    ensures PerformsBoth(FanInProgram(n, 0, 0, pay, Unchecked()), FanOutProgram(n, 0, 0, answer), h, actions)
    ensures FedWith(feed, ReceivedIn(actions))
  {
    var p, q := FanInProgram(n, 0, 0, pay, Unchecked()), FanOutProgram(n, 0, 0, answer);
    var got, total := Taken(feed, n - 1), FoldIn(op, own, Taken(feed, n - 1));
    var log := FanOutLog(0, Copies(n, total), n - 1);
    assert run.log' == run.log + FanInLog(0, got) + log;
    hide RanAllreduce, FoldIn, FanInLog, FanOutLog, Performs, ReceivedIn, FanInProgram, FanOutProgram, PerformsBoth;
    TakenIsFed(feed, n - 1);
    Empty(got);
    assert AllSuit(0, Unchecked(), h, got);
    FanInPerforms(n, 0, pay, Unchecked(), h, got);
    FanOutPerforms(n, 0, Copies(n, total), answer, h + got);
    actions := InARow(p, q, h, run.log, FanInLog(0, got), log);
  }

  lemma OtherAllreduces(n: nat, r: nat, own: seq<int>, op: nat, pay: Pay, answer: Pay, h: History,
                        feed: seq<Option<Message>>, run: Run) returns (actions: seq<Action>)
    requires RanAllreduce(n, r, own, op, feed, run) && own != [] && r != 0 && feed != []
    requires pay(r, 0, h) == own && feed[0].Some?
    ensures run.log' == run.log + actions
    ensures PerformsBoth(FanInProgram(n, 0, r, pay, Unchecked()), FanOutProgram(n, 0, r, answer), h, actions)
    ensures FedWith(feed, ReceivedIn(actions))
  {
    var p, q := FanInProgram(n, 0, r, pay, Unchecked()), FanOutProgram(n, 0, r, answer);
    var msg := feed[0].value;
    assert run.log' == run.log + [Sent(0, own)] + [Received(0, msg)];
    assert FedWith(feed, [] + [msg]);
    hide RanAllreduce, Performs, ReceivedIn, FanInProgram, FanOutProgram, PerformsBoth, FedWith;
    FanInGives(n, 0, r, pay, Unchecked(), h, own);
    FanOutTakes(n, 0, r, answer, h + [], msg);
    actions := InARow(p, q, h, run.log, [Sent(0, own)], [Received(0, msg)]);
  }

  lemma InARow(p: Program, q: Program, h: History, log: seq<Action>, a: seq<Action>, b: seq<Action>)
    returns (actions: seq<Action>)
    requires Performs(p, h, a) && Performs(q, h + ReceivedIn(a), b)
    ensures log + a + b == log + actions && PerformsBoth(p, q, h, actions)
    ensures ReceivedIn(actions) == ReceivedIn(a) + ReceivedIn(b)
  {
    actions := a + b;
    hide Performs, ReceivedIn;
    assert log + a + b == log + (a + b);
    BothPerformed(p, q, h, a, b);
    ReceivedInBoth(a, b);
  }

  lemma {:induction false} ReceivedInBoth(a: seq<Action>, b: seq<Action>)
    ensures ReceivedIn(a + b) == ReceivedIn(a) + ReceivedIn(b)
    decreases |b|
  {
    if b == [] {
      assert a + b == a && ReceivedIn(b) == [];
    } else {
      var init, last := b[..|b| - 1], b[|b| - 1];
      assert a + b == (a + init) + [last] && b == init + [last];
      hide *;
      ReceivedInBoth(a, init);
      ReceivedInStep(a + init, last);
      ReceivedInStep(init, last);
      var x := if last.Received? then [last.data] else [];
      assert ReceivedIn(a) + ReceivedIn(init) + x == ReceivedIn(a) + (ReceivedIn(init) + x);
    }
  }

  ghost function FinishPay(): Pay { (s: nat, d: nat, h: History) => Finish }

  /** A Barrier performs a fan-in and then a fan-out of one-byte messages. */
  lemma BarrierPerforms(n: nat, r: nat, h: History, feed: seq<Option<Message>>, log: seq<Action>, log': seq<Action>)
    returns (actions: seq<Action>)
    requires r < n && (if r == 0 then AllArrive(feed, n - 1, 0) else feed != [] && feed[0].Some?)
    requires BarrierEffect(n, r, feed, log, log')
    ensures log' == log + actions
    ensures PerformsBoth(FanInProgram(n, 0, r, FinishPay(), Unchecked()), FanOutProgram(n, 0, r, FinishPay()), h,
                         actions)
    ensures FedWith(feed, ReceivedIn(actions))
  {
    var p, q := FanInProgram(n, 0, r, FinishPay(), Unchecked()), FanOutProgram(n, 0, r, FinishPay());
    if r == 0 {
      var got := Taken(feed, n - 1);
      TakenIsFed(feed, n - 1);
      var answers := FanOutLog(0, Copies(n, Finish), n - 1);
      assert log' == log + FanInLog(0, got) + answers;
      assert AllSuit(0, Unchecked(), h, got);
      assert forall d: nat | d < n :: FinishPay()(0, d, h + got) == Copies(n, Finish)[d];
      hide *;
      Empty(got);
      FanInPerforms(n, 0, FinishPay(), Unchecked(), h, got);
      FanOutPerforms(n, 0, Copies(n, Finish), FinishPay(), h + got);
      actions := InARow(p, q, h, log, FanInLog(0, got), answers);
    } else {
      var msg := feed[0].value;
      assert log' == log + [Sent(0, Finish)] + [Received(0, msg)];
      assert FedWith(feed, [] + [msg]);
      assert FinishPay()(r, 0, h) == Finish;
      hide *;
      FanInGives(n, 0, r, FinishPay(), Unchecked(), h, Finish);
      FanOutTakes(n, 0, r, FinishPay(), h + [], msg);
      actions := InARow(p, q, h, log, [Sent(0, Finish)], [Received(0, msg)]);
    }
  }
}
