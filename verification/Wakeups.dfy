/**
  What a thread that waits for a notification waits for; and a run in which the notification never comes
  although a message is there.
 */
module Wakeups {
  import opened Wrappers
  import opened Transport
  import opened Flow
  import opened Sockets
  import opened SocketSteps
  import opened Connection
  import opened Adapters
  import opened TransportCalls
  import opened OverlookedMessage

  // ---------------------------------------------------------------- nobody waits in vain

  /** A thread waits only with nothing left to handle: recv_ with no message queued and no CLOSE noted, close_
      with acknowledgements missing, send_ without a credit. */
  ghost predicate WaitsRightly(t: Side) {
    match t.pc
    case Poll(stage, _, ForMessage) =>
      t.recvQueue == [] && !t.closeFlag && (stage != Rearm ==> t.wrQueue == [])
    case Poll(stage, _, ForAllAcks) =>
      t.ackCounter < t.metadataCounter && (stage != Rearm ==> t.wrQueue == [])
    case Poll(stage, _, ForCredit(_, _)) =>
      t.peerBuffCount <= 0 && (stage != Rearm ==> t.wrQueue == [])
    case Resolve(got, InRecvLoop) => (!got ==> t.recvQueue == []) && !t.closeFlag
    case Acking(_, _, InRecvLoop) => !t.closeFlag
    case Poll(_, _, ForRead(_, InRecvLoop)) => !t.closeFlag
    case Poll(_, _, ForAck(_, _, InRecvLoop)) => !t.closeFlag
    case _ => true
  }

  lemma PollWaits(t: Side)
    requires WaitsRightly(t) && t.pc.Poll?
    ensures t.pc.stage == Event ==> WaitsRightly(PollEvent(t))
    ensures t.pc.stage == Drain ==> WaitsRightly(PollDrain(t))
    ensures t.pc.stage == Rearm ==> WaitsRightly(PollReturn(t))
  {
    hide SlotsIn, Tokens;
  }

  lemma ResolvedWaits(t: Side, flag: Flag)
    requires WaitsRightly(t) && t.pc.Resolve? && (flag == NoMessage ==> !t.pc.got) && t.wrQueue == []
    ensures WaitsRightly(Resolved(t, flag))
  {
  }

  lemma NormalWaits(t: Side)
    requires WaitsRightly(t) && t.pc.Resolve? && t.wrQueue != [] && SlotMeta(t, t.wrQueue[0]).typ != Close
    ensures WaitsRightly(ResolveStep(t))
  {
    hide Resolved;
  }

  lemma HandlingWaits(t: Side)
    requires OkSide(t) && WaitsRightly(t) && t.pc.Resolve?
    ensures WaitsRightly(ResolveStep(t))
  {
    if t.wrQueue == [] {
      ResolvedWaits(t, if t.pc.got then GotMessage else NoMessage);
    } else if SlotMeta(t, t.wrQueue[0]).typ == Close {
      LastIsClose(t);
      ResolvedWaits(CloseTaken(t), PeerClosed);
    } else {
      NormalWaits(t);
    }
    hide Resolved, OkSide, SlotsIn, HandleNormal, HandleAck;
  }

  lemma LastIsClose(t: Side)
    requires OkSide(t) && t.pc.Resolve? && t.wrQueue != [] && SlotMeta(t, t.wrQueue[0]).typ == Close
    ensures CloseTaken(t).wrQueue == []
  {
    HandleCloseKeeps(t);
    hide OkSide, SlotsIn;
  }

  lemma BeginWaits(t: Side, act: Act)
    requires OkSide(t) && ThreadCan(t, act) && act.Begin?
    ensures WaitsRightly(ThreadStep(t, act))
  {
    assert t.wrQueue == [] by { IdleHasHandled(t); }
    hide OkSide;
    BeginsRightly(t, act);
  }

  lemma BeginsRightly(t: Side, act: Act)
    requires ThreadCan(t, act) && act.Begin? && t.wrQueue == []
    ensures WaitsRightly(ThreadStep(t, act))
  {
    hide SlotsIn, DescOf;
  }

  lemma IdleHasHandled(t: Side)
    requires OkSide(t) && t.pc.Idle?
    ensures t.wrQueue == []
  {
    assert PcOk(t);
  }

  lemma ThreadWaits(t: Side, act: Act)
    requires OkSide(t) && WaitsRightly(t) && ThreadCan(t, act)
    ensures WaitsRightly(ThreadStep(t, act))
  {
    hide OkSide, WaitsRightly, PollEvent, PollDrain, PollReturn, ResolveStep, SendBegin, RecvBegin, CloseBegin;
    match act
    case Begin(_) => BeginWaits(t, act);
    case Go =>
      match t.pc {
        case Poll(_, _, _) => PollWaits(t);
        case Resolve(_, _) => HandlingWaits(t);
        case _ => PostWaits(t);
      }
  }

  lemma PostWaits(t: Side)
    requires WaitsRightly(t)
    ensures t.pc.Posting? ==> WaitsRightly(SendPost(t))
    ensures t.pc.Acking? ==> WaitsRightly(AckPost(t))
  {
  }

  lemma OthersLeaveWaiting(p: Pair, m: Move, e: End)
    requires Can(p, m) && !(m.Thread? && m.end == e)
    ensures var t, t' := Mine(p, e), Mine(Next(p, m), e);
      && t'.pc == t.pc && t'.recvQueue == t.recvQueue && t'.wrQueue == t.wrQueue && t'.closeFlag == t.closeFlag
      && t'.ackCounter == t.ackCounter && t'.metadataCounter == t.metadataCounter
      && t'.peerBuffCount == t.peerBuffCount
  {
    hide ThreadStep, SlotsIn, Fetched, Content;
  }

  lemma StillWaits(t: Side, t': Side)
    requires WaitsRightly(t) && t'.pc == t.pc && t'.recvQueue == t.recvQueue && t'.wrQueue == t.wrQueue
    requires t'.closeFlag == t.closeFlag && t'.ackCounter == t.ackCounter && t'.metadataCounter == t.metadataCounter
    requires t'.peerBuffCount == t.peerBuffCount
    ensures WaitsRightly(t')
  {
  }

  lemma OkMine(p: Pair, e: End)
    requires OkPair(p)
    ensures OkSide(Mine(p, e))
  {
    hide OkSide, Link;
  }

  lemma MoveWaits(p: Pair, m: Move, e: End)
    requires OkPair(p) && WaitsRightly(Mine(p, e)) && Can(p, m)
    ensures WaitsRightly(Mine(Next(p, m), e))
  {
    hide *;
    if m.Thread? && m.end == e {
      OwnStep(p, m);
      OkMine(p, e);
      ThreadWaits(Mine(p, e), m.act);
    } else {
      OthersLeaveWaiting(p, m, e);
      StillWaits(Mine(p, e), Mine(Next(p, m), e));
    }
  }

  lemma {:induction false} RunWaits(p: Pair, moves: seq<Move>, fin: Pair, e: End)
    requires OkPair(p) && WaitsRightly(Mine(p, e)) && Runs(p, moves, fin)
    ensures WaitsRightly(Mine(fin, e))
    decreases |moves|
  {
    hide OkPair, WaitsRightly, Next, Can;
    if moves != [] {
      MoveKeepsPair(p, moves[0]);
      MoveWaits(p, moves[0], e);
      RunWaits(Next(p, moves[0]), moves[1..], fin, e);
    }
  }

  /** In every reachable state, a thread that waits for a notification has handled everything it has taken
      over; a recv_ waits only if no message is queued and no CLOSE noted, a close_ only for
      acknowledgements that are missing, and a send_ only if it has no credit. */
  lemma WaitingIsRight(p: Pair, e: End)
    requires Reachable(p) && Mine(p, e).pc.Poll? && Mine(p, e).pc.stage == Event
    ensures var t := Mine(p, e);
      && (t.pc.why.ForMessage? ==> t.recvQueue == [] && t.wrQueue == [] && !t.closeFlag)
      && (t.pc.why.ForAllAcks? ==> t.ackCounter < t.metadataCounter && t.wrQueue == [])
      && (t.pc.why.ForCredit? ==> t.peerBuffCount <= 0 && t.wrQueue == [])
  {
    hide *;
    var moves := SomeRun(p);
    StartWaits(e);
    RunWaits(Pair(Fresh(), Fresh()), moves, p, e);
    WaitsIs(Mine(p, e));
  }

  lemma SomeRun(p: Pair) returns (moves: seq<Move>)
    requires Reachable(p)
    ensures Runs(Pair(Fresh(), Fresh()), moves, p)
  {
    hide Runs, Fresh;
    moves :| Runs(Pair(Fresh(), Fresh()), moves, p);
  }

  lemma StartWaits(e: End)
    ensures OkPair(Pair(Fresh(), Fresh())) && WaitsRightly(Mine(Pair(Fresh(), Fresh()), e))
  {
    FreshIsOk();
    hide OkSide, Link;
  }

  lemma WaitsIs(t: Side)
    requires WaitsRightly(t) && t.pc.Poll? && t.pc.stage == Event
    ensures t.pc.why.ForMessage? ==> t.recvQueue == [] && t.wrQueue == [] && !t.closeFlag
    ensures t.pc.why.ForAllAcks? ==> t.ackCounter < t.metadataCounter && t.wrQueue == []
    ensures t.pc.why.ForCredit? ==> t.peerBuffCount <= 0 && t.wrQueue == []
  {
  }

  // ---------------------------------------------------------------- when a notification is lost

  /** Completions in the queue have been announced. */
  ghost predicate Heard(t: Side) {
    t.arm == Armed ==> t.cq == []
  }

  /** poll_wc is about to ask for the next notification. */
  predicate AtRearm(t: Side, act: Act) {
    act == Go && t.pc.Poll? && t.pc.stage == Rearm
  }

  lemma OwnStepHeard(t: Side, act: Act)
    requires Heard(t) && ThreadCan(t, act)
    ensures Heard(ThreadStep(t, act)) <==> !(AtRearm(t, act) && t.cq != [])
  {
    hide PollEvent, PollDrain, PollReturn, ResolveStep, SendBegin, RecvBegin, CloseBegin;
    match act
    case Begin(_) => BeginHeard(t, act);
    case Go =>
      match t.pc {
        case Poll(_, _, _) => PollHeard(t);
        case Resolve(_, _) => ResolveHeard(t);
        case _ =>
      }
  }

  lemma BeginHeard(t: Side, act: Act)
    requires Heard(t) && ThreadCan(t, act) && act.Begin?
    ensures Heard(ThreadStep(t, act))
  {
    hide SlotsIn, DescOf;
  }

  lemma PollHeard(t: Side)
    requires t.pc.Poll?
    ensures Heard(PollEvent(t)) && Heard(PollDrain(t))
    ensures Heard(PollReturn(t)) <==> t.cq == []
  {
    hide SlotsIn, Tokens;
  }

  lemma ResolvedLeavesArm(t: Side, flag: Flag)
    requires t.pc.Resolve?
    ensures Resolved(t, flag).arm == t.arm && Resolved(t, flag).cq == t.cq
  {
    match t.pc.caller {
      case InSend =>
      case InRecv =>
      case InRecvLoop =>
      case InIrecv =>
      case InClose =>
    }
  }

  lemma ResolveHeard(t: Side)
    requires t.pc.Resolve?
    ensures Heard(t) ==> Heard(ResolveStep(t))
  {
    if t.wrQueue == [] {
      ResolvedLeavesArm(t, if t.pc.got then GotMessage else NoMessage);
    } else if SlotMeta(t, t.wrQueue[0]).typ == Close {
      ResolvedLeavesArm(CloseTaken(t), PeerClosed);
    }
    hide Resolved;
  }

  lemma OthersLeaveHeard(p: Pair, m: Move, e: End)
    requires Can(p, m) && !(m.Thread? && m.end == e) && Heard(Mine(p, e))
    ensures Heard(Mine(Next(p, m), e))
  {
    hide ThreadStep, SlotsIn, Fetched, Content;
  }

  /** A notification is lost, by any move of either end or its adapter, if and only if poll_wc asks for the next
      one while a completion that it has not looked at stands in the queue. */
  lemma LostOnlyAtRearm(p: Pair, m: Move, e: End)
    requires Can(p, m) && Heard(Mine(p, e))
    ensures Heard(Mine(Next(p, m), e)) <==>
            !(m.Thread? && m.end == e && AtRearm(Mine(p, e), m.act) && Mine(p, e).cq != [])
  {
    hide *;
    if m.Thread? && m.end == e {
      OwnStep(p, m);
      OwnStepHeard(Mine(p, e), m.act);
    } else {
      OthersLeaveHeard(p, m, e);
    }
  }

  // ---------------------------------------------------------------- a notification that does not come

  /** A, which has sent a message, waits in recv_. */
  lemma Asleep() returns (p: Pair)
    ensures Reachable(p)
    ensures p.b.sent == [] && p.b.peerBuffCount == 50 && p.b.copies == map[]
    ensures p.a.pc == Poll(Event, false, ForMessage) && p.a.arm == Armed && p.a.wrQueue == [] && p.a.cq == []
    ensures p.a.sq == [] && p.a.done == [] && p.a.rq == Numbers(50) && |p.a.slots| == 50
    ensures p.a.recvQueue == [] && !p.a.closeFlag && !p.a.closeLock
    ensures p.b.pc == Acking(0, HELLO, InIrecv) && !p.b.closeLock && !p.b.closeFlag && p.b.cq == [] && p.b.sq == []
    ensures p.b.done == [] && p.b.arm == Fired && p.b.wrQueue == [] && p.b.recvQueue == [] && p.b.returned == []
    ensures |p.b.slots| == 50 && p.b.slots[0] == Meta(Normal, NOTE)
  {
    p := TakenUp();
    assert SlotsIn([]) == [] && p.a.wrQueue + [] == [];
    hide Reachable, Fresh, Numbers;
    p := Then(p, Thread(A, Begin(CallRecv)));
    p := Then(p, Thread(A, Go));
  }

  /** B's acknowledgement has arrived at A and woken it up. */
  lemma Woken() returns (p: Pair)
    ensures Reachable(p)
    ensures p.b.sent == [] && p.b.peerBuffCount == 50 && p.b.copies == map[]
    ensures p.a.pc == Poll(Event, false, ForMessage) && p.a.arm == Fired && p.a.wrQueue == []
    ensures p.a.cq == [RecvDone(0)]
    ensures p.a.sq == [] && p.a.done == [] && p.a.rq == Numbers(50)[1..]
    ensures |p.a.slots| == 50 && p.a.slots[0] == Meta(Ack, NOTE)
    ensures p.a.recvQueue == [] && !p.a.closeFlag && !p.a.closeLock
    ensures p.b.pc == Poll(Event, false, ForAck(0, HELLO, InIrecv)) && !p.b.closeLock && !p.b.closeFlag
    ensures p.b.cq == [] && p.b.sq == [] && p.b.done == [SendDone] && p.b.arm == Fired && p.b.wrQueue == []
    ensures p.b.recvQueue == [] && p.b.returned == [] && |p.b.slots| == 50
  {
    p := Asleep();
    assert p.a.rq[0] == 0;
    hide Reachable, Fresh, Numbers;
    p := Then(p, Thread(B, Go));
    assert p.b.sq == [SendSlot(0)] && SlotMeta(p.b, 0) == Meta(Ack, NOTE);
    p := Then(p, Deliver(B));
  }

  /** A's poll_wc has emptied the completion queue, and has not asked for the next notification yet. */
  lemma Emptied() returns (p: Pair)
    ensures Reachable(p)
    ensures p.b.sent == [] && p.b.peerBuffCount == 50 && p.b.copies == map[]
    ensures p.a.pc == Poll(Rearm, false, ForMessage) && p.a.arm == Disarmed && p.a.wrQueue == [0]
    ensures p.a.cq == []
    ensures p.a.sq == [] && p.a.done == [] && p.a.rq == Numbers(50)[1..]
    ensures |p.a.slots| == 50 && p.a.slots[0] == Meta(Ack, NOTE)
    ensures p.a.recvQueue == [] && !p.a.closeFlag && !p.a.closeLock
    ensures p.b.pc == Poll(Event, false, ForAck(0, HELLO, InIrecv)) && !p.b.closeLock && !p.b.closeFlag
    ensures p.b.cq == [SendDone] && p.b.sq == [] && p.b.done == [] && p.b.arm == Fired && p.b.wrQueue == []
    ensures p.b.recvQueue == [] && p.b.returned == [] && |p.b.slots| == 50
  {
    p := Woken();
    hide Reachable, Fresh, Numbers;
    One(0);
    p := Then(p, Thread(A, Go));
    p := Then(p, Thread(A, Go));
    assert p.a.wrQueue == [0];
    p := Then(p, Finish(B));
  }

  /** B's irecv_ has returned the message. */
  lemma FirstReturned() returns (p: Pair)
    ensures Reachable(p)
    ensures p.b.peerBuffCount == 50 && p.b.copies == map[]
    ensures p.a.pc == Poll(Rearm, false, ForMessage) && p.a.arm == Disarmed && p.a.wrQueue == [0]
    ensures p.a.cq == []
    ensures p.a.sq == [] && p.a.done == [] && p.a.rq == Numbers(50)[1..]
    ensures |p.a.slots| == 50 && p.a.slots[0] == Meta(Ack, NOTE)
    ensures p.a.recvQueue == [] && !p.a.closeFlag && !p.a.closeLock
    ensures p.b.pc == Idle && !p.b.closeLock && p.b.cq == [] && p.b.sq == [] && p.b.done == [] && p.b.wrQueue == []
    ensures p.b.arm == Armed && p.b.sent == [] && p.b.returned == [HELLO]
  {
    p := Emptied();
    hide Reachable, Fresh, Numbers;
    One(0);
    p := Then(p, Thread(B, Go));
    p := Then(p, Thread(B, Go));
    assert p.b.wrQueue == [] && p.b.cq == [] && p.b.pc.saw;
    p := Then(p, Thread(B, Go));
    assert p.b.pc == Resolve(true, InIrecv) && p.b.recvQueue == [HELLO];
    p := Then(p, Thread(B, Go));
  }

  /** B has answered, and its message has arrived at A. */
  lemma Answered() returns (p: Pair)
    ensures Reachable(p)
    ensures p.a.pc == Poll(Rearm, false, ForMessage) && p.a.arm == Disarmed && p.a.wrQueue == [0]
    ensures p.a.cq == [RecvDone(1)] && |p.a.slots| == 50
    ensures p.a.slots[0] == Meta(Ack, NOTE) && p.a.slots[1] == Meta(Normal, NOTE)
    ensures p.a.sq == [] && p.a.done == [] && p.a.recvQueue == [] && !p.a.closeFlag && !p.a.closeLock
    ensures p.b.pc == Poll(Event, false, ForSend) && p.b.cq == [] && p.b.sq == [] && p.b.done == [SendDone]
    ensures p.b.arm == Armed && p.b.sent == [HELLO] && p.b.wrQueue == []
  {
    p := FirstReturned();
    assert p.a.rq[0] == 1;
    hide Reachable, Fresh, Numbers;
    p := Then(p, Thread(B, Begin(CallSend(HELLO, 1))));
    assert p.b.pc == Posting(NOTE, HELLO);
    p := Then(p, Thread(B, Go));
    assert p.b.sq == [SendMeta(Meta(Normal, NOTE))];
    p := Then(p, Deliver(B));
  }

  /** B's send_ has returned. */
  lemma AnswerSent() returns (p: Pair)
    ensures Reachable(p)
    ensures p.a.pc == Poll(Rearm, false, ForMessage) && p.a.arm == Disarmed && p.a.wrQueue == [0]
    ensures p.a.cq == [RecvDone(1)] && |p.a.slots| == 50
    ensures p.a.slots[0] == Meta(Ack, NOTE) && p.a.slots[1] == Meta(Normal, NOTE)
    ensures p.a.sq == [] && p.a.done == [] && p.a.recvQueue == [] && !p.a.closeFlag && !p.a.closeLock
    ensures p.b.pc == Idle && p.b.cq == [] && p.b.sq == [] && p.b.done == [] && p.b.sent == [HELLO]
  {
    p := Answered();
    hide Reachable, Fresh, Numbers;
    One(0);
    p := Then(p, Finish(B));
    assert p.b.cq == [SendDone] && p.b.arm == Fired;
    p := Then(p, Thread(B, Go));
    p := Then(p, Thread(B, Go));
    assert p.b.wrQueue == [] && p.b.cq == [] && p.b.pc.saw;
    p := Then(p, Thread(B, Go));
    p := Then(p, Thread(B, Go));
  }

  /** A lost wake-up: the answer has arrived between A's last look at the completion queue and its asking for
      the next notification.  A waits in recv_ with the answer in its completion queue; both send queues are
      empty and every completion has been reported, so nothing but a further call of B can move A on. */
  lemma RecvSleeps() returns (p: Pair)
    ensures Reachable(p)
    ensures p.a.pc == Poll(Event, false, ForMessage) && p.a.cq == [RecvDone(1)] && SlotMeta(p.a, 1).typ == Normal
    ensures p.b.pc == Idle && p.b.sent == [HELLO]
    ensures forall m | Can(p, m) :: m.Thread? && m.end == B && m.act.Begin?
  {
    p := AnswerSent();
    hide Reachable, Fresh, Numbers;
    p := Then(p, Thread(A, Go));
    assert p.a.pc == Resolve(false, InRecvLoop) && p.a.arm == Armed;
    p := Then(p, Thread(A, Go));
    assert p.a.wrQueue == [] && p.a.slots[1] == Meta(Normal, NOTE) && p.a.pc == Resolve(false, InRecvLoop);
    p := Then(p, Thread(A, Go));
    assert p.a.arm == Armed;
  }
}
