/**
  A run in which irecv_ gives NULL at close although a message is queued.  A sends one empty message
  and closes; B takes the message up in an irecv_, and the CLOSE arrives while that same call waits
  for its acknowledgement to go out.
 */
module OverlookedMessage {
  import opened Wrappers
  import opened Transport

  const HELLO := Message([], 0)
  const NOTE := Desc(0, 0, 0)

  lemma {:induction false} RunsOn(p: Pair, moves: seq<Move>, q: Pair, m: Move)
    requires Runs(p, moves, q) && Can(q, m)
    ensures Runs(p, moves + [m], Next(q, m))
    decreases |moves|
  {
    if moves == [] {
      assert [m][1..] == [];
      assert moves + [m] == [m];
    } else {
      RunsOn(Next(p, moves[0]), moves[1..], q, m);
      assert (moves + [m])[1..] == moves[1..] + [m];
    }
  }

  lemma Then(p: Pair, m: Move) returns (q: Pair)
    requires Reachable(p) && Can(p, m)
    ensures q == Next(p, m) && Reachable(q)
  {
    var moves :| Runs(Pair(Fresh(), Fresh()), moves, p);
    q := Next(p, m);
    hide Next, Can, Fresh, Runs;
    RunsOn(Pair(Fresh(), Fresh()), moves, p, m);
  }

  lemma One(slot: nat)
    ensures SlotsIn([RecvDone(slot)]) == [slot] && Tokens([RecvDone(slot)]) == 0
    ensures SlotsIn([SendDone]) == [] && Tokens([SendDone]) == 1
    ensures SlotsIn([RecvDone(slot), SendDone]) == [slot] && Tokens([RecvDone(slot), SendDone]) == 1
  {
    assert [RecvDone(slot)][..0] == [] && [SendDone][..0] == [];
    assert [RecvDone(slot), SendDone][..1] == [RecvDone(slot)];
  }

  /** A's message has been delivered, and A's send_ waits for the completion that is there. */
  lemma MessageDelivered() returns (p: Pair)
    ensures Reachable(p)
    ensures p.a.recvQueue == [] && !p.a.closeFlag && p.b.sent == [] && p.b.peerBuffCount == 50 && p.b.copies == map[]
    ensures p.a.pc == Poll(Event, false, ForSend) && p.a.metadataCounter == 0 && p.a.ackCounter == 0 && !p.a.closeLock
    ensures p.a.cq == [SendDone] && p.a.sq == [] && p.a.done == [] && p.a.arm == Fired && p.a.wrQueue == []
    ensures p.a.rq == Numbers(50) && |p.a.slots| == 50
    ensures p.b.pc == Idle && !p.b.closeLock && !p.b.closeFlag && p.b.cq == [RecvDone(0)] && p.b.sq == [] &&
            p.b.done == []
    ensures p.b.arm == Fired && p.b.wrQueue == [] && p.b.recvQueue == [] && p.b.returned == []
    ensures |p.b.slots| == 50 && p.b.slots[0] == Meta(Normal, NOTE) && p.b.rq == Numbers(50)[1..]
  {
    p := Pair(Fresh(), Fresh());
    assert Runs(p, [], p);
    p := Then(p, Thread(A, Begin(CallSend(HELLO, 1))));
    p := Then(p, Thread(A, Go));
    p := Then(p, Deliver(A));
    p := Then(p, Finish(A));
  }

  /** A's send_ has returned. */
  lemma MessageSent() returns (p: Pair)
    ensures Reachable(p)
    ensures p.a.recvQueue == [] && !p.a.closeFlag && p.b.sent == [] && p.b.peerBuffCount == 50 && p.b.copies == map[]
    ensures p.a.pc == Idle && p.a.metadataCounter == 1 && p.a.ackCounter == 0 && !p.a.closeLock && p.a.wrQueue == []
    ensures p.a.cq == [] && p.a.sq == [] && p.a.done == [] && p.a.arm == Armed && p.a.rq == Numbers(50) &&
            |p.a.slots| == 50
    ensures p.b.pc == Idle && !p.b.closeLock && !p.b.closeFlag && p.b.cq == [RecvDone(0)] && p.b.sq == [] &&
            p.b.done == []
    ensures p.b.arm == Fired && p.b.wrQueue == [] && p.b.recvQueue == [] && p.b.returned == []
    ensures |p.b.slots| == 50 && p.b.slots[0] == Meta(Normal, NOTE) && p.b.rq == Numbers(50)[1..]
  {
    p := MessageDelivered();
    hide Reachable, Fresh, Numbers;
    One(0);
    p := Then(p, Thread(A, Go));
    p := Then(p, Thread(A, Go));
    p := Then(p, Thread(A, Go));
    p := Then(p, Thread(A, Go));
  }

  /** B has called irecv_ and taken the message up. */
  lemma TakenUp() returns (p: Pair)
    ensures Reachable(p)
    ensures p.a.recvQueue == [] && !p.a.closeFlag && p.b.sent == [] && p.b.peerBuffCount == 50 && p.b.copies == map[]
    ensures p.a.pc == Idle && p.a.metadataCounter == 1 && p.a.ackCounter == 0 && !p.a.closeLock && p.a.wrQueue == []
    ensures p.a.cq == [] && p.a.sq == [] && p.a.done == [] && p.a.arm == Armed && p.a.rq == Numbers(50) &&
            |p.a.slots| == 50
    ensures p.b.pc == Acking(0, HELLO, InIrecv) && !p.b.closeLock && !p.b.closeFlag
    ensures p.b.cq == [] && p.b.sq == [] && p.b.done == [] && p.b.arm == Fired && p.b.wrQueue == [] &&
            p.b.recvQueue == []
    ensures p.b.returned == [] && |p.b.slots| == 50 && p.b.slots[0] == Meta(Normal, NOTE) && p.b.rq == Numbers(50)[1..]
  {
    p := MessageSent();
    hide Reachable, Fresh, Numbers;
    One(0);
    p := Then(p, Thread(B, Begin(CallIrecv)));
    assert p.b.wrQueue == [0] && p.b.pc == Resolve(false, InIrecv);
    p := Then(p, Thread(B, Go));
  }

  /** B's acknowledgement has arrived at A. */
  lemma AckArrived() returns (p: Pair)
    ensures Reachable(p)
    ensures p.a.pc == Idle && p.a.metadataCounter == 1 && p.a.ackCounter == 0 && !p.a.closeLock && p.a.wrQueue == []
    ensures p.a.cq == [RecvDone(0)] && p.a.sq == [] && p.a.done == [] && p.a.arm == Fired
    ensures |p.a.slots| == 50 && p.a.slots[0] == Meta(Ack, NOTE)
    ensures p.b.pc == Poll(Event, false, ForAck(0, HELLO, InIrecv)) && !p.b.closeLock && !p.b.closeFlag
    ensures p.b.cq == [] && p.b.sq == [] && p.b.done == [SendDone] && p.b.arm == Fired && p.b.wrQueue == []
    ensures p.b.recvQueue == [] && p.b.returned == [] && |p.b.slots| == 50 && p.b.rq == Numbers(50)[1..]
  {
    p := TakenUp();
    assert p.a.rq[0] == 0;
    hide Reachable, Fresh, Numbers;
    p := Then(p, Thread(B, Go));
    assert p.b.sq == [SendSlot(0)] && SlotMeta(p.b, 0) == Meta(Ack, NOTE);
    p := Then(p, Deliver(B));
  }

  /** A has handled the acknowledgement and posted CLOSE. */
  lemma CloseSent() returns (p: Pair)
    ensures Reachable(p)
    ensures p.a.sq == [SendMeta(Meta(Close, NOTE))]
    ensures p.b.pc == Poll(Event, false, ForAck(0, HELLO, InIrecv)) && !p.b.closeLock && !p.b.closeFlag
    ensures p.b.cq == [] && p.b.sq == [] && p.b.done == [SendDone] && p.b.arm == Fired && p.b.wrQueue == []
    ensures p.b.recvQueue == [] && p.b.returned == [] && |p.b.slots| == 50 && p.b.rq == Numbers(50)[1..]
  {
    p := AckArrived();
    hide Reachable, Fresh, Numbers;
    One(0);
    p := Then(p, Thread(A, Begin(CallClose)));
    p := Then(p, Thread(A, Go));
    p := Then(p, Thread(A, Go));
    p := Then(p, Thread(A, Go));
    p := Then(p, Thread(A, Go));
    p := Then(p, Thread(A, Go));
  }

  /** CLOSE has been delivered to B, and B's acknowledgement is reported sent. */
  lemma CloseArrived() returns (p: Pair)
    ensures Reachable(p)
    ensures p.b.pc == Poll(Event, false, ForAck(0, HELLO, InIrecv)) && !p.b.closeLock && !p.b.closeFlag
    ensures p.b.cq == [RecvDone(1), SendDone] && p.b.arm == Fired && p.b.wrQueue == []
    ensures p.b.recvQueue == [] && p.b.returned == [] && |p.b.slots| == 50 && p.b.slots[1] == Meta(Close, NOTE)
  {
    p := CloseSent();
    assert p.b.rq[0] == 1;
    hide Reachable, Fresh, Numbers;
    p := Then(p, Deliver(A));
    assert p.b.cq == [RecvDone(1)] && p.b.slots[1] == Meta(Close, NOTE);
    p := Then(p, Finish(B));
  }

  /** B's poll_wc has taken both completions. */
  lemma BothTaken() returns (p: Pair)
    ensures Reachable(p)
    ensures p.b.pc == Poll(Rearm, true, ForAck(0, HELLO, InIrecv)) && !p.b.closeLock && !p.b.closeFlag
    ensures p.b.wrQueue == [1] && p.b.recvQueue == [] && p.b.returned == []
    ensures |p.b.slots| == 50 && p.b.slots[1] == Meta(Close, NOTE)
  {
    p := CloseArrived();
    hide Reachable, Fresh, Numbers;
    One(1);
    p := Then(p, Thread(B, Go));
    p := Then(p, Thread(B, Go));
  }

  /** The irecv_ has returned NULL, and the message is in the queue. */
  lemma IrecvOverlooks() returns (p: Pair)
    ensures Reachable(p)
    ensures p.b.pc == Idle && p.b.closeFlag && p.b.returned == [] && p.b.recvQueue == [HELLO]
  {
    p := BothTaken();
    hide Reachable, Fresh, Numbers;
    p := Then(p, Thread(B, Go));
    assert p.b.pc == Resolve(true, InIrecv) && p.b.recvQueue == [HELLO] && p.b.wrQueue == [1];
    assert SlotMeta(p.b, 1).typ == Close;
    p := Then(p, Thread(B, Go));
  }
}
