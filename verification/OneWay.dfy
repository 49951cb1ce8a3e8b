/**
  Traffic one way only: A calls nothing but send_, B nothing but recv_ and irecv_.  Then the credit
  guard of send_ keeps the number of descriptors under way within the 50 slots of the peer.

  The guard polls once and then posts, whatever that poll brought.  It is enough here because the
  only thing that can wake it is an acknowledgement.
 */
module OneWay {
  import opened Wrappers
  import opened Transport
  import opened Flow
  import opened Sockets
  import opened SocketSteps
  import opened Connection
  import opened Adapters

  predicate OneWayMove(m: Move) {
    match m
    case Thread(A, Begin(call)) => call.CallSend?
    case Thread(B, Begin(call)) => call.CallRecv? || call.CallIrecv?
    case _ => true
  }

  ghost predicate ReachableOneWay(p: Pair) {
    exists moves ::
      Runs(Pair(Fresh(), Fresh()), moves, p) && forall k | 0 <= k < |moves| :: OneWayMove(moves[k])
  }

  // ---------------------------------------------------------------- the receiver

  /** B never sends a message and never closes. */
  ghost predicate OnlyReceives(s: Side) {
    && s.posted == [] && !s.closePosted
    && match s.pc
       case Idle => true
       case Resolve(_, caller) => caller != InSend && caller != InClose
       case Acking(_, _, caller) => caller != InSend && caller != InClose
       case Poll(_, _, ForRead(_, caller)) => caller != InSend && caller != InClose
       case Poll(_, _, ForAck(_, _, caller)) => caller != InSend && caller != InClose
       case Poll(_, _, why) => why.ForMessage?
       case _ => false
  }

  lemma ReceiverPolls(s: Side)
    requires OnlyReceives(s) && s.pc.Poll?
    ensures OnlyReceives(PollReturn(s))
  {
  }

  lemma ReceiverResolved(s: Side, flag: Flag)
    requires OnlyReceives(s) && s.pc.Resolve?
    ensures OnlyReceives(Resolved(s, flag))
  {
  }

  lemma ReceiverResolves(s: Side)
    requires OnlyReceives(s) && s.pc.Resolve?
    ensures OnlyReceives(ResolveStep(s))
  {
    if s.wrQueue == [] {
      ReceiverResolved(s, if s.pc.got then GotMessage else NoMessage);
    } else {
      ReceiverResolved(s.(wrQueue := s.wrQueue[1..], rq := s.rq + [s.wrQueue[0]]), PeerClosed);
    }
    hide Resolved;
  }

  lemma ReceiverKeeps(s: Side, act: Act)
    requires OnlyReceives(s) && ThreadCan(s, act) && (act.Begin? ==> act.call.CallRecv? || act.call.CallIrecv?)
    ensures OnlyReceives(ThreadStep(s, act))
  {
    if s.pc.Poll? { ReceiverPolls(s); }
    if s.pc.Resolve? { ReceiverResolves(s); }
    hide SlotsIn, Tokens, PollReturn, ResolveStep;
  }

  // ---------------------------------------------------------------- the sender

  /** What the sender has to spend: its credits and, on credit, an acknowledgement it has drained. */
  ghost predicate Funds(s: Side) {
    match s.pc
    case Idle => s.peerBuffCount >= 0
    case Posting(_, _) => s.peerBuffCount > 0 || (s.peerBuffCount == 0 && s.wrQueue != [])
    case Poll(stage, _, ForCredit(_, _)) => s.peerBuffCount == 0 && (stage == Rearm ==> s.wrQueue != [])
    case Poll(_, _, ForSend) => s.peerBuffCount >= 0 || (s.peerBuffCount == -1 && s.wrQueue != [])
    case Resolve(_, caller) => caller == InSend && (s.peerBuffCount >= 0 || (s.peerBuffCount == -1 && s.wrQueue != []))
    case _ => false
  }

  /** An event of the completion queue stands for a completion that is still there. */
  ghost predicate Woken(s: Side) {
    && (s.arm == Fired ==> s.cq != [])
    && (s.pc.Poll? && s.pc.stage != Event ==> s.arm == Disarmed)
    && (s.pc.Poll? && s.pc.stage == Drain ==> s.cq != [])
  }

  /** All that arrives at the sender are acknowledgements. */
  ghost predicate OnlyAcks(s: Side) {
    forall i | i in Held(s) :: SlotMeta(s, i).typ == Ack
  }

  ghost predicate OnlySends(s: Side) {
    Funds(s) && Woken(s)
  }

  lemma {:induction false} AllSlotsIfNoTokens(cq: seq<Cqe>)
    ensures |SlotsIn(cq)| + Tokens(cq) == |cq|
  {
    if cq != [] {
      AllSlotsIfNoTokens(cq[..|cq| - 1]);
    }
  }

  lemma SenderResolves(s: Side)
    requires OkSide(s) && OnlyAcks(s) && OnlySends(s) && s.pc.Resolve?
    ensures OnlySends(ResolveStep(s))
  {
    if s.wrQueue != [] {
      assert s.wrQueue[0] in Held(s);
    }
    hide OkSide, Held, OnlyAcks, SlotsIn;
  }

  lemma SenderPolls(s: Side)
    requires OkSide(s) && OnlySends(s) && ThreadCan(s, Go) && s.pc.Poll?
    ensures OnlySends(ThreadStep(s, Go))
  {
    AllSlotsIfNoTokens(s.cq);
    hide SlotsOk, HeldOk, SqOk, CountersOk, CopiesOk, Held, SlotsIn, Tokens;
  }

  lemma SenderKeeps(s: Side, act: Act)
    requires OkSide(s) && OnlyAcks(s) && OnlySends(s) && ThreadCan(s, act) && (act.Begin? ==> act.call.CallSend?)
    ensures OnlySends(ThreadStep(s, act))
  {
    if s.pc.Resolve? { SenderResolves(s); }
    if s.pc.Poll? { SenderPolls(s); }
    hide OkSide, OnlyAcks, PollEvent, PollDrain, PollReturn, ResolveStep;
  }

  // ---------------------------------------------------------------- both

  ghost predicate OneWayOk(p: Pair) {
    OkPair(p) && OnlySends(p.a) && OnlyReceives(p.b)
  }

  lemma PickNone(slots: seq<Meta>, held: seq<nat>, typ: MetaType)
    requires Pick(slots, held, typ) == []
    ensures forall i | i in held :: MetaAt(slots, i).typ != typ
    decreases |held|
  {
    if held != [] {
      PickNone(slots, held[..|held| - 1], typ);
    }
  }

  /** The parts of the invariant of the two ends that are used here. */
  lemma OneWayParts(p: Pair)
    requires OneWayOk(p)
    ensures OkSide(p.a) && OkSide(p.b) && OnlySends(p.a) && OnlyReceives(p.b)
    ensures FlowOk(SendSide(p.a), RecvSide(p.b)) && FlowOk(SendSide(p.b), RecvSide(p.a))
    ensures HasClose(p.a.slots, Held(p.a)) ==> p.b.closePosted
    ensures HasClose(p.b.slots, Held(p.b)) ==> p.a.closePosted
  {
    hide OkSide, FlowOk, OnlySends, OnlyReceives, HasClose, Held;
  }

  /** A socket that never sends leaves nothing for the peer to receive, and has no acknowledgements. */
  lemma SilentPeer(f: SendPart, r: RecvPart)
    requires FlowOk(f, r) && f.posted == []
    ensures r.normals == [] && r.current == None && f.acks == []
  {
  }

  lemma OthersAreAcks(slots: seq<Meta>, held: seq<nat>)
    requires HeldOk(slots, held) && Pick(slots, held, Normal) == [] && !HasClose(slots, held)
    ensures forall i | i in held :: MetaAt(slots, i).typ == Ack
  {
    PickNone(slots, held, Normal);
    hide Pick;
  }

  lemma OthersAreNormal(slots: seq<Meta>, held: seq<nat>)
    requires HeldOk(slots, held) && Pick(slots, held, Ack) == [] && !HasClose(slots, held)
    ensures forall i | i in held :: MetaAt(slots, i).typ == Normal
  {
    PickNone(slots, held, Ack);
    hide Pick;
  }

  lemma HeldIsOk(s: Side)
    requires OkSide(s)
    ensures HeldOk(s.slots, Held(s)) && multiset(Held(s)) + multiset(s.rq) + multiset(SlotInHand(s.pc)) == AllSlots()
    ensures s.closePosted ==> s.pc.Closed?
  {
    hide HeldOk, Held;
  }

  lemma ArrivalsAreAcks(p: Pair)
    requires OneWayOk(p)
    ensures OnlyAcks(p.a)
  {
    OneWayParts(p);
    SilentPeer(SendSide(p.b), RecvSide(p.a));
    HeldIsOk(p.a);
    assert RecvSide(p.a).normals == Pick(p.a.slots, Held(p.a), Normal);
    hide OkSide, FlowOk, Held, Pick, HeldOk, HasClose, OnlySends, SendSide, RecvSide;
    OthersAreAcks(p.a.slots, Held(p.a));
  }

  lemma AdapterKeepsOneWay(p: Pair, m: Move)
    requires OnlySends(p.a) && OnlyReceives(p.b) && Can(p, m) && !m.Thread?
    ensures OnlySends(Next(p, m).a) && OnlyReceives(Next(p, m).b)
  {
  }

  lemma MoveKeepsOneWay(p: Pair, m: Move)
    requires OneWayOk(p) && Can(p, m) && OneWayMove(m)
    ensures OneWayOk(Next(p, m))
  {
    MoveKeepsPair(p, m);
    ArrivalsAreAcks(p);
    OneWayParts(p);
    hide OkPair, OkSide, FlowOk, OnlyAcks, OnlySends, OnlyReceives, ThreadStep, ThreadCan, HasClose, Held;
    if m.Thread? {
      if m.end == A {
        SenderKeeps(p.a, m.act);
      } else {
        ReceiverKeeps(p.b, m.act);
      }
    } else {
      AdapterKeepsOneWay(p, m);
    }
  }

  lemma {:induction false} RunKeepsOneWay(p: Pair, moves: seq<Move>, fin: Pair)
    requires OneWayOk(p) && Runs(p, moves, fin) && forall k | 0 <= k < |moves| :: OneWayMove(moves[k])
    ensures OneWayOk(fin)
    decreases |moves|
  {
    hide OneWayOk, Next, Can, OneWayMove;
    if moves != [] {
      MoveKeepsOneWay(p, moves[0]);
      RunKeepsOneWay(Next(p, moves[0]), moves[1..], fin);
    }
  }

  lemma FreshIsOneWay()
    ensures OneWayOk(Pair(Fresh(), Fresh()))
  {
    FreshIsOk();
    hide OkSide, Link;
  }

  lemma OneWayIsOk(p: Pair)
    requires ReachableOneWay(p)
    ensures OneWayOk(p)
  {
    var start := Pair(Fresh(), Fresh());
    hide OneWayOk, Runs, Fresh, OneWayMove;
    FreshIsOneWay();
    var moves :| Runs(start, moves, p) && forall k | 0 <= k < |moves| :: OneWayMove(moves[k]);
    RunKeepsOneWay(start, moves, p);
  }

  /** With traffic one way, the sender is never more than one credit short, and not at all between
      calls; at most 50 descriptors are posted whose acknowledgement has not arrived. */
  lemma CreditsSuffice(p: Pair)
    requires ReachableOneWay(p)
    ensures p.a.peerBuffCount >= -1 && (p.a.pc.Idle? ==> p.a.peerBuffCount >= 0)
    ensures |p.a.posted| - (p.a.ackCounter + |Pick(p.a.slots, Held(p.a), Ack)|) <= 50
  {
    OneWayIsOk(p);
    OneWayParts(p);
    ArrivalsAreAcks(p);
    HeldIsOk(p.a);
    CreditCount(p.a);
    assert |Held(p.a)| >= |p.a.wrQueue|;
    assert SendSide(p.a).acks == Pick(p.a.slots, Held(p.a), Ack);
    AllAcksPicked(p.a.slots, Held(p.a));
    hide OkPair, OkSide, FlowOk, ReachableOneWay, Pick, OnlyAcks, Held, OneWayOk, HasClose, HeldOk;
  }

  lemma CreditCount(s: Side)
    requires OkSide(s)
    ensures |s.posted| - s.ackCounter == MDBUFFERSIZE - s.peerBuffCount
  {
  }

  lemma {:induction false} AllAcksPicked(slots: seq<Meta>, held: seq<nat>)
    requires forall i | i in held :: MetaAt(slots, i).typ == Ack
    ensures |Pick(slots, held, Ack)| == |held|
    decreases |held|
  {
    if held != [] {
      assert forall i | i in held[..|held| - 1] :: i in held;
      AllAcksPicked(slots, held[..|held| - 1]);
    }
  }

  lemma {:induction false} AllNormalsPicked(slots: seq<Meta>, held: seq<nat>)
    requires forall i | i in held :: MetaAt(slots, i).typ == Normal
    ensures |Pick(slots, held, Normal)| == |held|
    decreases |held|
  {
    if held != [] {
      assert forall i | i in held[..|held| - 1] :: i in held;
      AllNormalsPicked(slots, held[..|held| - 1]);
    }
  }

  lemma ReceiverHolds(p: Pair)
    requires OneWayOk(p)
    ensures |RecvSide(p.b).normals| == |Held(p.b)|
    ensures |Held(p.b)| + |p.b.rq| + |SlotInHand(p.b.pc)| == 50
  {
    OneWayParts(p);
    SilentPeer(SendSide(p.b), RecvSide(p.a));
    HeldIsOk(p.a);
    HeldIsOk(p.b);
    assert !p.a.closePosted;
    assert SendSide(p.b).acks == Pick(p.b.slots, Held(p.b), Ack);
    assert RecvSide(p.b).normals == Pick(p.b.slots, Held(p.b), Normal);
    hide *;
    OthersAreNormal(p.b.slots, Held(p.b));
    AllNormalsPicked(p.b.slots, Held(p.b));
    SlotsCounted(Held(p.b), p.b.rq, SlotInHand(p.b.pc));
  }

  lemma SlotsCounted(held: seq<nat>, rq: seq<nat>, hand: seq<nat>)
    requires multiset(held) + multiset(rq) + multiset(hand) == AllSlots()
    ensures |held| + |rq| + |hand| == MDBUFFERSIZE
  {
    assert |multiset(held) + multiset(rq) + multiset(hand)| == |held| + |rq| + |hand|;
    assert |AllSlots()| == MDBUFFERSIZE;
  }

  lemma SenderIsSending(a: Side)
    requires OkSide(a) && OnlySends(a) && a.sq != []
    ensures |a.sq| == 1 && |OutOf(a)| == 1
  {
    hide SlotsOk, HeldOk, CountersOk, CopiesOk, Held, Tokens;
  }

  lemma InHandIs(b: Side)
    requires OnlyReceives(b) && InHandUnacked(RecvSide(b)) == 0 && SlotInHand(b.pc) != []
    ensures b.pc.Poll? && b.pc.why.ForAck? && b.sq == []
  {
    hide Pick, Held;
  }

  lemma InHandIsOne(b: Side)
    ensures |SlotInHand(b.pc)| == InHand(RecvSide(b)) <= 1
  {
    hide Pick, Held;
  }

  /** At most one descriptor is ever on its way.  It finds no slot posted only while the receiver is
      between the arrival of an acknowledgement and the reposting of that slot, with all the others
      waiting to be handled. */
  lemma OneDescriptorMayWait(p: Pair)
    requires ReachableOneWay(p) && p.a.sq != []
    ensures |p.a.sq| == 1
    ensures p.b.rq == [] ==> p.b.pc.Poll? && p.b.pc.why.ForAck? && p.b.sq == [] && |Held(p.b)| == 49
  {
    hide *;
    OneWayIsOk(p);
    OneWayParts(p);
    CreditsSuffice(p);
    ReceiverHolds(p);
    SenderIsSending(p.a);
    InHandIsOne(p.b);
    InFlightIs(SendSide(p.a), RecvSide(p.b));
    SendSideIs(p.a);
    if p.b.rq == [] {
      InHandIs(p.b);
    }
  }

  lemma SendSideIs(s: Side)
    ensures SendSide(s).acks == Pick(s.slots, Held(s), Ack) && SendSide(s).out == OutOf(s)
    ensures SendSide(s).posted == s.posted && SendSide(s).acked == s.ackCounter
  {
    hide Pick, Held, OutOf;
  }

  lemma InFlightIs(f: SendPart, r: RecvPart)
    requires FlowOk(f, r)
    ensures |f.posted| - f.acked - |f.acks| == |r.normals| + |f.out| + InHandUnacked(r)
  {
  }
}
