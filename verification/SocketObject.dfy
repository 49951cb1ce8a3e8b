/**
  The socket as the object that send_, recv_, irecv_ and send_close_md update.  Its methods are stretches
  of their code between two points where the thread may have to wait; `Advance`, which is all of them,
  says what a stretch means for the socket's invariant and for the messages under way.
 */
module SocketObject {
  import opened Wrappers
  import opened Transport
  import opened Flow
  import opened Sockets
  import opened SocketSteps
  import opened Connection

  lemma {:induction false} FirstOut(cq: seq<Cqe>)
    requires cq != []
    ensures SlotsIn(cq) == (if cq[0].RecvDone? then [cq[0].slot] else []) + SlotsIn(cq[1..])
    ensures Tokens(cq) == (if cq[0].RecvDone? then 0 else 1) + Tokens(cq[1..])
    decreases |cq|
  {
    if |cq| == 1 {
      assert cq[1..] == [] == cq[..0];
    } else {
      var init := cq[..|cq| - 1];
      FirstOut(init);
      assert cq[1..][..|cq| - 2] == init[1..];
    }
  }

  lemma NoCompletions()
    ensures SlotsIn([]) == [] && Tokens([]) == 0
  {
  }

  /** What is missing from 50 credits is what has not been acknowledged, and each of the 50 slots is in one
      place. */
  ghost predicate Balanced(s: Side) {
    && s.peerBuffCount + (|s.posted| - s.ackCounter) == 50
    && multiset(Held(s)) + multiset(s.rq) + multiset(SlotInHand(s.pc)) == AllSlots()
  }

  lemma OkIsBalanced(s: Side)
    requires OkSide(s)
    ensures Balanced(s)
  {
    hide HeldOk, TokensOk, SqOk, CopiesOk, PcOk, Held;
  }

  /** A fresh socket is in order, and nothing is under way from it or to it. */
  lemma FreshInOrder()
    ensures OkSide(Fresh()) && Balanced(Fresh()) && FlowOk(SendSide(Fresh()), RecvSide(Fresh()))
    ensures SendSide(Fresh()) == SendPart([], [], 0, [], []) && RecvSide(Fresh()) == RecvPart([], None, [])
    ensures forall i: nat | i < 50 :: i in Fresh().rq
  {
    assert Held(Fresh()) == [];
    forall i: nat | i < MDBUFFERSIZE ensures i in Fresh().rq {
      assert Fresh().rq[i] == i;
    }
  }

  function CreditTaken(s: Side, desc: Desc): Side {
    s.(peerBuffCount := s.peerBuffCount + 1, ackCounter := s.ackCounter + 1,
       copies := if desc.addr != 0 then s.copies - {desc.addr} else s.copies)
  }

  /** Handling an acknowledgement and clearing its slot touch different fields. */
  lemma CreditThenRepost(s: Side, slot: nat)
    ensures HandleAck(s, slot) == Repost(CreditTaken(s, MetaAt(s.slots, slot).desc), slot)
    ensures SlotMeta(s, slot) == MetaAt(s.slots, slot)
  {
  }

  lemma FlowsAreOk(s: Side, f: SendPart, r: RecvPart)
    requires Flows(s, f, r)
    ensures OkSide(s) && Balanced(s)
  {
    OkIsBalanced(s);
    hide OkSide, FlowOk, Balanced;
  }

  lemma PollReceives(s: Side, f: SendPart, r: RecvPart)
    requires s.pc.Poll? && s.pc.stage == Rearm && Flows(s, f, r)
    ensures Flows(PollReturn(s), f, r) && SendSide(PollReturn(s)) == SendSide(s)
    ensures RecvSide(PollReturn(s)).received == RecvSide(s).received +
      if s.pc.saw && s.pc.why.ForAck? then [s.pc.why.msg] else []
  {
    hide OkSide, FlowOk, SendSide, RecvSide, PollReturn;
    PollReturnKeepsFlows(s, f, r);
    if s.pc.saw && s.pc.why.ForAck? {
      AckFinishedKeeps(s);
    } else {
      PollReturnKeeps(s);
      assert RecvSide(s).received + [] == RecvSide(s).received;
    }
  }

  /** What becomes of the flows when the descriptor at the head of wr_queue is handled. */
  ghost predicate Handled(s: Side, s': Side)
    requires s.wrQueue != []
  {
    var (f, r, f', r', meta) := (SendSide(s), RecvSide(s), SendSide(s'), RecvSide(s'), SlotMeta(s, s.wrQueue[0]));
    match meta.typ
    case Normal =>
      && f' == f && r.normals != [] && r.current.None? && r'.current.Some? && r'.current.value.desc == r.normals[0]
      && r'.normals == r.normals[1..] && r'.received == r.received
    case Ack =>
      && r' == r && f.acks != [] && f' == f.(acked := f.acked + 1, acks := f.acks[1..])
      && s'.peerBuffCount == s.peerBuffCount + 1 && s.ackCounter < |s.posted| && meta.desc == s.posted[s.ackCounter]
      && (meta.desc.addr != 0 ==> meta.desc.addr in s.copies && meta.desc.addr !in s'.copies)
    case Close => f' == f && r' == r && Behind(s) == [] && (s.pc.Resolve? && s.pc.caller != InClose ==> s'.closeFlag)
    case Unset => false
  }

  lemma AckHandled(s: Side, f: SendPart, r: RecvPart)
    requires s.pc.Resolve? && s.wrQueue != [] && Flows(s, f, r) && SlotMeta(s, s.wrQueue[0]).typ == Ack
    ensures Handled(s, ResolveStep(s))
  {
    HandleAckKeeps(s, r);
    AckIsOldest(s, r);
    var desc := SlotMeta(s, s.wrQueue[0]).desc;
    assert ResolveStep(s).peerBuffCount == s.peerBuffCount + 1;
    assert desc.addr != 0 ==> desc.addr !in ResolveStep(s).copies;
    hide OkSide, FlowOk, SendSide, RecvSide, ResolveStep, Behind;
  }

  lemma HandlingIs(s: Side, f: SendPart, r: RecvPart)
    requires s.pc.Resolve? && s.wrQueue != [] && Flows(s, f, r)
    ensures Handled(s, ResolveStep(s))
  {
    hide OkSide, FlowOk, SendSide, RecvSide, ResolveStep, Behind, SlotMeta, SameFlows, Handled;
    TypesAreSet(s);
    match SlotMeta(s, s.wrQueue[0]).typ {
      case Normal => NormalHandled(s);
      case Ack => AckHandled(s, f, r);
      case Close => CloseHandled(s);
      case Unset => assert false;
    }
  }

  lemma NormalHandled(s: Side)
    requires OkSide(s) && s.pc.Resolve? && s.wrQueue != [] && SlotMeta(s, s.wrQueue[0]).typ == Normal
    ensures Handled(s, ResolveStep(s))
  {
    HandleNormalKeeps(s);
    hide OkSide, SendSide, RecvSide, ResolveStep, Behind;
  }

  lemma CloseHandled(s: Side)
    requires OkSide(s) && s.pc.Resolve? && s.wrQueue != [] && SlotMeta(s, s.wrQueue[0]).typ == Close
    ensures Handled(s, ResolveStep(s))
  {
    HandleCloseKeeps(s);
    assert s.pc.caller != InClose ==> ResolveStep(s).closeFlag;
    hide OkSide, SendSide, RecvSide, ResolveStep, SlotsIn, Behind;
  }

  lemma AckSlotIs(s: Side)
    requires OkSide(s) && s.pc.Acking?
    ensures SlotMeta(AckPost(s), s.pc.slot) == SlotMeta(s, s.pc.slot).(typ := Ack)
  {
    SlotOnce(Held(s), s.rq, [s.pc.slot], s.pc.slot);
    hide HeldOk, TokensOk, SqOk, CountersOk, CopiesOk, PcOk, Held;
  }

  /** send_ up to the credit guard: the payload is copied to an address of its own, all other copies stay,
      nothing is posted yet; the guard polls only without credits. */
  ghost predicate SendBegun(s: Side, msg: Message, addr: nat, s': Side) {
    && SameFlows(s, s')
    && (!s.closeLock ==>
          && Prepared(s'.pc) == Some((DescOf(msg, addr), msg)) && (s'.pc.Posting? <==> s.peerBuffCount > 0)
          && (msg.data != [] ==> addr in s'.copies && s'.copies[addr] == msg.data)
          && forall a | a in s.copies :: a in s'.copies && s'.copies[a] == s.copies[a])
  }

  /** The descriptor is posted: one message more in the flow, under way to the peer, and a credit less. */
  ghost predicate Posted(s: Side, s': Side) {
    && s.pc.Posting? && RecvSide(s') == RecvSide(s) && s'.peerBuffCount == s.peerBuffCount - 1
    && var f := SendSide(s);
    SendSide(s') == f.(sent := f.sent + [s.pc.msg], posted := f.posted + [s.pc.desc], out := [s.pc.desc])
  }

  /** poll_wc returns: the only message received is one whose acknowledgement has gone out; a send_ that has
      waited for a credit goes on to post what it has prepared, whatever has come. */
  ghost predicate PollReturned(s: Side, s': Side) {
    && s.pc.Poll? && SendSide(s') == SendSide(s)
    && (s.pc.why.ForCredit? ==>
          s'.pc == Posting(s.pc.why.desc, s.pc.why.msg) && s'.copies == s.copies && s'.closeFlag == s.closeFlag)
    && RecvSide(s').received == RecvSide(s).received + if s.pc.saw && s.pc.why.ForAck? then [s.pc.why.msg] else []
  }

  /** The descriptor, with only its type rewritten, is sent back from its own slot. */
  ghost predicate AckSent(s: Side, s': Side) {
    && s.pc.Acking? && SameFlows(s, s') && s'.sq == s.sq + [SendSlot(s.pc.slot)]
    && SlotMeta(s', s.pc.slot) == SlotMeta(s, s.pc.slot).(typ := Ack)
  }

  /** resolve_wr_queue has returned: nothing received is lost, at most the oldest message goes to the caller,
      and CLOSE is posted only with everything acknowledged and no copy left. */
  ghost predicate CallMovesOn(s: Side, s': Side) {
    && SameFlows(s, s')
    && OneGiven(s, s')
    && (s'.closePosted ==> s'.ackCounter == |s'.posted| && s'.copies == map[])
  }

  /** What a step does to the messages under way, by where the thread is. */
  ghost predicate Effect(s: Side, act: Act, s': Side) {
    match act
    case Begin(CallSend(msg, addr)) => SendBegun(s, msg, addr, s')
    case Begin(_) => SameFlows(s, s')
    case Go =>
      match s.pc
      case Posting(_, _) => Posted(s, s')
      case Poll(Rearm, _, _) => PollReturned(s, s')
      case Resolve(_, _) => if s.wrQueue == [] then CallMovesOn(s, s') else Handled(s, s')
      case Acking(_, _, _) => AckSent(s, s')
      case _ => SameFlows(s, s')
  }

  lemma NothingLeftToAck(s: Side)
    requires OkSide(s) && s.closePosted
    ensures s.ackCounter == |s.posted| && s.copies == map[]
  {
    assert Prepared(s.pc) == None;
    forall a ensures a !in s.copies {
      assert !Needed(s.posted, s.ackCounter, None, a);
    }
    hide SlotsOk, HeldOk, TokensOk, SqOk, SlotsIn;
  }

  ghost predicate OneGiven(s: Side, t: Side) {
    && t.returned + t.recvQueue == s.returned + s.recvQueue
    && (t.returned == s.returned || (s.recvQueue != [] && t.returned == s.returned + [s.recvQueue[0]]))
  }

  lemma GiveBackGives(s: Side, flag: bool)
    ensures OneGiven(s, GiveBack(s.(closeFlag := flag))) && OneGiven(s, GiveBack(s))
  {
    if s.recvQueue != [] {
      assert s.returned + [s.recvQueue[0]] + s.recvQueue[1..] == s.returned + s.recvQueue;
    }
  }

  lemma ResolvedReturns(s: Side, flag: Flag)
    requires s.pc.Resolve?
    ensures OneGiven(s, Resolved(s, flag))
  {
    GiveBackGives(s, true);
    hide GiveBack;
  }

  lemma MovingOn(s: Side, f: SendPart, r: RecvPart)
    requires s.pc.Resolve? && s.wrQueue == [] && Flows(s, f, r)
    ensures CallMovesOn(s, ResolveStep(s))
  {
    var flag := if s.pc.got then GotMessage else NoMessage;
    assert ResolveStep(s) == Resolved(s, flag);
    hide OkSide, FlowOk, SendSide, RecvSide, SameFlows, Resolved, ResolveStep;
    ResolvedKeeps(s, flag);
    ResolvedReturns(s, flag);
    if Resolved(s, flag).closePosted {
      NothingLeftToAck(Resolved(s, flag));
    }
  }

  lemma SendBeginIs(s: Side, msg: Message, addr: nat)
    requires OkSide(s) && s.pc.Idle? && Allocatable(s, addr)
    ensures SendBegun(s, msg, addr, SendBegin(s, msg, addr))
  {
    hide OkSide, SameFlows;
    SendBeginKeeps(s, msg, addr);
  }

  lemma PostIs(s: Side)
    requires OkSide(s) && s.pc.Posting?
    ensures Posted(s, SendPost(s))
  {
    assert SendSide(s).sent == s.sent && SendSide(s).posted == s.posted;
    hide OkSide, SendSide, RecvSide;
    SendPostKeeps(s);
  }

  lemma AckIs(s: Side)
    requires OkSide(s) && s.pc.Acking?
    ensures AckSent(s, AckPost(s))
  {
    AckSlotIs(s);
    hide OkSide, SameFlows, WithType;
    AckPostKeeps(s);
  }

  lemma BeginIs(s: Side, act: Act)
    requires OkSide(s) && ThreadCan(s, act) && act.Begin?
    ensures Effect(s, act, ThreadStep(s, act))
  {
    hide OkSide, SendBegun, SendBegin, RecvBegin, CloseBegin, SameFlows, SendSide, RecvSide;
    match act.call {
      case CallSend(msg, addr) => SendBeginIs(s, msg, addr);
      case CallRecv => RecvBeginKeeps(s, InRecv);
      case CallIrecv => RecvBeginKeeps(s, InIrecv);
      case CallClose => CloseBeginKeeps(s);
    }
  }

  lemma StepEffect(s: Side, act: Act, f: SendPart, r: RecvPart)
    requires ThreadCan(s, act) && Flows(s, f, r)
    ensures Effect(s, act, ThreadStep(s, act))
  {
    hide OkSide, FlowOk, SendSide, RecvSide, SendPost, PollEvent, PollDrain, PollReturn, ResolveStep, AckPost,
         SameFlows, SendBegun, Posted, PollReturned, AckSent, CallMovesOn, Handled, SendBegin, RecvBegin, CloseBegin;
    if act.Begin? {
      BeginIs(s, act);
    } else {
      match s.pc {
        case Posting(_, _) => PostIs(s);
        case Poll(Event, _, _) => PollEventKeeps(s);
        case Poll(Drain, _, _) => PollDrainKeeps(s);
        case Poll(Rearm, _, _) => PollReturnIs(s, f, r);
        case Resolve(_, _) =>
          if s.wrQueue == [] {
            MovingOn(s, f, r);
          } else {
            HandlingIs(s, f, r);
          }
        case Acking(_, _, _) => AckIs(s);
      }
    }
  }

  lemma PollReturnIs(s: Side, f: SendPart, r: RecvPart)
    requires s.pc.Poll? && s.pc.stage == Rearm && Flows(s, f, r)
    ensures PollReturned(s, PollReturn(s))
  {
    hide Flows, SendSide, RecvSide, PollReturn;
    PollReceives(s, f, r);
    if s.pc.why.ForCredit? {
      GuardGoesOn(s);
    }
  }

  lemma GuardGoesOn(s: Side)
    requires s.pc.Poll? && s.pc.why.ForCredit?
    ensures var s' := PollReturn(s);
      s'.pc == Posting(s.pc.why.desc, s.pc.why.msg) && s'.copies == s.copies && s'.closeFlag == s.closeFlag
  {
  }

  class Socket {
    var pc: Pc
    var peerBuffCount: int
    var metadataCounter: nat
    var ackCounter: nat
    var closeFlag: bool
    var closeLock: bool
    var wrQueue: seq<nat>
    var recvQueue: seq<Message>
    var copies: map<nat, seq<int>>
    var readBuf: Option<seq<int>>
    var slots: seq<Meta>
    var rq: seq<nat>
    var cq: seq<Cqe>
    var arm: Arm
    var sq: seq<Wqe>
    var done: seq<Cqe>
    var posted: seq<Desc>
    var sent: seq<Message>
    var returned: seq<Message>
    var closePosted: bool

    ghost function View(): Side
      reads this
    {
      Side(pc, peerBuffCount, metadataCounter, ackCounter, closeFlag, closeLock, wrQueue, recvQueue, copies, readBuf,
           slots, rq, cq, arm, sq, done, posted, sent, returned, closePosted)
    }

    /** buildConnection: 50 credits and 50 posted slots, nothing under way in either direction; two such
        sockets are a connection in order. */
    constructor ()
      ensures View() == Fresh() && OkSide(View()) && Balanced(View()) && FlowOk(SendSide(View()), RecvSide(View()))
      ensures peerBuffCount == 50 == |rq| && forall i: nat | i < 50 :: i in rq
      ensures SendSide(View()) == SendPart([], [], 0, [], []) && RecvSide(View()) == RecvPart([], None, [])
    {
      pc, peerBuffCount, metadataCounter, ackCounter, closeFlag, closeLock := Idle, MDBUFFERSIZE, 0, 0, false, false;
      wrQueue, recvQueue, copies, readBuf := [], [], map[], None;
      slots, rq := seq(MDBUFFERSIZE, _ => Meta(Unset, Desc(0, 0, 0))), Numbers(MDBUFFERSIZE);
      cq, arm, sq, done := [], Armed, [], [];
      posted, sent, returned, closePosted := [], [], [], false;
      new;
      FreshInOrder();
      hide OkSide, Balanced, FlowOk, SendSide, RecvSide;
    }

    /** The loop over ibv_poll_cq in poll_wc, recv_ and irecv_. */
    method EmptyCq() returns (saw: bool)
      modifies this
      ensures View() == Drained(old(View())) && saw == (Tokens(old(cq)) > 0)
    {
      saw := false;
      NoCompletions();
      hide SlotsIn, Tokens;
      while cq != []
        invariant wrQueue + SlotsIn(cq) == old(wrQueue) + SlotsIn(old(cq))
        invariant saw || Tokens(cq) > 0 <==> Tokens(old(cq)) > 0
        invariant View() == old(View()).(wrQueue := wrQueue, cq := cq)
        decreases |cq|
      {
        FirstOut(cq);
        var wc := cq[0];
        cq := cq[1..];
        if wc.RecvDone? {
          assert wrQueue + ([wc.slot] + SlotsIn(cq)) == wrQueue + [wc.slot] + SlotsIn(cq);
          wrQueue := wrQueue + [wc.slot];
        } else {
          assert [] + SlotsIn(cq) == SlotsIn(cq);
          saw := true;
        }
      }
      assert wrQueue + [] == wrQueue;
    }
  
    // -------------------------------------------------------------- send_

    method BeginSend(msg: Message, addr: nat)
      modifies this
      ensures View() == SendBegin(old(View()), msg, addr)
    {
      if closeLock { return; }
      if msg.data != [] {
        copies := copies[addr := msg.data];
      }
      var desc := DescOf(msg, addr);
      if peerBuffCount <= 0 {
        pc := Poll(Event, false, ForCredit(desc, msg));
      } else {
        pc := Posting(desc, msg);
      }
    }

    method PostSend()
      requires pc.Posting?
      modifies this
      ensures View() == SendPost(old(View()))
    {
      var desc, msg := pc.desc, pc.msg;
      sq, posted, sent := sq + [SendMeta(Meta(Normal, desc))], posted + [desc], sent + [msg];
      peerBuffCount := peerBuffCount - 1;
      pc := Poll(Event, false, ForSend);
    }

    // -------------------------------------------------------------- poll_wc

    method TakeEvent()
      requires pc.Poll?
      modifies this
      ensures View() == PollEvent(old(View()))
    {
      arm := Disarmed;
      pc := Poll(Drain, false, pc.why);
    }

    method PollCq()
      requires pc.Poll?
      modifies this
      ensures View() == PollDrain(old(View()))
    {
      var saw := EmptyCq();
      pc := Poll(Rearm, saw, pc.why);
    }

    method ReturnFromPoll()
      requires pc.Poll?
      modifies this
      ensures View() == PollReturn(old(View()))
    {
      hide AckFinished;
      arm := Armed;
      var again := Poll(Event, false, pc.why);
      match pc.why {
        case ForCredit(desc, msg) => pc := Posting(desc, msg);
        case ForSend =>
          if pc.saw {
            metadataCounter := metadataCounter + 1;
            pc := Resolve(false, InSend);
          } else {
            pc := again;
          }
        case ForRead(slot, caller) =>
          if pc.saw {
            pc := Acking(slot, Message(readBuf.GetOr([]), MetaAt(slots, slot).desc.flag), caller);
          } else {
            pc := again;
          }
        case ForAck(slot, msg, caller) =>
          if pc.saw {
            FinishAck(slot, msg, caller);
          } else {
            pc := again;
          }
        case ForMessage => pc := Resolve(false, InRecvLoop);
        case ForAllAcks => pc := Resolve(false, InClose);
      }
    }

    // -------------------------------------------------------------- recv_wc_handle

    method SetType(slot: nat, typ: MetaType)
      modifies this`slots
      ensures View() == WithType(old(View()), slot, typ)
    {
      if slot < |slots| {
        slots := slots[slot := slots[slot].(typ := typ)];
      }
    }

    /** rdma_post_recv of a slot whose type has been cleared. */
    method PostSlot(slot: nat)
      modifies this`slots, this`rq
      ensures View() == Repost(old(View()), slot)
    {
      SetType(slot, Unset);
      rq := rq + [slot];
    }

    method TakeUp(slot: nat, caller: Caller)
      modifies this
      ensures View() == HandleNormal(old(View()), slot, caller)
    {
      var desc := MetaAt(slots, slot).desc;
      if desc.len != 0 {
        sq := sq + [ReadRemote(desc)];
        pc := Poll(Event, false, ForRead(slot, caller));
      } else {
        pc := Acking(slot, Message([], desc.flag), caller);
      }
    }

    /** The credit comes back and the copy is freed. */
    method TakeCredit(desc: Desc)
      modifies this`peerBuffCount, this`ackCounter, this`copies
      ensures View() == CreditTaken(old(View()), desc)
    {
      peerBuffCount, ackCounter := peerBuffCount + 1, ackCounter + 1;
      if desc.addr != 0 {
        copies := copies - {desc.addr};
      }
    }

    method TakeAck(slot: nat)
      modifies this
      ensures View() == HandleAck(old(View()), slot)
    {
      hide HandleAck, Repost, CreditTaken, WithType, MetaAt;
      CreditThenRepost(View(), slot);
      TakeCredit(MetaAt(slots, slot).desc);
      PostSlot(slot);
    }

    method TakeClose(slot: nat)
      requires pc.Resolve?
      modifies this
      ensures View() == Resolved(old(View()).(rq := old(rq) + [slot]), PeerClosed)
    {
      rq := rq + [slot];
      ReturnFromResolve(PeerClosed);
    }

    method Handle()
      requires pc.Resolve? && wrQueue != []
      modifies this
      ensures View() == ResolveStep(old(View()))
    {
      hide HandleNormal, HandleAck, Resolved;
      var slot := wrQueue[0];
      wrQueue := wrQueue[1..];
      match MetaAt(slots, slot).typ {
        case Normal => TakeUp(slot, pc.caller);
        case Ack => TakeAck(slot);
        case Close => TakeClose(slot);
        case Unset =>
      }
    }

    method FinishAck(slot: nat, msg: Message, caller: Caller)
      modifies this
      ensures View() == AckFinished(old(View()), slot, msg, caller)
    {
      PostSlot(slot);
      recvQueue := recvQueue + [msg];
      pc := Resolve(true, caller);
    }

    method PostAck()
      requires pc.Acking?
      modifies this
      ensures View() == AckPost(old(View()))
    {
      SetType(pc.slot, Ack);
      sq := sq + [SendSlot(pc.slot)];
      pc := Poll(Event, false, ForAck(pc.slot, pc.msg, pc.caller));
    }

    // -------------------------------------------------------------- resolve_wr_queue returns

    /** queue_pop of recv_queue: the message, if there is one, is returned. */
    method PopMessage()
      modifies this
      ensures View() == GiveBack(old(View()))
    {
      if recvQueue != [] {
        returned, recvQueue := returned + [recvQueue[0]], recvQueue[1..];
      }
      pc := Idle;
    }

    method CheckClose()
      modifies this
      ensures View() == CloseCheck(old(View()))
    {
      if ackCounter < metadataCounter {
        pc := Poll(Event, false, ForAllAcks);
      } else {
        sq := sq + [SendMeta(Meta(Close, Desc(0, 0, 0)))];
        pc, closePosted := Closed, true;
      }
    }

    method ReturnFromResolve(flag: Flag)
      requires pc.Resolve?
      modifies this
      ensures View() == Resolved(old(View()), flag)
    {
      if flag == PeerClosed && pc.caller != InClose {
        closeFlag := true;
      }
      match pc.caller {
        case InSend => pc := Idle;
        case InRecv =>
          if recvQueue != [] {
            PopMessage();
          } else if closeFlag {
            closeLock, pc := true, Idle;
          } else if flag == NoMessage {
            pc := Poll(Event, false, ForMessage);
          } else {
            pc := Idle;
          }
        case InRecvLoop =>
          if flag == NoMessage {
            pc := Poll(Event, false, ForMessage);
          } else {
            PopMessage();
          }
        case InIrecv =>
          if flag == PeerClosed {
            pc := Idle;
          } else {
            PopMessage();
          }
        case InClose => CheckClose();
      }
    }

    // -------------------------------------------------------------- recv_, irecv_, close_

    method BeginRecv(caller: Caller)
      modifies this
      ensures View() == RecvBegin(old(View()), caller)
    {
      if closeLock { return; }
      var saw := EmptyCq();
      pc := Resolve(false, caller);
    }

    method BeginClose()
      modifies this
      ensures View() == CloseBegin(old(View()))
    {
      if closeLock {
        pc := Closed;
      } else {
        CheckClose();
      }
    }

    // -------------------------------------------------------------- one step of the thread

    method Step(act: Act)
      requires ThreadCan(View(), act)
      modifies this
      ensures View() == ThreadStep(old(View()), act)
    {
      hide SendBegin, RecvBegin, CloseBegin, SendPost, PollEvent, PollDrain, PollReturn, AckPost, Resolved,
           HandleNormal, HandleAck;
      match act {
        case Begin(CallSend(msg, addr)) => BeginSend(msg, addr);
        case Begin(CallRecv) => BeginRecv(InRecv);
        case Begin(CallIrecv) => BeginRecv(InIrecv);
        case Begin(CallClose) => BeginClose();
        case Go =>
          match pc {
            case Posting(_, _) => PostSend();
            case Poll(Event, _, _) => TakeEvent();
            case Poll(Drain, _, _) => PollCq();
            case Poll(Rearm, _, _) => ReturnFromPoll();
            case Resolve(got, _) =>
              if wrQueue == [] {
                ReturnFromResolve(if got then GotMessage else NoMessage);
              } else {
                Handle();
              }
            case Acking(_, _, _) => PostAck();
          }
      }
    }

    /** One step of the thread, seen by a caller that knows `f` and `r`, the peer's parts of the two flows: the
        socket makes the step that the interleavings are built of, stays in order, keeps its credits and
        its slots together, keeps both flows in order, and changes them as `Effect` says. */
    method Advance(act: Act, ghost f: SendPart, ghost r: RecvPart)
      requires ThreadCan(View(), act) && Flows(View(), f, r)
      modifies this
      ensures View() == ThreadStep(old(View()), act)
      ensures OkSide(View()) && Balanced(View()) && Flows(View(), f, r)
      ensures Effect(old(View()), act, View())
    {
      hide *;
      ThreadKeepsFlows(View(), act, f, r);
      FlowsAreOk(ThreadStep(View(), act), f, r);
      StepEffect(View(), act, f, r);
      Step(act);
    }
  }
}
