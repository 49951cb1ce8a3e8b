/** What is true of a connection in every reachable state: both sockets and the flows between them. */
module Connection {
  import opened Wrappers
  import opened Transport
  import opened Flow
  import opened Sockets
  import opened SocketSteps

  ghost predicate HasClose(slots: seq<Meta>, held: seq<nat>) {
    exists i :: i in held && MetaAt(slots, i).typ == Close
  }

  /** A CLOSE that y holds is x's last message, and when y has seen it y has everything x sent. */
  ghost predicate CloseLink(x: Side, y: Side) {
    && (HasClose(y.slots, Held(y)) ==> x.closePosted && x.sq == [])
    && (y.closeFlag ==> x.closePosted && |y.returned| + |y.recvQueue| == |x.sent|)
  }

  ghost predicate Link(x: Side, y: Side) {
    FlowOk(SendSide(x), RecvSide(y)) && CloseLink(x, y)
  }

  ghost predicate OkPair(p: Pair) {
    OkSide(p.a) && OkSide(p.b) && Link(p.a, p.b) && Link(p.b, p.a)
  }

  // ---------------------------------------------------------------- a step of a thread

  /** Slots of s' that wait were waiting in s, and no type has become CLOSE. */
  ghost predicate NoNewClose(s: Side, s': Side) {
    forall i | i in Held(s') :: i in Held(s) && (SlotMeta(s', i).typ == Close ==> SlotMeta(s, i).typ == Close)
  }

  lemma HasNoNewClose(s: Side, s': Side)
    requires NoNewClose(s, s')
    ensures HasClose(s'.slots, Held(s')) ==> HasClose(s.slots, Held(s))
  {
    hide Held;
  }

  lemma TypeChanges(s: Side, slot: nat, typ: MetaType)
    requires typ != Close
    ensures NoNewClose(s, WithType(s, slot, typ))
  {
    hide SlotsIn;
  }

  lemma BeginAddsNoClose(s: Side, act: Act)
    requires ThreadCan(s, act) && act.Begin?
    ensures var s' := ThreadStep(s, act);
      Held(s') == Held(s) && s'.slots == s.slots && s'.closeFlag == s.closeFlag
  {
    DrainedKeepsHeld(s);
    hide SlotsIn;
  }

  lemma PollAddsNoClose(s: Side)
    requires s.pc.Poll? && s.pc.stage == Rearm
    ensures NoNewClose(s, PollReturn(s)) && PollReturn(s).closeFlag == s.closeFlag
  {
    var t := if s.pc.saw && s.pc.why.ForAck? then WithType(s, s.pc.why.slot, Unset) else s;
    assert NoNewClose(s, t) by {
      if s.pc.saw && s.pc.why.ForAck? { TypeChanges(s, s.pc.why.slot, Unset); }
    }
    assert HeldAlike(t, PollReturn(s));
    hide *;
    AlikeAddsNoClose(s, t, PollReturn(s));
    PollKeepsFlag(s);
  }

  lemma PollKeepsFlag(s: Side)
    requires s.pc.Poll?
    ensures PollReturn(s).closeFlag == s.closeFlag
  {
  }

  ghost predicate HeldAlike(s: Side, t: Side) {
    t.slots == s.slots && t.wrQueue == s.wrQueue && t.cq == s.cq
  }

  lemma AlikeAddsNoClose(s: Side, t: Side, u: Side)
    requires NoNewClose(s, t) && HeldAlike(t, u)
    ensures NoNewClose(s, u)
  {
  }

  lemma ResolvedKeepsHeld(s: Side, flag: Flag)
    requires s.pc.Resolve?
    ensures var s' := Resolved(s, flag);
      && Held(s') == Held(s) && s'.slots == s.slots && (s'.closeFlag ==> s.closeFlag || flag == PeerClosed)
  {
    hide SlotsIn;
  }

  lemma ResolveAddsNoClose(s: Side)
    requires s.pc.Resolve?
    ensures NoNewClose(s, ResolveStep(s))
    ensures ResolveStep(s).closeFlag ==> s.closeFlag || HasClose(s.slots, Held(s))
  {
    if s.wrQueue == [] {
      ResolvedKeepsHeld(s, if s.pc.got then GotMessage else NoMessage);
      hide Held, Resolved;
    } else {
      var i, t := s.wrQueue[0], s.(wrQueue := s.wrQueue[1..]);
      assert i in Held(s) && NoNewClose(s, t);
      match SlotMeta(s, i).typ {
        case Normal =>
          assert NoNewClose(s, HandleNormal(t, i, s.pc.caller));
        case Ack =>
          TypeChanges(t, i, Unset);
          assert NoNewClose(t, HandleAck(t, i));
        case Close =>
          ResolvedKeepsHeld(t.(rq := s.rq + [i]), PeerClosed);
          hide Resolved;
        case Unset =>
      }
    }
  }

  lemma ThreadAddsNoClose(s: Side, act: Act)
    requires ThreadCan(s, act)
    ensures var s' := ThreadStep(s, act);
      && NoNewClose(s, s')
      && (s'.closeFlag ==> s.closeFlag || (HasClose(s.slots, Held(s)) && s.pc.Resolve?))
  {
    hide PollReturn, ResolveStep, SlotsIn;
    match act
    case Begin(_) => BeginAddsNoClose(s, act); hide SendBegin, RecvBegin, CloseBegin;
    case Go =>
      match s.pc {
        case Poll(Drain, _, _) => DrainedKeepsHeld(s); hide Drained;
        case Poll(Rearm, _, _) => PollAddsNoClose(s);
        case Resolve(_, _) => ResolveAddsNoClose(s);
        case Acking(slot, _, _) => TypeChanges(s, slot, Ack);
        case _ =>
      }
  }

  /** The flow of a socket's own messages, which r receives, and the flow f that it receives. */
  ghost predicate Flows(s: Side, f: SendPart, r: RecvPart) {
    OkSide(s) && FlowOk(SendSide(s), r) && FlowOk(f, RecvSide(s))
  }

  lemma SameFlowsKeep(s: Side, s': Side, f: SendPart, r: RecvPart)
    requires Flows(s, f, r) && OkSide(s') && SameFlows(s, s')
    ensures Flows(s', f, r)
  {
  }

  lemma PostKeepsFlows(s: Side, f: SendPart, r: RecvPart)
    requires Flows(s, f, r) && s.pc.Posting?
    ensures Flows(SendPost(s), f, r)
  {
    SendPostKeeps(s);
    FlowPosts(SendSide(s), r, s.pc.desc, s.pc.msg);
    hide *;
  }

  lemma PollReturnKeepsFlows(s: Side, f: SendPart, r: RecvPart)
    requires Flows(s, f, r) && s.pc.Poll? && s.pc.stage == Rearm
    ensures Flows(PollReturn(s), f, r)
  {
    hide OkSide, FlowOk, SendSide, RecvSide, PollReturn, SameFlows;
    if s.pc.saw && s.pc.why.ForAck? {
      AckFinishedKeeps(s);
      FlowEnds(f, RecvSide(s));
    } else {
      PollReturnKeeps(s);
      SameFlowsKeep(s, PollReturn(s), f, r);
    }
  }

  lemma NormalKeepsFlows(s: Side, f: SendPart, r: RecvPart)
    requires Flows(s, f, r) && s.pc.Resolve? && s.wrQueue != [] && SlotMeta(s, s.wrQueue[0]).typ == Normal
    ensures Flows(ResolveStep(s), f, r)
  {
    HandleNormalKeeps(s);
    FlowStarts(f, RecvSide(s));
    hide OkSide, FlowOk, SendSide, RecvSide, ResolveStep;
  }

  lemma AckKeepsFlows(s: Side, f: SendPart, r: RecvPart)
    requires Flows(s, f, r) && s.pc.Resolve? && s.wrQueue != [] && SlotMeta(s, s.wrQueue[0]).typ == Ack
    ensures Flows(ResolveStep(s), f, r)
  {
    HandleAckKeeps(s, r);
    FlowFrees(SendSide(s), r);
    hide OkSide, FlowOk, SendSide, RecvSide, ResolveStep;
  }

  lemma TypesAreSet(s: Side)
    requires OkSide(s) && s.pc.Resolve? && s.wrQueue != []
    ensures SlotMeta(s, s.wrQueue[0]).typ != Unset
  {
    TakenSlot(s);
  }

  lemma ResolveKeepsFlows(s: Side, f: SendPart, r: RecvPart)
    requires Flows(s, f, r) && s.pc.Resolve?
    ensures Flows(ResolveStep(s), f, r)
  {
    hide OkSide, FlowOk, SendSide, RecvSide, Resolved, HandleNormal, HandleAck, SameFlows, SlotMeta;
    if s.wrQueue == [] {
      ResolvedKeeps(s, if s.pc.got then GotMessage else NoMessage);
      SameFlowsKeep(s, ResolveStep(s), f, r);
    } else {
      TypesAreSet(s);
      match SlotMeta(s, s.wrQueue[0]).typ {
        case Normal => NormalKeepsFlows(s, f, r);
        case Ack => AckKeepsFlows(s, f, r);
        case Close =>
          HandleCloseKeeps(s);
          SameFlowsKeep(s, ResolveStep(s), f, r);
        case Unset => assert false;
      }
    }
  }

  lemma BeginKeepsFlows(s: Side, act: Act, f: SendPart, r: RecvPart)
    requires Flows(s, f, r) && ThreadCan(s, act) && act.Begin?
    ensures Flows(ThreadStep(s, act), f, r)
  {
    hide OkSide, FlowOk, SendSide, RecvSide, SendBegin, RecvBegin, CloseBegin, SameFlows;
    match act.call {
      case CallSend(msg, addr) => SendBeginKeeps(s, msg, addr);
      case CallRecv => RecvBeginKeeps(s, InRecv);
      case CallIrecv => RecvBeginKeeps(s, InIrecv);
      case CallClose => CloseBeginKeeps(s);
    }
    SameFlowsKeep(s, ThreadStep(s, act), f, r);
  }

  lemma ThreadKeepsFlows(s: Side, act: Act, f: SendPart, r: RecvPart)
    requires Flows(s, f, r) && ThreadCan(s, act)
    ensures Flows(ThreadStep(s, act), f, r)
  {
    hide OkSide, FlowOk, SendSide, RecvSide, SendPost, PollEvent, PollDrain, PollReturn, ResolveStep, AckPost,
         SameFlows;
    if act.Begin? {
      BeginKeepsFlows(s, act, f, r);
    } else {
      match s.pc {
        case Posting(_, _) => PostKeepsFlows(s, f, r);
        case Poll(Event, _, _) =>
          PollEventKeeps(s);
          SameFlowsKeep(s, PollEvent(s), f, r);
        case Poll(Drain, _, _) =>
          PollDrainKeeps(s);
          SameFlowsKeep(s, PollDrain(s), f, r);
        case Poll(Rearm, _, _) => PollReturnKeepsFlows(s, f, r);
        case Resolve(_, _) => ResolveKeepsFlows(s, f, r);
        case Acking(_, _, _) =>
          AckPostKeeps(s);
          SameFlowsKeep(s, AckPost(s), f, r);
      }
    }
  }

  // ---------------------------------------------------------------- nothing received is lost

  function ReceivedCount(s: Side): nat {
    |s.returned| + |s.recvQueue|
  }

  lemma GiveBackLosesNothing(s: Side)
    ensures ReceivedCount(GiveBack(s)) == ReceivedCount(s)
  {
  }

  lemma ResolvedLosesNothing(s: Side, flag: Flag)
    requires s.pc.Resolve?
    ensures ReceivedCount(Resolved(s, flag)) == ReceivedCount(s)
  {
    GiveBackLosesNothing(s);
    GiveBackLosesNothing(s.(closeFlag := true));
    hide GiveBack;
  }

  lemma PollLosesNothing(s: Side)
    requires s.pc.Poll?
    ensures ReceivedCount(PollReturn(s)) >= ReceivedCount(s)
  {
  }

  lemma ThreadLosesNothing(s: Side, act: Act)
    requires ThreadCan(s, act)
    ensures ReceivedCount(ThreadStep(s, act)) >= ReceivedCount(s)
  {
    hide Resolved, PollReturn, SlotsIn, Tokens;
    if act == Go && s.pc.Poll? {
      PollLosesNothing(s);
    }
    if act == Go && s.pc.Resolve? {
      if s.wrQueue == [] {
        ResolvedLosesNothing(s, if s.pc.got then GotMessage else NoMessage);
      } else {
        ResolvedLosesNothing(s.(wrQueue := s.wrQueue[1..], rq := s.rq + [s.wrQueue[0]]), PeerClosed);
      }
    }
  }

  // ---------------------------------------------------------------- both ends, a step of a thread

  /** Once y has posted CLOSE and x has nothing in hand, x has received all that y sent. */
  lemma ClosedMeansReceived(y: Side, x: Side)
    requires OkSide(y) && y.closePosted && FlowOk(SendSide(y), RecvSide(x))
    ensures InHandUnacked(RecvSide(x)) == 0
    ensures CurrentOf(x).None? ==> ReceivedCount(x) == |y.sent|
  {
    assert |RecvSide(x).received| == ReceivedCount(x);
    hide SlotsOk, HeldOk, TokensOk, SqOk, CountersOk, CopiesOk, Pick, SlotsIn, Tokens, CurrentOf;
  }

  lemma ThreadKeepsClose(x: Side, y: Side, act: Act)
    requires OkSide(x) && OkSide(y) && Link(x, y) && Link(y, x) && ThreadCan(x, act)
    requires FlowOk(SendSide(y), RecvSide(ThreadStep(x, act)))
    ensures CloseLink(ThreadStep(x, act), y) && CloseLink(y, ThreadStep(x, act))
  {
    var x' := ThreadStep(x, act);
    ThreadAddsNoClose(x, act);
    HasNoNewClose(x, x');
    ThreadLosesNothing(x, act);
    assert !x.closePosted;
    assert |RecvSide(x').received| <= |y.sent|;
    if HasClose(x.slots, Held(x)) && x.pc.Resolve? {
      ClosedMeansReceived(y, x);
    }
    hide OkSide, FlowOk, SendSide, RecvSide, NoNewClose, HasClose, ThreadStep;
  }

  lemma ThreadKeepsPair(x: Side, y: Side, act: Act)
    requires OkSide(x) && OkSide(y) && Link(x, y) && Link(y, x) && ThreadCan(x, act)
    ensures var x' := ThreadStep(x, act); OkSide(x') && Link(x', y) && Link(y, x')
  {
    hide OkSide, FlowOk, SendSide, RecvSide, CloseLink, ThreadStep;
    ThreadKeepsFlows(x, act, SendSide(y), RecvSide(y));
    ThreadKeepsClose(x, y, act);
  }
}
