/**
  Whole calls of send_ and close_, and what any call does with the descriptors that had arrived when it
  began.
 */
module WholeCalls {
  import opened Sequences
  import opened Wrappers
  import opened Transport
  import opened Flow
  import opened Sockets
  import opened SocketSteps
  import opened Connection
  import opened Adapters
  import opened TransportResults
  import opened TransportCalls

  // ---------------------------------------------------------------- what had arrived

  /** A descriptor of this type is in one of these slots. */
  ghost predicate Waits(slots: seq<Meta>, q: seq<nat>, typ: MetaType) {
    exists i :: i in q && MetaAt(slots, i).typ == typ
  }

  /** Those of the first queue are in the second, and their slots are as they were. */
  ghost predicate Remain(slots: seq<Meta>, q: seq<nat>, slots': seq<Meta>, q': seq<nat>) {
    forall i | i in q :: i in q' && MetaAt(slots', i) == MetaAt(slots, i)
  }

  lemma WaitsOn(slots: seq<Meta>, q: seq<nat>, slots': seq<Meta>, q': seq<nat>, typ: MetaType)
    requires Waits(slots, q, typ) && Remain(slots, q, slots', q')
    ensures Waits(slots', q', typ)
  {
  }

  /** send_ has not yet made the poll that moves all that has arrived to wr_queue. */
  predicate ToDrain(pc: Pc) {
    pc.Posting? || (pc.Poll? && (pc.why.ForCredit? || (pc.why.ForSend? && pc.stage != Rearm)))
  }

  /** Where the call will look for descriptors. */
  function Ahead(t: Side): seq<nat> {
    if ToDrain(t.pc) then Held(t) else t.wrQueue
  }

  /** A message is queued or in hand, or will be found. */
  ghost predicate HasMessage(t: Side) {
    t.recvQueue != [] || SlotInHand(t.pc) != [] || Waits(t.slots, Ahead(t), Normal)
  }

  /** CLOSE is noted, or will be found. */
  ghost predicate SeesClose(t: Side) {
    t.closeFlag || Waits(t.slots, Ahead(t), Close)
  }

  ghost predicate Keeps(t: Side, t': Side) {
    (HasMessage(t) ==> HasMessage(t')) && (SeesClose(t) ==> SeesClose(t'))
  }

  lemma StillThere(t: Side, t': Side)
    requires Remain(t.slots, Ahead(t), t'.slots, Ahead(t'))
    requires (t.recvQueue != [] ==> t'.recvQueue != []) && (t.closeFlag ==> t'.closeFlag)
    requires SlotInHand(t.pc) != [] ==> t'.recvQueue != [] || SlotInHand(t'.pc) != []
    ensures Keeps(t, t')
  {
    hide Waits, Remain, Held, Ahead, SlotInHand;
    if Waits(t.slots, Ahead(t), Normal) {
      WaitsOn(t.slots, Ahead(t), t'.slots, Ahead(t'), Normal);
    }
    if Waits(t.slots, Ahead(t), Close) {
      WaitsOn(t.slots, Ahead(t), t'.slots, Ahead(t'), Close);
    }
  }

  lemma HandIsElsewhere(t: Side, slot: nat)
    requires OkSide(t) && slot in SlotInHand(t.pc)
    ensures slot !in Held(t) && slot !in Ahead(t)
  {
    SlotOnce(Held(t), t.rq, SlotInHand(t.pc), slot);
    hide SlotsIn, HeldOk, TokensOk, SqOk, CountersOk, CopiesOk, PcOk;
  }

  lemma Retyped(t: Side, slot: nat, typ: MetaType, q: seq<nat>)
    requires slot !in q
    ensures Remain(t.slots, q, WithType(t, slot, typ).slots, q)
  {
  }

  lemma Unmoved(slots: seq<Meta>, q: seq<nat>, more: seq<nat>)
    ensures Remain(slots, q, slots, q + more)
  {
  }

  lemma Same(slots: seq<Meta>, q: seq<nat>)
    ensures Remain(slots, q, slots, q)
  {
  }

  lemma EventKeeps(t: Side)
    requires t.pc.Poll? && t.pc.stage == Event
    ensures Keeps(t, PollEvent(t))
  {
    assert Ahead(PollEvent(t)) == Ahead(t);
    Same(t.slots, Ahead(t));
    hide Held, Ahead, Remain, Keeps;
    StillThere(t, PollEvent(t));
  }

  lemma DrainKeeps(t: Side)
    requires t.pc.Poll? && t.pc.stage == Drain
    ensures Keeps(t, PollDrain(t))
  {
    Unmoved(t.slots, t.wrQueue, SlotsIn(t.cq));
    Same(t.slots, Held(t));
    Empty(Held(t));
    assert SlotsIn([]) == [];
    hide SlotsIn, Remain, Keeps;
    assert Held(PollDrain(t)) == Held(t);
    StillThere(t, PollDrain(t));
  }

  lemma AckFinishedIs(t: Side)
    requires t.pc.Poll? && t.pc.stage == Rearm && t.pc.why.ForAck? && t.pc.saw
    ensures PollReturn(t).slots == WithType(t, t.pc.why.slot, Unset).slots && PollReturn(t).wrQueue == t.wrQueue
    ensures Ahead(t) == Ahead(PollReturn(t)) == t.wrQueue && PollReturn(t).recvQueue != []
    ensures PollReturn(t).closeFlag == t.closeFlag && t.pc.why.slot in SlotInHand(t.pc)
  {
  }

  lemma AckFinishedKeepsThem(t: Side)
    requires OkSide(t) && t.pc.Poll? && t.pc.stage == Rearm && t.pc.why.ForAck? && t.pc.saw
    ensures Keeps(t, PollReturn(t))
  {
    AckFinishedIs(t);
    HandIsElsewhere(t, t.pc.why.slot);
    hide *;
    Retyped(t, t.pc.why.slot, Unset, t.wrQueue);
    StillThere(t, PollReturn(t));
  }

  lemma ReturnFromSend(t: Side)
    requires t.pc.Poll? && t.pc.stage == Rearm && (t.pc.why.ForCredit? || t.pc.why.ForSend? || t.pc.why.ForRead?)
    ensures var t' := PollReturn(t);
      && t'.slots == t.slots && t'.recvQueue == t.recvQueue && t'.closeFlag == t.closeFlag
      && t'.wrQueue == t.wrQueue && t'.cq == t.cq
      && SlotInHand(t'.pc) == SlotInHand(t.pc) && (ToDrain(t.pc) ==> ToDrain(t'.pc))
  {
    hide AckFinished;
  }

  lemma ReturnFields(t: Side)
    requires t.pc.Poll? && t.pc.stage == Rearm && !(t.pc.why.ForAck? && t.pc.saw)
    ensures var t' := PollReturn(t);
      && t'.slots == t.slots && t'.recvQueue == t.recvQueue && t'.closeFlag == t.closeFlag
      && t'.wrQueue == t.wrQueue && t'.cq == t.cq
      && SlotInHand(t'.pc) == SlotInHand(t.pc) && (ToDrain(t.pc) ==> ToDrain(t'.pc))
  {
    if t.pc.why.ForCredit? || t.pc.why.ForSend? || t.pc.why.ForRead? {
      ReturnFromSend(t);
    }
    hide AckFinished;
  }

  lemma ReturnIs(t: Side)
    requires t.pc.Poll? && t.pc.stage == Rearm && !(t.pc.why.ForAck? && t.pc.saw)
    ensures var t' := PollReturn(t);
      && t'.slots == t.slots && t'.recvQueue == t.recvQueue && t'.closeFlag == t.closeFlag
      && SlotInHand(t'.pc) == SlotInHand(t.pc)
      && (Ahead(t') == Ahead(t) || Ahead(t') == Ahead(t) + SlotsIn(t.cq))
  {
    ReturnFields(t);
    hide SlotsIn, PollReturn, ToDrain, SlotInHand;
  }

  lemma ReturnKeeps(t: Side)
    requires OkSide(t) && t.pc.Poll? && t.pc.stage == Rearm
    ensures Keeps(t, PollReturn(t))
  {
    hide *;
    if t.pc.why.ForAck? && t.pc.saw {
      AckFinishedKeepsThem(t);
    } else {
      ReturnIs(t);
      Unmoved(t.slots, Ahead(t), SlotsIn(t.cq));
      Same(t.slots, Ahead(t));
      StillThere(t, PollReturn(t));
    }
  }

  lemma PostKeeps(t: Side)
    requires t.pc.Posting?
    ensures Keeps(t, SendPost(t))
  {
    assert Ahead(SendPost(t)) == Ahead(t);
    Same(t.slots, Ahead(t));
    hide Held, Ahead, Remain, Keeps;
    StillThere(t, SendPost(t));
  }

  lemma AckKeeps(t: Side)
    requires OkSide(t) && t.pc.Acking?
    ensures Keeps(t, AckPost(t))
  {
    HandIsElsewhere(t, t.pc.slot);
    Retyped(t, t.pc.slot, Ack, t.wrQueue);
    assert AckPost(t).slots == WithType(t, t.pc.slot, Ack).slots;
    hide OkSide, Keeps, SlotsIn, Remain, WithType;
    StillThere(t, AckPost(t));
  }

  /** The descriptor that is handled occurs once, and a CLOSE is the last one. */
  lemma FirstAhead(t: Side)
    requires OkSide(t) && t.wrQueue != []
    ensures t.wrQueue[0] !in t.wrQueue[1..] && SlotMeta(t, t.wrQueue[0]).typ != Unset
    ensures SlotMeta(t, t.wrQueue[0]).typ == Close ==> t.wrQueue == [t.wrQueue[0]]
  {
    var slot := t.wrQueue[0];
    SlotOnce(Held(t), t.rq, SlotInHand(t.pc), slot);
    assert Held(t)[0] == slot && slot in Held(t);
    assert t.wrQueue == [slot] + t.wrQueue[1..];
    assert multiset(Held(t)) == multiset{slot} + multiset(t.wrQueue[1..]) + multiset(SlotsIn(t.cq));
    hide SlotsIn, TokensOk, SqOk, CountersOk, CopiesOk, PcOk;
  }

  /** What waits for another type than the first one has is behind it. */
  lemma WaitsBehind(slots: seq<Meta>, q: seq<nat>, typ: MetaType)
    requires q != [] && Waits(slots, q, typ) && MetaAt(slots, q[0]).typ != typ
    ensures Waits(slots, q[1..], typ)
  {
    var i :| i in q && MetaAt(slots, i).typ == typ;
    assert i in q[1..];
  }

  lemma NormalIs(t: Side)
    requires t.pc.Resolve? && t.wrQueue != [] && SlotMeta(t, t.wrQueue[0]).typ == Normal
    ensures var t' := ResolveStep(t);
      && SlotInHand(t'.pc) != [] && t'.slots == t.slots && t'.closeFlag == t.closeFlag
      && Ahead(t') == t.wrQueue[1..] && Ahead(t) == t.wrQueue
  {
    hide Held;
  }

  lemma NormalKeeps(t: Side)
    requires t.pc.Resolve? && t.wrQueue != [] && SlotMeta(t, t.wrQueue[0]).typ == Normal
    ensures Keeps(t, ResolveStep(t))
  {
    NormalIs(t);
    hide Waits, Held, Ahead, ResolveStep;
    if Waits(t.slots, t.wrQueue, Close) {
      WaitsBehind(t.slots, t.wrQueue, Close);
    }
  }

  lemma AckTaken(t: Side, typ: MetaType)
    requires OkSide(t) && t.pc.Resolve? && t.wrQueue != [] && SlotMeta(t, t.wrQueue[0]).typ == Ack && typ != Ack
    requires Waits(t.slots, t.wrQueue, typ)
    ensures Waits(ResolveStep(t).slots, ResolveStep(t).wrQueue, typ)
  {
    FirstAhead(t);
    WaitsBehind(t.slots, t.wrQueue, typ);
    Retyped(t, t.wrQueue[0], Unset, t.wrQueue[1..]);
    assert ResolveStep(t).slots == WithType(t, t.wrQueue[0], Unset).slots;
    hide OkSide, Waits, Remain, WithType;
    WaitsOn(t.slots, t.wrQueue[1..], ResolveStep(t).slots, t.wrQueue[1..], typ);
  }

  lemma AckTakenKeeps(t: Side)
    requires OkSide(t) && t.pc.Resolve? && t.wrQueue != [] && SlotMeta(t, t.wrQueue[0]).typ == Ack
    ensures Keeps(t, ResolveStep(t))
  {
    if Waits(t.slots, t.wrQueue, Normal) { AckTaken(t, Normal); }
    if Waits(t.slots, t.wrQueue, Close) { AckTaken(t, Close); }
    hide OkSide, Waits, Held, Repost;
  }

  /** In a send_, which gives nothing back. */
  lemma SendEndIs(t: Side)
    requires t.pc.Resolve? && t.pc.caller == InSend
    requires t.wrQueue == [] || SlotMeta(t, t.wrQueue[0]).typ == Close
    ensures var t' := ResolveStep(t);
      && t'.recvQueue == t.recvQueue && (t.closeFlag ==> t'.closeFlag) && (t.wrQueue != [] ==> t'.closeFlag)
      && SlotInHand(t.pc) == SlotInHand(t'.pc) && Ahead(t) == t.wrQueue
  {
    hide Held;
  }

  lemma SendEndKeeps(t: Side)
    requires OkSide(t) && t.pc.Resolve? && t.pc.caller == InSend
    requires t.wrQueue == [] || SlotMeta(t, t.wrQueue[0]).typ == Close
    ensures Keeps(t, ResolveStep(t))
  {
    SendEndIs(t);
    if t.wrQueue != [] {
      FirstAhead(t);
      assert t.wrQueue == [t.wrQueue[0]];
    }
    hide OkSide, Held, ResolveStep, Ahead, SlotInHand;
  }

  lemma HandlingKeeps(t: Side)
    requires OkSide(t) && t.pc.Resolve?
    requires t.pc.caller == InSend || (t.wrQueue != [] && SlotMeta(t, t.wrQueue[0]).typ != Close)
    ensures Keeps(t, ResolveStep(t))
  {
    if t.wrQueue != [] {
      FirstAhead(t);
    }
    hide *;
    if t.wrQueue == [] {
      SendEndKeeps(t);
    } else {
      match SlotMeta(t, t.wrQueue[0]).typ {
        case Normal => NormalKeeps(t);
        case Ack => AckTakenKeeps(t);
        case Close => SendEndKeeps(t);
      }
    }
  }

  /** A step of the thread on its way through a call. */
  lemma ThreadKeeps(t: Side)
    requires OkSide(t) && ThreadCan(t, Go)
    requires t.pc.Resolve? ==>
      t.pc.caller == InSend || (t.wrQueue != [] && SlotMeta(t, t.wrQueue[0]).typ != Close)
    ensures Keeps(t, ThreadStep(t, Go))
  {
    hide OkSide, Keeps, PollEvent, PollDrain, PollReturn, ResolveStep, SendPost, AckPost;
    match t.pc {
      case Poll(Event, _, _) => EventKeeps(t);
      case Poll(Drain, _, _) => DrainKeeps(t);
      case Poll(Rearm, _, _) => ReturnKeeps(t);
      case Resolve(_, _) => HandlingKeeps(t);
      case Posting(_, _) => PostKeeps(t);
      case Acking(_, _, _) => AckKeeps(t);
    }
  }

  lemma ArrivalIs(y: Side, meta: Meta)
    requires OkSide(y) && y.rq != [] && y.rq[0] < |y.slots|
    ensures var t, j := Arrived(y, meta), y.rq[0];
      && (Ahead(t) == Ahead(y) || Ahead(t) == Ahead(y) + [j]) && j !in Ahead(y) && t.slots == y.slots[j := meta]
      && t.pc == y.pc && t.recvQueue == y.recvQueue && t.closeFlag == y.closeFlag
  {
    SlotOnce(Held(y), y.rq, SlotInHand(y.pc), y.rq[0]);
    ArrivedFields(y, meta);
    hide OkSide, SlotsIn, SlotInHand;
  }

  lemma ArrivalRemains(slots: seq<Meta>, q: seq<nat>, j: nat, meta: Meta, q': seq<nat>)
    requires j < |slots| && j !in q && (q' == q || q' == q + [j])
    ensures Remain(slots, q, slots[j := meta], q')
  {
  }

  lemma ArrivalKeeps(y: Side, meta: Meta)
    requires OkSide(y) && y.rq != [] && y.rq[0] < |y.slots|
    ensures Keeps(y, Arrived(y, meta))
  {
    hide *;
    ArrivalIs(y, meta);
    ArrivalRemains(y.slots, Ahead(y), y.rq[0], meta, Ahead(Arrived(y, meta)));
    StillThere(y, Arrived(y, meta));
  }

  /** The other moves leave it so. */
  lemma OthersKeep(p: Pair, e: End, m: Move)
    requires OkPair(p) && Can(p, m) && !(m.Thread? && m.end == e)
    ensures Keeps(Mine(p, e), Mine(Next(p, m), e))
  {
    var t, t' := Mine(p, e), Mine(Next(p, m), e);
    if m.Deliver? && m.end != e {
      assert t' == Arrived(t, Content(Peer(p, e)));
      hide OkSide, Link, Arrived, Keeps, Content;
      ArrivalKeeps(t, Content(Peer(p, e)));
    } else {
      AdapterFields(p, e, m);
      Same(t.slots, Ahead(t));
      assert Ahead(t') == Ahead(t);
      hide OkPair, Next, Can, Held, Ahead, SlotInHand, Keeps, Remain;
      StillThere(t, t');
    }
  }

  lemma AdapterFields(p: Pair, e: End, m: Move)
    requires OkPair(p) && Can(p, m) && !(m.Thread? && m.end == e) && !(m.Deliver? && m.end != e)
    ensures var t, t' := Mine(p, e), Mine(Next(p, m), e);
      && Held(t') == Held(t) && t'.slots == t.slots && t'.pc == t.pc && t'.wrQueue == t.wrQueue
      && t'.recvQueue == t.recvQueue && t'.closeFlag == t.closeFlag
  {
    var t := Mine(p, e);
    if m.end == e {
      match m {
        case Finish(_) => ReportKeeps(t);
        case Deliver(_) =>
        case Read(_) =>
      }
    }
    hide OkSide, FlowOk, CloseLink, ThreadStep, SlotsIn, Fetched, Content;
  }

  // ---------------------------------------------------------------- send_

  /** A send_ that began in s has not posted its descriptor yet. */
  ghost predicate Preparing(s: Side, t: Side, msg: Message, addr: nat) {
    && Prepared(t.pc) == Some((DescOf(msg, addr), msg)) && !t.closeLock && t.closeFlag == s.closeFlag
    && t.sent == s.sent && t.posted == s.posted && t.returned == s.returned && s.recvQueue <= t.recvQueue
  }

  /** It has posted it, exactly once, and nothing else. */
  ghost predicate HasSent(s: Side, t: Side, msg: Message, addr: nat) {
    && !t.closeLock && (s.closeFlag ==> t.closeFlag)
    && t.sent == s.sent + [msg] && t.posted == s.posted + [DescOf(msg, addr)]
    && t.returned == s.returned && s.recvQueue <= t.recvQueue
  }

  predicate InSendCall(pc: Pc) {
    (pc.Poll? && pc.why.ForSend?) || CallerOf(pc) == Some(InSend)
  }

  ghost predicate SendUnderWay(s: Side, t: Side, msg: Message, addr: nat) {
    Preparing(s, t, msg, addr) || (HasSent(s, t, msg, addr) && InSendCall(t.pc))
  }

  lemma PreparingPolls(s: Side, t: Side, msg: Message, addr: nat)
    requires Preparing(s, t, msg, addr) && t.pc.Poll?
    ensures Preparing(s, PollEvent(t), msg, addr) && Preparing(s, PollDrain(t), msg, addr)
    ensures Preparing(s, PollReturn(t), msg, addr) && PollReturn(t).pc.Posting?
  {
    hide SlotsIn, Tokens, DescOf, AckFinished;
  }

  lemma PreparingGoes(s: Side, t: Side, msg: Message, addr: nat)
    requires Preparing(s, t, msg, addr) && ThreadCan(t, Go)
    ensures SendUnderWay(s, ThreadStep(t, Go), msg, addr)
  {
    hide PollEvent, PollDrain, PollReturn, DescOf;
    if t.pc.Poll? {
      PreparingPolls(s, t, msg, addr);
    }
  }

  lemma SentPolls(s: Side, t: Side, msg: Message, addr: nat)
    requires HasSent(s, t, msg, addr) && InSendCall(t.pc) && t.pc.Poll?
    ensures HasSent(s, PollEvent(t), msg, addr) && InSendCall(PollEvent(t).pc)
    ensures HasSent(s, PollDrain(t), msg, addr) && InSendCall(PollDrain(t).pc)
    ensures HasSent(s, PollReturn(t), msg, addr) && InSendCall(PollReturn(t).pc)
  {
    hide SlotsIn, Tokens, DescOf;
  }

  lemma SentResolved(s: Side, t: Side, msg: Message, addr: nat, flag: Flag)
    requires HasSent(s, t, msg, addr) && t.pc.Resolve? && t.pc.caller == InSend
    ensures HasSent(s, Resolved(t, flag), msg, addr) && Resolved(t, flag).pc.Idle?
  {
    hide DescOf;
  }

  lemma SentHandles(s: Side, t: Side, msg: Message, addr: nat)
    requires HasSent(s, t, msg, addr) && t.pc.Resolve? && t.pc.caller == InSend
    ensures var t' := ResolveStep(t); HasSent(s, t', msg, addr) && (InSendCall(t'.pc) || t'.pc.Idle?)
  {
    if t.wrQueue == [] {
      SentResolved(s, t, msg, addr, if t.pc.got then GotMessage else NoMessage);
    } else if SlotMeta(t, t.wrQueue[0]).typ == Close {
      SentResolved(s, CloseTaken(t), msg, addr, PeerClosed);
    }
    hide Resolved, DescOf;
  }

  lemma SentGoes(s: Side, t: Side, msg: Message, addr: nat)
    requires HasSent(s, t, msg, addr) && InSendCall(t.pc) && ThreadCan(t, Go)
    ensures var t' := ThreadStep(t, Go);
      HasSent(s, t', msg, addr) && (InSendCall(t'.pc) || t'.pc.Idle?)
  {
    hide PollEvent, PollDrain, PollReturn, ResolveStep, DescOf;
    match t.pc {
      case Poll(_, _, _) => SentPolls(s, t, msg, addr);
      case Resolve(_, _) => SentHandles(s, t, msg, addr);
      case Acking(_, _, _) =>
    }
  }

  lemma SendStarts(s: Side, msg: Message, addr: nat)
    requires ThreadCan(s, Begin(CallSend(msg, addr)))
    ensures var t := ThreadStep(s, Begin(CallSend(msg, addr)));
      if s.closeLock then t == s
      else
        Preparing(s, t, msg, addr) && t.slots == s.slots && Ahead(t) == Held(s) && t.recvQueue == s.recvQueue
  {
    hide SlotsIn;
  }

  lemma OthersLeaveSend(p: Pair, e: End, m: Move, s: Side, msg: Message, addr: nat)
    requires Can(p, m) && !(m.Thread? && m.end == e) && SendUnderWay(s, Mine(p, e), msg, addr)
    ensures SendUnderWay(s, Mine(Next(p, m), e), msg, addr)
  {
    hide ThreadStep, SlotsIn, Fetched, Content, DescOf;
  }

  /** All that had arrived in s is taken up. */
  ghost predicate TakesUp(s: Side, t: Side) {
    (Waits(s.slots, Held(s), Normal) ==> HasMessage(t)) && (Waits(s.slots, Held(s), Close) ==> SeesClose(t))
  }

  lemma {:induction false} SendRuns(p: Pair, e: End, moves: seq<Move>, fin: Pair, s: Side, msg: Message, addr: nat)
    requires Settled(p) && Finishes(p, e, moves, fin)
    requires SendUnderWay(s, Mine(p, e), msg, addr) && TakesUp(s, Mine(p, e))
    ensures Settled(fin) && HasSent(s, Mine(fin, e), msg, addr) && TakesUp(s, Mine(fin, e)) && Mine(fin, e).pc.Idle?
    decreases |moves|
  {
    var m, next := moves[0], Next(p, moves[0]);
    assert OkPair(p) && OkSide(Mine(p, e)) && !Mine(p, e).pc.Idle?;
    MoveKeepsSettled(p, m);
    hide ThreadStep, Next, Can, OkPair, OkSide, HasClose, Held, ThreadCan, Waits, HasMessage, SeesClose;
    hide Preparing, HasSent, CloseSeen;
    if m.Thread? && m.end == e {
      OwnGo(p, m);
      SendGoes(s, Mine(p, e), msg, addr);
      if SendUnderWay(s, Mine(next, e), msg, addr) {
        SendRuns(next, e, moves[1..], fin, s, msg, addr);
      }
    } else {
      OthersLeaveSend(p, e, m, s, msg, addr);
      OthersKeep(p, e, m);
      SendRuns(next, e, moves[1..], fin, s, msg, addr);
    }
  }

  lemma OwnGo(p: Pair, m: Move)
    requires Can(p, m) && m.Thread? && !Mine(p, m.end).pc.Idle?
    ensures ThreadCan(Mine(p, m.end), Go) && Mine(Next(p, m), m.end) == ThreadStep(Mine(p, m.end), Go)
  {
    hide ThreadStep;
  }

  lemma SendGoes(s: Side, t: Side, msg: Message, addr: nat)
    requires OkSide(t) && SendUnderWay(s, t, msg, addr) && ThreadCan(t, Go)
    ensures var t' := ThreadStep(t, Go);
      && Keeps(t, t')
      && (SendUnderWay(s, t', msg, addr) || (HasSent(s, t', msg, addr) && t'.pc.Idle?))
  {
    hide OkSide, ThreadStep, Keeps;
    ThreadKeeps(t);
    if Preparing(s, t, msg, addr) {
      PreparingGoes(s, t, msg, addr);
    } else {
      SentGoes(s, t, msg, addr);
    }
  }

  /** A send_ call, made in any state a connection can come to and with any moves of both ends until it
      returns: if close_lock was held it does nothing at all.  Otherwise it posts exactly one descriptor,
      which describes its message, and the message is the next of those sent; and it has taken up all
      descriptors that had arrived when it began: messages are queued, and a CLOSE is noted. */
  lemma SendCall(p: Pair, e: End, msg: Message, addr: nat, moves: seq<Move>, fin: Pair)
    requires Reachable(p) && WholeCall(p, e, CallSend(msg, addr), moves, fin)
    ensures var s, t := Mine(p, e), Mine(fin, e);
      if s.closeLock then fin == p
      else
        && t.sent == s.sent + [msg] && |t.posted| == |s.posted| + 1 && t.posted[..|s.posted|] == s.posted
        && (if msg.data == [] then t.posted[|s.posted|] == Desc(0, 0, msg.flag)
            else t.posted[|s.posted|] == Desc(addr, |msg.data|, msg.flag))
        && t.returned == s.returned && s.recvQueue <= t.recvQueue && t.wrQueue == []
        && (Waits(s.slots, Held(s), Normal) ==> t.recvQueue != [])
        && (s.closeFlag || Waits(s.slots, Held(s), Close) ==> t.closeFlag)
        && (t.closeFlag ==> Peer(fin, e).closePosted)
  {
    ReachableIsSettled(p);
    var s, begin := Mine(p, e), Thread(e, Begin(CallSend(msg, addr)));
    SendBeginsAt(p, e, msg, addr);
    hide Settled, ThreadStep, Next, Can, Reachable, Preparing, Waits, Held, HasMessage, SeesClose, DescOf;
    MoveKeepsSettled(p, begin);
    if !s.closeLock {
      SendRuns(Next(p, begin), e, moves, fin, s, msg, addr);
      SendEnds(s, fin, e, msg, addr);
    }
  }

  lemma SendBeginsAt(p: Pair, e: End, msg: Message, addr: nat)
    requires Can(p, Thread(e, Begin(CallSend(msg, addr)))) && Mine(p, e).pc.Idle?
    ensures var s, next := Mine(p, e), Next(p, Thread(e, Begin(CallSend(msg, addr))));
      if s.closeLock then next == p
      else SendUnderWay(s, Mine(next, e), msg, addr) && TakesUp(s, Mine(next, e))
  {
    SendStarts(Mine(p, e), msg, addr);
    hide ThreadStep, Preparing, Held;
  }

  lemma SendEnds(s: Side, fin: Pair, e: End, msg: Message, addr: nat)
    requires Settled(fin) && HasSent(s, Mine(fin, e), msg, addr) && TakesUp(s, Mine(fin, e)) && Mine(fin, e).pc.Idle?
    ensures var t := Mine(fin, e);
      && t.wrQueue == [] && |t.posted| == |s.posted| + 1 && t.posted[..|s.posted|] == s.posted
      && (if msg.data == [] then t.posted[|s.posted|] == Desc(0, 0, msg.flag)
          else t.posted[|s.posted|] == Desc(addr, |msg.data|, msg.flag))
      && (Waits(s.slots, Held(s), Normal) ==> t.recvQueue != [])
      && (Waits(s.slots, Held(s), Close) ==> t.closeFlag)
      && (t.closeFlag ==> Peer(fin, e).closePosted)
  {
    assert PcOk(Mine(fin, e)) && CloseLink(Peer(fin, e), Mine(fin, e));
    hide Settled, Held;
  }

  // ---------------------------------------------------------------- the credit

  /** The steps that a send_ has left until it posts its descriptor: one, and three more to look at the
      completion queue once if it has no credit. */
  function StepsToPost(pc: Pc): nat {
    match pc
    case Posting(_, _) => 1
    case Poll(Rearm, _, ForCredit(_, _)) => 2
    case Poll(Drain, _, ForCredit(_, _)) => 3
    case Poll(Event, _, ForCredit(_, _)) => 4
    case _ => 0
  }

  /** How many of the moves are steps of the thread at this end. */
  function StepsOf(moves: seq<Move>, e: End): nat
    decreases |moves|
  {
    if moves == [] then 0 else (if moves[0].Thread? && moves[0].end == e then 1 else 0) + StepsOf(moves[1..], e)
  }

  lemma PreparingCounts(s: Side, t: Side, msg: Message, addr: nat)
    requires Preparing(s, t, msg, addr) && ThreadCan(t, Go)
    ensures var t' := ThreadStep(t, Go);
      if StepsToPost(t.pc) == 1 then t'.sent == s.sent + [msg]
      else Preparing(s, t', msg, addr) && StepsToPost(t'.pc) == StepsToPost(t.pc) - 1
  {
    hide SlotsIn, Tokens, DescOf, AckFinished;
  }

  lemma OthersLeavePreparing(p: Pair, e: End, m: Move, s: Side, msg: Message, addr: nat)
    requires Can(p, m) && !(m.Thread? && m.end == e) && Preparing(s, Mine(p, e), msg, addr)
    ensures Preparing(s, Mine(Next(p, m), e), msg, addr) && Mine(Next(p, m), e).pc == Mine(p, e).pc
  {
    hide ThreadStep, SlotsIn, Fetched, Content, DescOf;
  }

  lemma {:induction false} PreparingRuns(p: Pair, e: End, moves: seq<Move>, q: Pair, s: Side, msg: Message, addr: nat)
    requires Runs(p, moves, q) && Preparing(s, Mine(p, e), msg, addr)
    requires StepsOf(moves, e) <= StepsToPost(Mine(p, e).pc)
    ensures Mine(q, e).sent == if StepsOf(moves, e) < StepsToPost(Mine(p, e).pc) then s.sent else s.sent + [msg]
    decreases |moves|
  {
    var t := Mine(p, e);
    assert StepsToPost(t.pc) > 0 && !t.pc.Idle? && t.sent == s.sent;
    hide ThreadStep, Next, Can, ThreadCan, Preparing, StepsToPost;
    if moves != [] {
      var m, next := moves[0], Next(p, moves[0]);
      if m.Thread? && m.end == e {
        OwnGo(p, m);
        PreparingCounts(s, t, msg, addr);
        if StepsToPost(t.pc) == 1 {
          RestLeavesSent(next, e, moves[1..], q);
        } else {
          PreparingRuns(next, e, moves[1..], q, s, msg, addr);
        }
      } else {
        OthersLeavePreparing(p, e, m, s, msg, addr);
        PreparingRuns(next, e, moves[1..], q, s, msg, addr);
      }
    }
  }

  lemma {:induction false} RestLeavesSent(p: Pair, e: End, moves: seq<Move>, q: Pair)
    requires Runs(p, moves, q) && StepsOf(moves, e) == 0
    ensures Mine(q, e).sent == Mine(p, e).sent
    decreases |moves|
  {
    if moves != [] {
      RestLeavesSent(Next(p, moves[0]), e, moves[1..], q);
    }
    hide ThreadStep, SlotsIn, Fetched, Content;
  }

  /** Whether a send_ has posted depends only on how many steps it has made: with a credit it posts with the
      first one; without, it lets poll_wc take one notification, in three steps, and then posts with
      the next whatever that has brought. */
  lemma SendPostsInTime(p: Pair, e: End, msg: Message, addr: nat, moves: seq<Move>, q: Pair)
    requires Can(p, Thread(e, Begin(CallSend(msg, addr)))) && !Mine(p, e).closeLock
    requires Runs(Next(p, Thread(e, Begin(CallSend(msg, addr)))), moves, q)
    requires StepsOf(moves, e) <= if Mine(p, e).peerBuffCount > 0 then 1 else 4
    ensures Mine(q, e).sent == Mine(p, e).sent +
      if StepsOf(moves, e) == (if Mine(p, e).peerBuffCount > 0 then 1 else 4) then [msg] else []
  {
    var s, next := Mine(p, e), Next(p, Thread(e, Begin(CallSend(msg, addr))));
    SendStarts(s, msg, addr);
    assert Mine(next, e) == ThreadStep(s, Begin(CallSend(msg, addr)));
    assert StepsToPost(Mine(next, e).pc) == if s.peerBuffCount > 0 then 1 else 4;
    Empty(s.sent);
    hide *;
    PreparingRuns(next, e, moves, q, s, msg, addr);
  }

  // ---------------------------------------------------------------- close_

  /** The close_ at end e comes to its end after these moves. */
  ghost predicate Closes(p: Pair, e: End, moves: seq<Move>, fin: Pair)
    decreases |moves|
  {
    if Mine(p, e).pc.Closed? then moves == [] && p == fin
    else moves != [] && Can(p, moves[0]) && Closes(Next(p, moves[0]), e, moves[1..], fin)
  }

  predicate InCloseCall(pc: Pc) {
    (pc.Poll? && pc.why.ForAllAcks?) || CallerOf(pc) == Some(InClose)
  }

  /** A close_ that began in s has neither sent nor given back anything. */
  ghost predicate Closing(s: Side, t: Side) {
    && !t.closeLock && t.sent == s.sent && t.posted == s.posted && t.returned == s.returned
    && s.recvQueue <= t.recvQueue && t.closeFlag == s.closeFlag
  }

  ghost predicate HasClosed(s: Side, t: Side) {
    Closing(s, t) && t.pc.Closed? && t.closePosted && t.sq != [] &&
    t.sq[|t.sq| - 1] == SendMeta(Meta(Close, Desc(0, 0, 0)))
  }

  lemma CloseStarts(s: Side)
    requires ThreadCan(s, Begin(CallClose))
    ensures var t := ThreadStep(s, Begin(CallClose));
      if s.closeLock then t == s.(pc := Closed) else (Closing(s, t) && InCloseCall(t.pc)) || HasClosed(s, t)
  {
  }

  lemma ClosingPolls(s: Side, t: Side)
    requires Closing(s, t) && InCloseCall(t.pc) && t.pc.Poll?
    ensures Closing(s, PollEvent(t)) && InCloseCall(PollEvent(t).pc)
    ensures Closing(s, PollDrain(t)) && InCloseCall(PollDrain(t).pc)
    ensures Closing(s, PollReturn(t)) && InCloseCall(PollReturn(t).pc)
  {
    hide SlotsIn, Tokens;
  }

  lemma ClosingResolved(s: Side, t: Side, flag: Flag)
    requires Closing(s, t) && t.pc.Resolve? && t.pc.caller == InClose
    ensures var t' := Resolved(t, flag); (Closing(s, t') && InCloseCall(t'.pc)) || HasClosed(s, t')
  {
  }

  lemma ClosingHandles(s: Side, t: Side)
    requires Closing(s, t) && t.pc.Resolve? && t.pc.caller == InClose
    ensures var t' := ResolveStep(t); (Closing(s, t') && InCloseCall(t'.pc)) || HasClosed(s, t')
  {
    if t.wrQueue == [] {
      ClosingResolved(s, t, if t.pc.got then GotMessage else NoMessage);
    } else if SlotMeta(t, t.wrQueue[0]).typ == Close {
      ClosingResolved(s, CloseTaken(t), PeerClosed);
    }
    hide Resolved, HasClosed;
  }

  lemma ClosingGoes(s: Side, t: Side)
    requires Closing(s, t) && InCloseCall(t.pc) && ThreadCan(t, Go)
    ensures var t' := ThreadStep(t, Go); (Closing(s, t') && InCloseCall(t'.pc)) || HasClosed(s, t')
  {
    hide PollEvent, PollDrain, PollReturn, ResolveStep;
    match t.pc {
      case Poll(_, _, _) => ClosingPolls(s, t);
      case Resolve(_, _) => ClosingHandles(s, t);
      case Acking(_, _, _) =>
    }
  }

  lemma OthersLeaveClosing(p: Pair, e: End, m: Move, s: Side)
    requires Can(p, m) && !(m.Thread? && m.end == e) && Closing(s, Mine(p, e))
    ensures Closing(s, Mine(Next(p, m), e)) && Mine(Next(p, m), e).pc == Mine(p, e).pc
  {
    hide ThreadStep, SlotsIn, Fetched, Content;
  }

  lemma {:induction false} CloseRuns(p: Pair, e: End, moves: seq<Move>, fin: Pair, s: Side)
    requires OkPair(p) && Closes(p, e, moves, fin) && Closing(s, Mine(p, e)) && InCloseCall(Mine(p, e).pc)
    ensures OkPair(fin) && HasClosed(s, Mine(fin, e))
    decreases |moves|
  {
    var m, next := moves[0], Next(p, moves[0]);
    MoveKeepsPair(p, m);
    hide ThreadStep, Next, Can, OkPair, Closing;
    if m.Thread? && m.end == e {
      OwnGo(p, m);
      hide ThreadCan;
      ClosingGoes(s, Mine(p, e));
      if !HasClosed(s, Mine(next, e)) {
        CloseRuns(next, e, moves[1..], fin, s);
      }
    } else {
      OthersLeaveClosing(p, e, m, s);
      CloseRuns(next, e, moves[1..], fin, s);
    }
  }

  /** A close_ call, made in any state a connection can come to and with any moves of both ends: if
      close_lock was held it sends nothing.  Otherwise it ends with CLOSE as the last descriptor it has
      posted, all messages acknowledged and no copy left, having sent and given back nothing. */
  lemma CloseCall(p: Pair, e: End, moves: seq<Move>, fin: Pair)
    requires Reachable(p) && Can(p, Thread(e, Begin(CallClose)))
    requires Closes(Next(p, Thread(e, Begin(CallClose))), e, moves, fin)
    ensures var s, t := Mine(p, e), Mine(fin, e);
      if s.closeLock then t == s.(pc := Closed) && !t.closePosted
      else
        && t.closePosted && t.sq == [SendMeta(Meta(Close, Desc(0, 0, 0)))]
        && t.ackCounter == |t.posted| && t.copies == map[]
        && t.sent == s.sent && t.posted == s.posted && t.returned == s.returned && s.recvQueue <= t.recvQueue
  {
    hide *;
    var s, next := Mine(p, e), Next(p, Thread(e, Begin(CallClose)));
    ReachableIsOk(p);
    CloseBeginsAt(p, e);
    MoveKeepsPair(p, Thread(e, Begin(CallClose)));
    CloseStarts(s);
    if s.closeLock {
      LockedPostsNothing(p, e);
      ClosesAtOnce(next, e, moves, fin);
    } else {
      if Mine(next, e).pc.Closed? {
        ClosesAtOnce(next, e, moves, fin);
        ClosedIsNotInCall(Mine(next, e).pc);
      } else {
        NotClosedYet(s, Mine(next, e));
        CloseRuns(next, e, moves, fin, s);
      }
      ClosedSide(fin, e, s);
    }
  }

  lemma LockedPostsNothing(p: Pair, e: End)
    requires OkPair(p) && Mine(p, e).closeLock
    ensures !Mine(p, e).closePosted
  {
    assert PcOk(Mine(p, e));
  }

  lemma ClosesAtOnce(p: Pair, e: End, moves: seq<Move>, fin: Pair)
    requires Closes(p, e, moves, fin) && Mine(p, e).pc.Closed?
    ensures fin == p
  {
  }

  lemma ClosedIsNotInCall(pc: Pc)
    requires pc.Closed?
    ensures !InCloseCall(pc)
  {
  }

  lemma NotClosedYet(s: Side, t: Side)
    requires !t.pc.Closed?
    ensures !HasClosed(s, t)
  {
  }

  lemma CloseBeginsAt(p: Pair, e: End)
    requires Can(p, Thread(e, Begin(CallClose)))
    ensures var s := Mine(p, e);
      && ThreadCan(s, Begin(CallClose)) && s.pc.Idle?
      && Mine(Next(p, Thread(e, Begin(CallClose))), e) == ThreadStep(s, Begin(CallClose))
  {
    hide ThreadStep;
  }

  lemma ClosedSide(fin: Pair, e: End, s: Side)
    requires OkPair(fin) && HasClosed(s, Mine(fin, e))
    ensures var t := Mine(fin, e);
      && t.closePosted && t.sq == [SendMeta(Meta(Close, Desc(0, 0, 0)))]
      && t.ackCounter == |t.posted| && t.copies == map[]
      && t.sent == s.sent && t.posted == s.posted && t.returned == s.returned && s.recvQueue <= t.recvQueue
  {
    var t := Mine(fin, e);
    assert SqOk(t.sq, t.pc, t.slots, t.posted) && PcOk(t);
    assert Prepared(t.pc) == None;
    assert forall a :: !Needed(t.posted, t.ackCounter, None, a);
    hide SlotsOk, HeldOk, TokensOk, FlowOk, CloseLink, HasClose, Link;
  }

  // ---------------------------------------------------------------- irecv_

  /** An irecv_ has returned, and what had arrived when it began in s it has taken up. */
  ghost predicate Satisfied(s: Side, t: Side) {
    && t.pc.Idle?
    && (Waits(s.slots, Held(s), Close) ==> t.closeFlag)
    && (s.recvQueue != [] || Waits(s.slots, Held(s), Normal) ==> t.closeFlag || t.returned != s.returned)
  }

  lemma NothingAhead(t: Side)
    requires t.pc.Resolve? && t.wrQueue == []
    ensures (HasMessage(t) ==> t.recvQueue != []) && (SeesClose(t) ==> t.closeFlag)
  {
  }

  lemma IrecvSatisfied(s: Side, t: Side)
    requires OkSide(t) && UnderWay(s, t, {InIrecv}) && TakesUp(s, t) && t.pc.Resolve?
    requires t.wrQueue == [] || SlotMeta(t, t.wrQueue[0]).typ == Close
    ensures Satisfied(s, ResolveStep(t))
  {
    if t.wrQueue == [] {
      NothingAhead(t);
    }
    hide OkSide, Waits, Held, HasMessage, SeesClose;
  }

  lemma IrecvOnItsWay(s: Side, t: Side)
    requires OkSide(t) && UnderWay(s, t, {InIrecv}) && TakesUp(s, t) && ThreadCan(t, Go)
    requires !(t.pc.Resolve? && (t.wrQueue == [] || SlotMeta(t, t.wrQueue[0]).typ == Close))
    ensures UnderWay(s, ThreadStep(t, Go), {InIrecv}) && TakesUp(s, ThreadStep(t, Go))
  {
    ThreadKeeps(t);
    hide OkSide, Waits, Held, HasMessage, SeesClose, PollEvent, PollDrain, PollReturn, ResolveStep;
    match t.pc {
      case Poll(_, _, _) => PollGoes(s, t, {InIrecv});
      case Resolve(_, _) => HandlingGoes(s, t, {InIrecv});
      case Acking(_, _, _) =>
    }
  }

  lemma {:induction false} IrecvTakes(p: Pair, e: End, moves: seq<Move>, fin: Pair, s: Side)
    requires Settled(p) && Finishes(p, e, moves, fin) && UnderWay(s, Mine(p, e), {InIrecv}) && TakesUp(s, Mine(p, e))
    ensures Satisfied(s, Mine(fin, e))
    decreases |moves|
  {
    var m, next, t := moves[0], Next(p, moves[0]), Mine(p, e);
    assert OkPair(p) && OkSide(t) && !t.pc.Idle?;
    MoveKeepsSettled(p, m);
    hide Settled, ThreadStep, Next, Can, OkPair, OkSide, ThreadCan, TakesUp, UnderWay, Keeps;
    if m.Thread? && m.end == e {
      OwnGo(p, m);
      if t.pc.Resolve? && (t.wrQueue == [] || SlotMeta(t, t.wrQueue[0]).typ == Close) {
        assert ThreadStep(t, Go) == ResolveStep(t) by { OnlyResolveCloses(t, Go); }
        IrecvSatisfied(s, t);
      } else {
        IrecvOnItsWay(s, t);
        IrecvTakes(next, e, moves[1..], fin, s);
      }
    } else {
      OthersLeave(p, e, m, s, {InIrecv});
      OthersKeep(p, e, m);
      KeptTakesUp(s, t, Mine(next, e));
      IrecvTakes(next, e, moves[1..], fin, s);
    }
  }

  lemma KeptTakesUp(s: Side, t: Side, t': Side)
    requires TakesUp(s, t) && Keeps(t, t')
    ensures TakesUp(s, t')
  {
    hide HasMessage, SeesClose, Waits, Held;
  }

  lemma IrecvStarts(s: Side)
    requires ThreadCan(s, Begin(CallIrecv)) && !s.closeLock
    ensures TakesUp(s, ThreadStep(s, Begin(CallIrecv)))
  {
    assert SlotsIn([]) == [];
    hide SlotsIn;
  }

  /** A whole irecv_ call takes up what had arrived when it began: if a message was queued or had arrived, it gives
      one, unless CLOSE has been noted; and a CLOSE that had arrived is noted. */
  lemma IrecvTakesWhatArrived(p: Pair, e: End, moves: seq<Move>, fin: Pair)
    requires Reachable(p) && WholeCall(p, e, CallIrecv, moves, fin)
    ensures var s, t := Mine(p, e), Mine(fin, e);
      && (Waits(s.slots, Held(s), Close) ==> t.closeFlag)
      && (s.recvQueue != [] || Waits(s.slots, Held(s), Normal) ==> t.closeFlag || t.returned != s.returned)
  {
    ReachableIsSettled(p);
    CallBegins(p, e, CallIrecv, moves, fin);
    IrecvCallers();
    var s, begin := Mine(p, e), Thread(e, Begin(CallIrecv));
    assert ThreadCan(s, Begin(CallIrecv)) && Mine(Next(p, begin), e) == ThreadStep(s, Begin(CallIrecv));
    hide Settled, ThreadStep, Next, Can, UnderWay, Reachable, Finishes, ThreadCan, TakesUp, Waits, Held, CallersOf;
    if !s.closeLock {
      IrecvStarts(s);
      IrecvTakes(Next(p, begin), e, moves, fin, s);
    }
  }

  // ---------------------------------------------------------------- CLOSE is not lost

  /** The thread is in close_ itself, where a CLOSE of the peer is not noted. */
  predicate OnItsWayOut(pc: Pc) {
    pc.Closed? || InCloseCall(pc)
  }

  /** A CLOSE that has been posted is under way, waits, or has been noted, unless the other end closes too. */
  ghost predicate CloseKept(x: Side, y: Side) {
    x.closePosted ==> x.sq != [] || Waits(y.slots, Held(y), Close) || y.closeFlag || OnItsWayOut(y.pc)
  }

  lemma PollOnWayOut(y: Side)
    requires y.pc.Poll? && (OnItsWayOut(y.pc) || y.closeFlag)
    ensures OnItsWayOut(PollEvent(y).pc) || PollEvent(y).closeFlag
    ensures OnItsWayOut(PollDrain(y).pc) || PollDrain(y).closeFlag
    ensures OnItsWayOut(PollReturn(y).pc) || PollReturn(y).closeFlag
  {
    hide SlotsIn, Tokens;
  }

  lemma ResolvedOnWayOut(t: Side, flag: Flag)
    requires t.pc.Resolve? && (OnItsWayOut(t.pc) || t.closeFlag)
    ensures OnItsWayOut(Resolved(t, flag).pc) || Resolved(t, flag).closeFlag
  {
  }

  lemma HandleOnWayOut(t: Side)
    requires t.pc.Resolve? && (OnItsWayOut(t.pc) || t.closeFlag)
    ensures OnItsWayOut(ResolveStep(t).pc) || ResolveStep(t).closeFlag
  {
    if t.wrQueue == [] {
      ResolvedOnWayOut(t, if t.pc.got then GotMessage else NoMessage);
    } else if SlotMeta(t, t.wrQueue[0]).typ == Close {
      ResolvedOnWayOut(CloseTaken(t), PeerClosed);
    }
    hide Resolved;
  }

  lemma BeginOnWayOut(y: Side, act: Act)
    requires ThreadCan(y, act) && act.Begin? && y.closeFlag
    ensures OnItsWayOut(ThreadStep(y, act).pc) || ThreadStep(y, act).closeFlag
  {
    hide SlotsIn;
  }

  lemma WayOutIsFinal(y: Side, act: Act)
    requires ThreadCan(y, act) && (OnItsWayOut(y.pc) || y.closeFlag)
    ensures var y' := ThreadStep(y, act); OnItsWayOut(y'.pc) || y'.closeFlag
  {
    hide PollEvent, PollDrain, PollReturn, ResolveStep, SendBegin, RecvBegin, CloseBegin;
    match act
    case Begin(_) => BeginOnWayOut(y, act);
    case Go =>
      match y.pc {
        case Poll(_, _, _) => PollOnWayOut(y);
        case Resolve(_, _) => HandleOnWayOut(y);
        case _ =>
      }
  }

  /** The slots that the thread does not take leave the wait for CLOSE as it was. */
  lemma CloseStaysHeld(y: Side, act: Act)
    requires OkSide(y) && ThreadCan(y, act) && Waits(y.slots, Held(y), Close)
    ensures var y' := ThreadStep(y, act); Waits(y'.slots, Held(y'), Close) || y'.closeFlag || OnItsWayOut(y'.pc)
  {
    var y' := ThreadStep(y, act);
    hide Waits, PollEvent, PollDrain, PollReturn, ResolveStep, SendPost, AckPost, SlotsIn;
    match act
    case Begin(_) =>
      assert y'.slots == y.slots && Held(y') == Held(y) by { BeginHolds(y, act); }
    case Go =>
      match y.pc {
        case Resolve(_, _) => CloseHandled(y);
        case _ =>
          StepHolds(y);
          WaitsOn(y.slots, Held(y), y'.slots, Held(y'), Close);
      }
  }

  lemma BeginHolds(y: Side, act: Act)
    requires ThreadCan(y, act) && act.Begin?
    ensures ThreadStep(y, act).slots == y.slots && Held(ThreadStep(y, act)) == Held(y)
  {
    assert SlotsIn([]) == [];
    Empty(Held(y));
    hide SlotsIn;
  }

  lemma PollHolds(y: Side)
    requires OkSide(y) && y.pc.Poll?
    ensures PollEvent(y).slots == PollDrain(y).slots == y.slots
    ensures Held(PollEvent(y)) == Held(PollDrain(y)) == Held(y)
  {
    assert SlotsIn([]) == [];
    Empty(Held(y));
    hide SlotsIn, OkSide, Tokens;
  }

  lemma ReturnHolds(y: Side)
    requires OkSide(y) && y.pc.Poll? && y.pc.stage == Rearm
    ensures Remain(y.slots, Held(y), PollReturn(y).slots, Held(PollReturn(y)))
  {
    if y.pc.why.ForAck? && y.pc.saw {
      AckFinishedIs(y);
      HandIsElsewhere(y, y.pc.why.slot);
      Retyped(y, y.pc.why.slot, Unset, Held(y));
      assert Held(PollReturn(y)) == Held(y) by { AckFinishedHolds(y); }
    } else {
      ReturnFields(y);
      assert Held(PollReturn(y)) == Held(y) by { hide SlotsIn, PollReturn; }
    }
    hide OkSide, SlotsIn, PollReturn, WithType;
  }

  lemma AckFinishedHolds(y: Side)
    requires y.pc.Poll? && y.pc.why.ForAck? && y.pc.saw
    ensures Held(PollReturn(y)) == Held(y)
  {
    hide SlotsIn;
  }

  lemma AckPostHolds(y: Side)
    requires OkSide(y) && y.pc.Acking?
    ensures Remain(y.slots, Held(y), AckPost(y).slots, Held(AckPost(y)))
  {
    HandIsElsewhere(y, y.pc.slot);
    Retyped(y, y.pc.slot, Ack, Held(y));
    hide OkSide, SlotsIn;
  }

  lemma PostHolds(y: Side)
    requires y.pc.Posting?
    ensures SendPost(y).slots == y.slots && Held(SendPost(y)) == Held(y)
  {
    hide SlotsIn;
  }

  lemma StepHolds(y: Side)
    requires OkSide(y) && ThreadCan(y, Go) && !y.pc.Resolve?
    ensures Remain(y.slots, Held(y), ThreadStep(y, Go).slots, Held(ThreadStep(y, Go)))
  {
    hide OkSide, PollEvent, PollDrain, PollReturn, AckPost, Held, Remain;
    match y.pc {
      case Poll(Event, _, _) => PollHolds(y); Same(y.slots, Held(y));
      case Poll(Drain, _, _) => PollHolds(y); Same(y.slots, Held(y));
      case Poll(Rearm, _, _) => ReturnHolds(y);
      case Posting(_, _) => PostHolds(y); Same(y.slots, Held(y));
      case Acking(_, _, _) => AckPostHolds(y);
    }
  }

  lemma CloseHandled(y: Side)
    requires OkSide(y) && y.pc.Resolve? && Waits(y.slots, Held(y), Close)
    ensures var y' := ResolveStep(y); Waits(y'.slots, Held(y'), Close) || y'.closeFlag || OnItsWayOut(y'.pc)
  {
    hide SlotsIn;
    if y.wrQueue == [] {
      assert ResolveStep(y).slots == y.slots && Held(ResolveStep(y)) == Held(y) by {
        ResolvedKeepsHeld(y, if y.pc.got then GotMessage else NoMessage);
      }
    } else {
      var slot := y.wrQueue[0];
      HeldAhead(y);
      if SlotMeta(y, slot).typ != Close {
        WaitsBehind(y.slots, Held(y), Close);
        Retyped(y, slot, Unset, Held(y)[1..]);
        BehindHeld(y);
        hide OkSide, Waits, Remain, Held, ResolveStep, WithType;
        Same(y.slots, Held(y)[1..]);
        WaitsOn(y.slots, Held(y)[1..], ResolveStep(y).slots, Held(ResolveStep(y)), Close);
      }
    }
  }

  lemma HeldAhead(y: Side)
    requires OkSide(y) && y.wrQueue != []
    ensures Held(y) != [] && Held(y)[0] == y.wrQueue[0] && y.wrQueue[0] !in Held(y)[1..]
    ensures SlotMeta(y, y.wrQueue[0]).typ != Unset
  {
    var slot := y.wrQueue[0];
    SlotOnce(Held(y), y.rq, SlotInHand(y.pc), slot);
    assert Held(y) == [slot] + Held(y)[1..] && slot in Held(y);
    hide SlotsIn, TokensOk, SqOk, CountersOk, CopiesOk, PcOk;
  }

  lemma BehindHeld(y: Side)
    requires y.pc.Resolve? && y.wrQueue != [] && SlotMeta(y, y.wrQueue[0]).typ in {Normal, Ack}
    ensures Held(ResolveStep(y)) == Held(y)[1..]
    ensures ResolveStep(y).slots == y.slots || ResolveStep(y).slots == WithType(y, y.wrQueue[0], Unset).slots
  {
    hide SlotsIn;
  }

  lemma ThreadLosesNoClose(x: Side, y: Side, act: Act)
    requires OkSide(x) && OkSide(y) && CloseKept(x, y) && CloseKept(y, x) && ThreadCan(y, act)
    ensures CloseKept(x, ThreadStep(y, act)) && CloseKept(ThreadStep(y, act), x)
  {
    var y' := ThreadStep(y, act);
    if x.closePosted && x.sq == [] {
      if OnItsWayOut(y.pc) || y.closeFlag {
        WayOutIsFinal(y, act);
      } else {
        CloseStaysHeld(y, act);
      }
    }
    assert !y.closePosted && (y'.closePosted ==> y'.sq != []) by { PostsClose(y, act); }
    hide OkSide, ThreadStep, Waits, Held;
  }

  /** CLOSE is posted by close_ alone. */
  ghost predicate OpenOrPosted(y: Side, y': Side) {
    y'.closePosted ==> y.closePosted || y'.sq != []
  }

  lemma PollPostsNoClose(y: Side)
    requires y.pc.Poll?
    ensures OpenOrPosted(y, PollEvent(y)) && OpenOrPosted(y, PollDrain(y)) && OpenOrPosted(y, PollReturn(y))
  {
    hide SlotsIn, Tokens;
  }

  lemma HandlingPostsClose(y: Side)
    requires y.pc.Resolve?
    ensures OpenOrPosted(y, ResolveStep(y))
  {
  }

  lemma BeginPostsClose(y: Side, act: Act)
    requires ThreadCan(y, act) && act.Begin?
    ensures OpenOrPosted(y, ThreadStep(y, act))
  {
    hide SlotsIn;
  }

  lemma PostsClose(y: Side, act: Act)
    requires OkSide(y) && ThreadCan(y, act)
    ensures !y.closePosted && (ThreadStep(y, act).closePosted ==> ThreadStep(y, act).sq != [])
  {
    assert PcOk(y);
    hide OkSide, PollEvent, PollDrain, PollReturn, ResolveStep, SendBegin, RecvBegin, CloseBegin;
    match act
    case Begin(_) => BeginPostsClose(y, act);
    case Go =>
      match y.pc {
        case Poll(_, _, _) => PollPostsNoClose(y);
        case Resolve(_, _) => HandlingPostsClose(y);
        case _ =>
      }
  }

  lemma DeliverKeepsClose(x: Side, y: Side)
    requires OkSide(x) && OkSide(y) && CloseKept(x, y) && CloseKept(y, x) && CanDeliver(x, y)
    ensures var (x', y') := Delivered(x, y); CloseKept(x', y') && CloseKept(y', x')
  {
    var meta, j := Content(x), y.rq[0];
    var x', y' := Left(x), Arrived(y, meta);
    assert Delivered(x, y) == (x', y');
    if x.closePosted {
      ClosedSends(x);
    }
    LeftKeeps(x);
    ArrivalHolds(y, meta);
    hide *;
    DeliveredCloseKept(x, y, x', y', meta, j);
  }

  lemma ArrivalHolds(y: Side, meta: Meta)
    requires OkSide(y) && y.rq != [] && y.rq[0] < |y.slots|
    ensures var t, j := Arrived(y, meta), y.rq[0];
      && Held(t) == Held(y) + [j] && j !in Held(y) && t.slots == y.slots[j := meta] && SameButQueues(y, t)
  {
    SlotOnce(Held(y), y.rq, SlotInHand(y.pc), y.rq[0]);
    ArrivedFields(y, meta);
    hide SlotsIn, HeldOk, TokensOk, SqOk, CountersOk, CopiesOk, PcOk, Arrived, SlotInHand;
  }

  lemma DeliveredCloseKept(x: Side, y: Side, x': Side, y': Side, meta: Meta, j: nat)
    requires CloseKept(x, y) && CloseKept(y, x) && (x.closePosted ==> meta.typ == Close) && j < |y.slots|
    requires SameButQueues(x, x') && Held(x') == Held(x) && x'.slots == x.slots && x'.sq == []
    requires Held(y') == Held(y) + [j] && j !in Held(y) && y'.slots == y.slots[j := meta] && SameButQueues(y, y')
    requires y'.sq == y.sq
    ensures CloseKept(x', y') && CloseKept(y', x')
  {
    hide Held, OnItsWayOut;
    if x.closePosted {
      assert j in Held(y') && MetaAt(y'.slots, j) == meta;
    }
  }

  lemma ClosedSends(x: Side)
    requires OkSide(x) && x.closePosted && x.sq != [] && !x.sq[0].ReadRemote?
    ensures Content(x).typ == Close
  {
    assert PcOk(x) && SqOk(x.sq, x.pc, x.slots, x.posted);
    hide SlotsOk, HeldOk, TokensOk, CountersOk, CopiesOk;
  }

  ghost predicate NoCloseLost(p: Pair) {
    OkPair(p) && CloseKept(p.a, p.b) && CloseKept(p.b, p.a)
  }

  lemma MoveLosesNoClose(p: Pair, m: Move)
    requires NoCloseLost(p) && Can(p, m)
    ensures NoCloseLost(Next(p, m))
  {
    var x, y := Mine(p, m.end), Peer(p, m.end);
    MoveKeepsPair(p, m);
    hide OkSide, Link, CloseKept, ThreadStep, Delivered, DoRead, Report, ThreadCan, CanDeliver, CanRead;
    match m
    case Thread(e, act) => ThreadLosesNoClose(y, x, act);
    case Deliver(e) => DeliverKeepsClose(x, y);
    case Read(e) => ReadLeavesClose(x, y);
    case Finish(e) => ReportLeavesClose(x, y);
  }

  lemma ReadLeavesClose(x: Side, y: Side)
    requires OkSide(x) && CloseKept(x, y) && CloseKept(y, x) && CanRead(x)
    ensures CloseKept(DoRead(x, y), y) && CloseKept(y, DoRead(x, y))
  {
    assert PcOk(x) && SqOk(x.sq, x.pc, x.slots, x.posted);
    hide SlotsOk, HeldOk, TokensOk, CountersOk, CopiesOk, SlotsIn, Fetched;
  }

  lemma ReportLeavesClose(x: Side, y: Side)
    requires OkSide(x) && CloseKept(x, y) && CloseKept(y, x) && x.done != []
    ensures CloseKept(Report(x), y) && CloseKept(y, Report(x))
  {
    ReportKeeps(x);
    hide OkSide, Report, Waits, Held;
  }

  lemma {:induction false} RunLosesNoClose(p: Pair, moves: seq<Move>, fin: Pair)
    requires NoCloseLost(p) && Runs(p, moves, fin)
    ensures NoCloseLost(fin)
    decreases |moves|
  {
    hide NoCloseLost, Next, Can;
    if moves != [] {
      MoveLosesNoClose(p, moves[0]);
      RunLosesNoClose(Next(p, moves[0]), moves[1..], fin);
    }
  }

  /** A posted CLOSE is never lost, whatever call of the other end comes to it: as long as that end does not
      close too, CLOSE is on its way, waits there, or has set close_flag. */
  lemma CloseIsNotLost(p: Pair, e: End)
    requires Reachable(p) && Mine(p, e).closePosted
    ensures var x, y := Mine(p, e), Peer(p, e);
      || x.sq == [SendMeta(Meta(Close, Desc(0, 0, 0)))] || Waits(y.slots, Held(y), Close)
      || y.closeFlag || OnItsWayOut(y.pc)
  {
    FreshIsOk();
    var start := Pair(Fresh(), Fresh());
    assert NoCloseLost(start);
    hide NoCloseLost, Runs, Fresh;
    var moves :| Runs(start, moves, p);
    RunLosesNoClose(start, moves, p);
    CloseWaits(p, e);
  }

  lemma CloseWaits(p: Pair, e: End)
    requires NoCloseLost(p) && Mine(p, e).closePosted
    ensures var x, y := Mine(p, e), Peer(p, e);
      || x.sq == [SendMeta(Meta(Close, Desc(0, 0, 0)))] || Waits(y.slots, Held(y), Close)
      || y.closeFlag || OnItsWayOut(y.pc)
  {
    var x := Mine(p, e);
    assert PcOk(x) && SqOk(x.sq, x.pc, x.slots, x.posted);
    hide SlotsOk, HeldOk, TokensOk, CountersOk, CopiesOk, Link, Waits, Held, OnItsWayOut;
  }
}
