/** Every step of a socket's thread keeps its invariant and changes the two flows as it should. */
module SocketSteps {
  import opened Sequences
  import opened Wrappers
  import opened Transport
  import opened Flow
  import opened Sockets

  ghost predicate SameFlows(s: Side, s': Side) {
    SendSide(s') == SendSide(s) && RecvSide(s') == RecvSide(s)
  }

  lemma CopyMade(posted: seq<Desc>, sent: seq<Message>, acked: nat, copies: map<nat, seq<int>>, msg: Message, addr: nat)
    requires CopiesOk(posted, sent, acked, copies, None) && addr != 0 && addr !in copies
    ensures CopiesOk(posted, sent, acked, if msg.data == [] then copies else copies[addr := msg.data],
                     Some((DescOf(msg, addr), msg)))
  {
    var copies' := if msg.data == [] then copies else copies[addr := msg.data];
    forall a | a in copies' ensures Needed(posted, acked, Some((DescOf(msg, addr), msg)), a) {
      if a in copies {
        assert Needed(posted, acked, None, a);
      }
    }
  }

  lemma SendBeginKeeps(s: Side, msg: Message, addr: nat)
    requires OkSide(s) && s.pc.Idle? && Allocatable(s, addr)
    ensures OkSide(SendBegin(s, msg, addr)) && SameFlows(s, SendBegin(s, msg, addr))
  {
    CopyMade(s.posted, s.sent, s.ackCounter, s.copies, msg, addr);
    hide SlotsOk, HeldOk, TokensOk, CountersOk, CopiesOk, Pick, SlotsIn, Tokens;
  }

  lemma CopyPosted(posted: seq<Desc>, sent: seq<Message>, acked: nat, copies: map<nat, seq<int>>, desc: Desc,
                   msg: Message)
    requires CopiesOk(posted, sent, acked, copies, Some((desc, msg))) && acked <= |posted|
    ensures DescFits(desc, msg) && CopiesOk(posted + [desc], sent + [msg], acked, copies, None)
  {
    forall k: nat ensures Outstanding(posted + [desc], acked, k) <==>
      Outstanding(posted, acked, k) || (k == |posted| && desc.len != 0)
    {
    }
    forall a | a in copies ensures Needed(posted + [desc], acked, None, a) {
      assert Needed(posted, acked, Some((desc, msg)), a);
      if desc.len != 0 && desc.addr == a {
        assert Outstanding(posted + [desc], acked, |posted|);
      } else {
        var k: nat :| Outstanding(posted, acked, k) && posted[k].addr == a;
        assert Outstanding(posted + [desc], acked, k);
      }
    }
  }

  lemma SendPostKeeps(s: Side)
    requires OkSide(s) && s.pc.Posting?
    ensures OkSide(SendPost(s))
    ensures DescFits(s.pc.desc, s.pc.msg) && OutOf(s) == []
    ensures SendSide(SendPost(s)) ==
            SendSide(s).(sent := s.sent + [s.pc.msg], posted := s.posted + [s.pc.desc], out := [s.pc.desc])
    ensures RecvSide(SendPost(s)) == RecvSide(s)
  {
    CopyPosted(s.posted, s.sent, s.ackCounter, s.copies, s.pc.desc, s.pc.msg);
    hide SlotsOk, HeldOk, CopiesOk, DescFits, Pick, SlotsIn, Tokens;
  }

  lemma PollEventKeeps(s: Side)
    requires OkSide(s) && s.pc.Poll? && s.pc.stage == Event
    ensures OkSide(PollEvent(s)) && SameFlows(s, PollEvent(s))
  {
    hide SlotsOk, HeldOk, TokensOk, CountersOk, CopiesOk, Pick, SlotsIn, Tokens;
  }

  lemma DrainedKeepsHeld(s: Side)
    ensures Held(Drained(s)) == Held(s)
  {
  }

  lemma PollDrainKeeps(s: Side)
    requires OkSide(s) && s.pc.Poll? && s.pc.stage == Drain
    ensures OkSide(PollDrain(s)) && SameFlows(s, PollDrain(s))
  {
    DrainedKeepsHeld(s);
    hide SlotsOk, HeldOk, CountersOk, CopiesOk, Pick, SlotsIn;
  }

  lemma RecvBeginKeeps(s: Side, caller: Caller)
    requires OkSide(s) && s.pc.Idle?
    ensures OkSide(RecvBegin(s, caller)) && SameFlows(s, RecvBegin(s, caller))
  {
    DrainedKeepsHeld(s);
    hide SlotsOk, HeldOk, CountersOk, CopiesOk, Pick, SlotsIn;
  }

  // ---------------------------------------------------------------- a poll returns

  /** The slot in hand goes back to the adapter. */
  lemma SlotReposted(slots: seq<Meta>, held: seq<nat>, rq: seq<nat>, slot: nat, typ: MetaType)
    requires SlotsOk(slots, held, rq, [slot]) && HeldOk(slots, held)
    ensures slot < |slots| && slot !in held && slot !in rq
    ensures var slots' := slots[slot := slots[slot].(typ := typ)];
      && SlotsOk(slots', held, rq + [slot], []) && SlotsOk(slots', held, rq, [slot]) && HeldOk(slots', held)
      && Pick(slots', held, Ack) == Pick(slots, held, Ack) && Pick(slots', held, Normal) == Pick(slots, held, Normal)
  {
    SlotOnce(held, rq, [slot], slot);
    var slots' := slots[slot := slots[slot].(typ := typ)];
    PickFrame(slots, slots', held, Ack);
    PickFrame(slots, slots', held, Normal);
    hide Pick, AllSlots;
    assert multiset(rq + [slot]) == multiset(rq) + multiset([slot]);
  }

  /** The bookkeeping when the acknowledgement has gone out. */
  lemma AckFinishedFields(s: Side)
    requires OkSide(s) && s.pc.Poll? && s.pc.stage == Rearm && s.pc.saw && s.pc.why.ForAck? && s.pc.why.slot < |s.slots|
    ensures var s', slot, msg := PollReturn(s), s.pc.why.slot, s.pc.why.msg;
      && s'.slots == s.slots[slot := s.slots[slot].(typ := Unset)] && Held(s') == Held(s) && s'.rq == s.rq + [slot]
      && SlotInHand(s'.pc) == [] && SlotInHand(s.pc) == [slot]
      && TokensOk(s'.sq, s'.done, Tokens(s'.cq), Expected(s'.pc, s'.closePosted))
      && SqOk(s'.sq, s'.pc, s'.slots, s'.posted) && PcOk(s')
      && InSending(s'.pc) == InSending(s.pc) && Prepared(s'.pc) == Prepared(s.pc)
      && s'.posted == s.posted && s'.sent == s.sent && s'.ackCounter == s.ackCounter && s'.copies == s.copies
      && s'.peerBuffCount == s.peerBuffCount && s'.metadataCounter == s.metadataCounter
      && s'.returned == s.returned && s'.recvQueue == s.recvQueue + [msg] && OutOf(s') == OutOf(s)
      && CurrentOf(s) == Some(Current(SlotMeta(s, slot).desc, true, Some(msg))) && CurrentOf(s') == None
  {
    hide SlotsOk, HeldOk, CountersOk, CopiesOk, Pick, SlotsIn, Tokens;
  }

  lemma AckFinishedKeeps(s: Side)
    requires OkSide(s) && s.pc.Poll? && s.pc.stage == Rearm && s.pc.saw && s.pc.why.ForAck?
    ensures RecvSide(s).current.Some? && RecvSide(s).current.value.acked &&
            RecvSide(s).current.value.msg == Some(s.pc.why.msg)
    ensures OkSide(PollReturn(s)) && SendSide(PollReturn(s)) == SendSide(s)
    ensures RecvSide(PollReturn(s)) == RecvSide(s).(current := None, received := RecvSide(s).received + [s.pc.why.msg])
  {
    SlotReposted(s.slots, Held(s), s.rq, s.pc.why.slot, Unset);
    AckFinishedFields(s);
    Associative(s.returned, s.recvQueue, [s.pc.why.msg]);
    hide SlotsOk, HeldOk, TokensOk, SqOk, CountersOk, CopiesOk, PcOk, Pick, SlotsIn, Tokens, Held, OutOf,
      CurrentOf, SlotInHand, Expected, InSending, Prepared, PollReturn, AckPost;
  }

  /** A move of the thread that leaves everything else alone and means the same to both flows. */
  lemma PcMoves(s: Side, pc: Pc)
    requires OkSide(s) && SlotInHand(pc) == SlotInHand(s.pc) && Prepared(pc) == Prepared(s.pc)
    requires InSending(pc) == InSending(s.pc) && Expected(pc, s.closePosted) == Expected(s.pc, s.closePosted)
    requires CurrentOf(s.(pc := pc)) == CurrentOf(s) && SqOk(s.sq, pc, s.slots, s.posted) && PcOk(s.(pc := pc))
    ensures OkSide(s.(pc := pc, arm := Armed)) && SameFlows(s, s.(pc := pc, arm := Armed))
  {
    hide SlotsOk, HeldOk, CopiesOk, CountersOk, TokensOk, SqOk, Pick, SlotsIn, Tokens, SlotInHand, Prepared, InSending,
      Expected;
  }

  lemma WaitsAgain(s: Side)
    requires OkSide(s) && s.pc.Poll? && s.pc.stage == Rearm && !s.pc.saw
    requires s.pc.why.ForSend? || s.pc.why.ForRead? || s.pc.why.ForAck?
    ensures OkSide(PollReturn(s)) && SameFlows(s, PollReturn(s))
  {
    var pc := Poll(Event, false, s.pc.why);
    assert PcOk(s) && SqOk(s.sq, s.pc, s.slots, s.posted);
    assert PollReturn(s) == s.(pc := pc, arm := Armed);
    hide OkSide, SameFlows;
    PcMoves(s, pc);
  }

  lemma GoesOn(s: Side)
    requires OkSide(s) && s.pc.Poll? && s.pc.stage == Rearm && !s.pc.saw
    requires s.pc.why.ForCredit? || s.pc.why.ForMessage? || s.pc.why.ForAllAcks?
    ensures OkSide(PollReturn(s)) && SameFlows(s, PollReturn(s))
  {
    var pc := PollReturn(s).pc;
    assert PcOk(s) && SqOk(s.sq, s.pc, s.slots, s.posted);
    assert PollReturn(s) == s.(pc := pc, arm := Armed);
    hide OkSide, SameFlows;
    PcMoves(s, pc);
  }

  lemma PollAgainKeeps(s: Side)
    requires OkSide(s) && s.pc.Poll? && s.pc.stage == Rearm && !s.pc.saw
    ensures OkSide(PollReturn(s)) && SameFlows(s, PollReturn(s))
  {
    hide *;
    if s.pc.why.ForSend? || s.pc.why.ForRead? || s.pc.why.ForAck? {
      WaitsAgain(s);
    } else {
      GoesOn(s);
    }
  }

  lemma ReadFinishedKeeps(s: Side)
    requires OkSide(s) && s.pc.Poll? && s.pc.stage == Rearm && s.pc.saw && s.pc.why.ForRead?
    ensures OkSide(PollReturn(s)) && SameFlows(s, PollReturn(s))
  {
    hide SlotsOk, HeldOk, CopiesOk, CountersOk, Pick, SlotsIn, Tokens;
  }

  lemma SendFinishedKeeps(s: Side)
    requires OkSide(s) && s.pc.Poll? && s.pc.stage == Rearm && s.pc.saw && !s.pc.why.ForRead? && !s.pc.why.ForAck?
    ensures OkSide(PollReturn(s)) && SameFlows(s, PollReturn(s))
  {
    hide SlotsOk, HeldOk, CopiesOk, Pick, SlotsIn, Tokens;
  }

  lemma PollReturnKeeps(s: Side)
    requires OkSide(s) && s.pc.Poll? && s.pc.stage == Rearm && !(s.pc.saw && s.pc.why.ForAck?)
    ensures OkSide(PollReturn(s)) && SameFlows(s, PollReturn(s))
  {
    hide *;
    if !s.pc.saw {
      PollAgainKeeps(s);
    } else if s.pc.why.ForRead? {
      ReadFinishedKeeps(s);
    } else {
      SendFinishedKeeps(s);
    }
  }

  // ---------------------------------------------------------------- the steps of recv_wc_handle

  lemma SlotLeaves(slots: seq<Meta>, held: seq<nat>, rq: seq<nat>)
    requires SlotsOk(slots, held, rq, []) && held != []
    ensures SlotsOk(slots, held[1..], rq, [held[0]]) && held[0] < |slots|
  {
    FirstOf(held);
    SlotOnce(held, rq, [], held[0]);
    hide AllSlots;
  }

  lemma RestIsHeld(slots: seq<Meta>, held: seq<nat>)
    requires HeldOk(slots, held) && held != []
    ensures HeldOk(slots, held[1..]) && MetaAt(slots, held[0]).typ != Unset
    ensures MetaAt(slots, held[0]).typ == Close ==> held[1..] == []
  {
  }

  lemma SlotTaken(slots: seq<Meta>, held: seq<nat>, rq: seq<nat>)
    requires SlotsOk(slots, held, rq, []) && HeldOk(slots, held) && held != []
    ensures SlotsOk(slots, held[1..], rq, [held[0]]) && HeldOk(slots, held[1..]) && held[0] < |slots|
    ensures Pick(slots, held, Ack) == Picked(slots[held[0]], Ack) + Pick(slots, held[1..], Ack)
    ensures Pick(slots, held, Normal) == Picked(slots[held[0]], Normal) + Pick(slots, held[1..], Normal)
    ensures slots[held[0]].typ != Unset && (slots[held[0]].typ == Close ==> held[1..] == [])
  {
    FirstOf(held);
    SlotLeaves(slots, held, rq);
    RestIsHeld(slots, held);
    PickFirst(slots, held[0], held[1..], Ack);
    PickFirst(slots, held[0], held[1..], Normal);
    hide Pick, SlotsOk, HeldOk, Picked;
  }

  /** What is behind the first slot of wr_queue. */
  function Behind(s: Side): seq<nat>
    requires s.wrQueue != []
  {
    s.wrQueue[1..] + SlotsIn(s.cq)
  }

  lemma TakenSlot(s: Side)
    requires OkSide(s) && s.pc.Resolve? && s.wrQueue != []
    ensures var i, m := s.wrQueue[0], SlotMeta(s, s.wrQueue[0]);
      && SlotsOk(s.slots, Behind(s), s.rq, [i]) && HeldOk(s.slots, Behind(s)) && i < |s.slots| && m.typ != Unset
      && Pick(s.slots, Held(s), Ack) == Picked(m, Ack) + Pick(s.slots, Behind(s), Ack)
      && Pick(s.slots, Held(s), Normal) == Picked(m, Normal) + Pick(s.slots, Behind(s), Normal)
      && (m.typ == Close ==> Behind(s) == [])
  {
    assert Held(s) == [s.wrQueue[0]] + Behind(s);
    assert Held(s)[1..] == Behind(s);
    SlotTaken(s.slots, Held(s), s.rq);
  }

  lemma PickOther(m: Meta, rest: seq<Desc>, typ: MetaType)
    ensures m.typ != typ ==> Picked(m, typ) + rest == rest
    ensures m.typ == typ ==> (Picked(m, typ) + rest)[0] == m.desc && (Picked(m, typ) + rest)[1..] == rest
  {
  }

  /** The socket's own bookkeeping after it has taken up a message. */
  lemma NormalTaken(s: Side)
    requires OkSide(s) && s.pc.Resolve? && s.wrQueue != [] && SlotMeta(s, s.wrQueue[0]).typ == Normal
    ensures var s', desc := ResolveStep(s), SlotMeta(s, s.wrQueue[0]).desc;
      && s'.slots == s.slots && Held(s') == Behind(s) && s'.rq == s.rq && SlotInHand(s'.pc) == [s.wrQueue[0]]
      && TokensOk(s'.sq, s'.done, Tokens(s'.cq), Expected(s'.pc, s'.closePosted))
      && SqOk(s'.sq, s'.pc, s'.slots, s'.posted) && PcOk(s')
      && InSending(s'.pc) == InSending(s.pc) && Prepared(s'.pc) == Prepared(s.pc)
      && s'.posted == s.posted && s'.sent == s.sent && s'.ackCounter == s.ackCounter && s'.copies == s.copies
      && s'.peerBuffCount == s.peerBuffCount && s'.metadataCounter == s.metadataCounter
      && s'.returned == s.returned && s'.recvQueue == s.recvQueue && OutOf(s') == OutOf(s)
      && CurrentOf(s) == None
      && CurrentOf(s') == Some(Current(desc, false, if desc.len == 0 then Some(Message([], desc.flag)) else None))
  {
    hide SlotsOk, HeldOk, CountersOk, CopiesOk, Pick, SlotsIn, Tokens;
  }

  lemma HandleNormalKeeps(s: Side)
    requires OkSide(s) && s.pc.Resolve? && s.wrQueue != [] && SlotMeta(s, s.wrQueue[0]).typ == Normal
    ensures var r := RecvSide(s); r.normals != [] && r.current.None?
    ensures var r, s' := RecvSide(s), ResolveStep(s);
      && OkSide(s') && SendSide(s') == SendSide(s)
      && RecvSide(s') == r.(normals := r.normals[1..], current := Some(Current(r.normals[0], false,
           if r.normals[0].len == 0 then Some(Message([], r.normals[0].flag)) else None)))
  {
    TakenSlot(s);
    NormalTaken(s);
    PickOther(SlotMeta(s, s.wrQueue[0]), Pick(s.slots, Behind(s), Ack), Ack);
    PickOther(SlotMeta(s, s.wrQueue[0]), Pick(s.slots, Behind(s), Normal), Normal);
    hide SlotsOk, HeldOk, TokensOk, SqOk, CountersOk, CopiesOk, PcOk, Pick, SlotsIn, Tokens, Held, Behind, OutOf,
      CurrentOf, SlotInHand, Expected, InSending, Prepared, ResolveStep;
  }

  lemma AckPostFields(s: Side)
    requires OkSide(s) && s.pc.Acking? && s.pc.slot < |s.slots|
    ensures var s', slot := AckPost(s), s.pc.slot;
      && s'.slots == s.slots[slot := s.slots[slot].(typ := Ack)] && Held(s') == Held(s) && s'.rq == s.rq
      && SlotInHand(s'.pc) == SlotInHand(s.pc) == [slot]
      && TokensOk(s'.sq, s'.done, Tokens(s'.cq), Expected(s'.pc, s'.closePosted))
      && SqOk(s'.sq, s'.pc, s'.slots, s'.posted) && PcOk(s')
      && InSending(s'.pc) == InSending(s.pc) && Prepared(s'.pc) == Prepared(s.pc)
      && s'.posted == s.posted && s'.sent == s.sent && s'.ackCounter == s.ackCounter && s'.copies == s.copies
      && s'.peerBuffCount == s.peerBuffCount && s'.metadataCounter == s.metadataCounter
      && s'.returned == s.returned && s'.recvQueue == s.recvQueue && OutOf(s') == OutOf(s)
      && CurrentOf(s') == CurrentOf(s)
  {
    hide SlotsOk, HeldOk, CountersOk, CopiesOk, Pick, SlotsIn, Tokens;
  }

  lemma AckPostKeeps(s: Side)
    requires OkSide(s) && s.pc.Acking?
    ensures OkSide(AckPost(s)) && SameFlows(s, AckPost(s))
  {
    SlotReposted(s.slots, Held(s), s.rq, s.pc.slot, Ack);
    AckPostFields(s);
    hide SlotsOk, HeldOk, TokensOk, SqOk, CountersOk, CopiesOk, PcOk, Pick, SlotsIn, Tokens, Held, OutOf,
      CurrentOf, SlotInHand, Expected, InSending, Prepared, PollReturn, AckPost;
  }

  /** Acknowledging the oldest outstanding message frees its copy and no other. */
  lemma CopyFreed(posted: seq<Desc>, sent: seq<Message>, acked: nat, copies: map<nat, seq<int>>)
    requires CopiesOk(posted, sent, acked, copies, None) && acked < |posted|
    ensures posted[acked].addr != 0 ==> posted[acked].addr in copies && copies[posted[acked].addr] == sent[acked].data
    ensures CopiesOk(posted, sent, acked + 1,
                     if posted[acked].addr != 0 then copies - {posted[acked].addr} else copies, None)
  {
    assert DescFits(posted[acked], sent[acked]);
    assert posted[acked].addr != 0 ==> Outstanding(posted, acked, acked);
    forall k: nat ensures Outstanding(posted, acked, k) <==>
      Outstanding(posted, acked + 1, k) || (k == acked && posted[acked].len != 0)
    {
    }
    var copies' := if posted[acked].addr != 0 then copies - {posted[acked].addr} else copies;
    forall a | a in copies' ensures Needed(posted, acked + 1, None, a) {
      assert Needed(posted, acked, None, a);
    }
  }

  lemma AckTaken(s: Side)
    requires OkSide(s) && s.pc.Resolve? && s.wrQueue != [] && SlotMeta(s, s.wrQueue[0]).typ == Ack
    requires s.wrQueue[0] < |s.slots| && s.ackCounter < |s.posted|
    ensures var s', i, m := ResolveStep(s), s.wrQueue[0], SlotMeta(s, s.wrQueue[0]);
      && s'.slots == s.slots[i := m.(typ := Unset)] && Held(s') == Behind(s) && s'.rq == s.rq + [i]
      && SlotInHand(s'.pc) == []
      && TokensOk(s'.sq, s'.done, Tokens(s'.cq), Expected(s'.pc, s'.closePosted))
      && SqOk(s'.sq, s'.pc, s'.slots, s'.posted) && PcOk(s')
      && Prepared(s'.pc) == Prepared(s.pc) == None
      && s'.posted == s.posted && s'.sent == s.sent && s'.ackCounter == s.ackCounter + 1
      && s'.copies == (if m.desc.addr != 0 then s.copies - {m.desc.addr} else s.copies)
      && CountersOk(s'.posted, s'.sent, s'.ackCounter, s'.peerBuffCount, s'.metadataCounter, InSending(s'.pc))
      && s'.returned == s.returned && s'.recvQueue == s.recvQueue && OutOf(s') == OutOf(s)
      && CurrentOf(s') == CurrentOf(s)
  {
    hide SlotsOk, HeldOk, CopiesOk, Pick, SlotsIn, Tokens;
  }

  /** The descriptor that comes back is that of the oldest unacknowledged message. */
  lemma AckIsOldest(s: Side, r: RecvPart)
    requires OkSide(s) && s.pc.Resolve? && s.wrQueue != [] && SlotMeta(s, s.wrQueue[0]).typ == Ack
    requires FlowOk(SendSide(s), r)
    ensures SendSide(s).acks != [] && SendSide(s).acks[1..] == Pick(s.slots, Behind(s), Ack)
    ensures s.ackCounter < |s.posted| && SlotMeta(s, s.wrQueue[0]).desc == s.posted[s.ackCounter]
  {
    TakenSlot(s);
    PickOther(SlotMeta(s, s.wrQueue[0]), Pick(s.slots, Behind(s), Ack), Ack);
    FlowFrees(SendSide(s), r);
    hide OkSide, FlowOk, SlotsOk, HeldOk, Pick, Held, Behind;
  }

  lemma AckFrees(s: Side, r: RecvPart)
    requires OkSide(s) && s.pc.Resolve? && s.wrQueue != [] && SlotMeta(s, s.wrQueue[0]).typ == Ack
    requires FlowOk(SendSide(s), r)
    ensures var desc := SlotMeta(s, s.wrQueue[0]).desc;
      && (desc.addr != 0 ==> desc.addr in s.copies)
      && CopiesOk(s.posted, s.sent, s.ackCounter + 1,
                  if desc.addr != 0 then s.copies - {desc.addr} else s.copies, None)
  {
    AckIsOldest(s, r);
    CopyFreed(s.posted, s.sent, s.ackCounter, s.copies);
    hide CopiesOk, FlowOk, SlotsOk, HeldOk, TokensOk, SqOk, CountersOk, PcOk, Pick, Held, SendSide;
  }

  lemma HandleAckKeeps(s: Side, r: RecvPart)
    requires OkSide(s) && s.pc.Resolve? && s.wrQueue != [] && SlotMeta(s, s.wrQueue[0]).typ == Ack
    requires FlowOk(SendSide(s), r)
    ensures SendSide(s).acks != []
    ensures SlotMeta(s, s.wrQueue[0]).desc.addr != 0 ==> SlotMeta(s, s.wrQueue[0]).desc.addr in s.copies
    ensures var f, s' := SendSide(s), ResolveStep(s);
      OkSide(s') && SendSide(s') == f.(acked := f.acked + 1, acks := f.acks[1..]) && RecvSide(s') == RecvSide(s)
  {
    TakenSlot(s);
    AckIsOldest(s, r);
    AckFrees(s, r);
    PickOther(SlotMeta(s, s.wrQueue[0]), Pick(s.slots, Behind(s), Normal), Normal);
    SlotReposted(s.slots, Behind(s), s.rq, s.wrQueue[0], Unset);
    AckTaken(s);
    hide SlotsOk, HeldOk, TokensOk, SqOk, CountersOk, CopiesOk, PcOk, Pick, SlotsIn, Tokens, Held, Behind, OutOf,
      CurrentOf, SlotInHand, Expected, InSending, Prepared, ResolveStep, FlowOk;
  }

  // ---------------------------------------------------------------- resolve_wr_queue returns

  /** The thread goes on to wait or is done; nothing else changes but flags, and a message may move
      from the queue to the caller. */
  ghost predicate OnlyMovesOn(s: Side, s': Side) {
    && s'.slots == s.slots && s'.wrQueue == s.wrQueue && s'.rq == s.rq && s'.cq == s.cq && s'.sq == s.sq &&
      s'.done == s.done
    && s'.posted == s.posted && s'.sent == s.sent && s'.ackCounter == s.ackCounter && s'.copies == s.copies
    && s'.peerBuffCount == s.peerBuffCount && s'.metadataCounter == s.metadataCounter && s'.closePosted == s.closePosted
    && s'.returned + s'.recvQueue == s.returned + s.recvQueue
    && (s'.pc == Idle || s'.pc == Poll(Event, false, ForMessage) || s'.pc == Poll(Event, false, ForAllAcks))
    && (s'.closeLock ==> s'.closeFlag && s'.recvQueue == [] && s'.pc.Idle?)
  }

  lemma MovedOn(s: Side, s': Side)
    requires OkSide(s) && (s.pc.Resolve? || s.pc.Idle?) && s.wrQueue == [] && OnlyMovesOn(s, s')
    ensures OkSide(s') && SameFlows(s, s')
  {
    hide SlotsOk, HeldOk, CopiesOk, CountersOk, Pick, SlotsIn, Tokens;
  }

  lemma GiveBackMoves(s: Side, t: Side)
    requires OnlyMovesOn(s, t.(pc := Idle)) && !t.closeLock
    ensures OnlyMovesOn(s, GiveBack(t))
  {
    if t.recvQueue != [] {
      assert (t.returned + [t.recvQueue[0]]) + t.recvQueue[1..] == t.returned + t.recvQueue;
    }
  }

  lemma ClosePosted(s: Side)
    requires OkSide(s) && (s.pc.Resolve? || s.pc.Idle?) && s.wrQueue == [] && !s.closeLock
    requires s.ackCounter >= s.metadataCounter
    ensures OkSide(CloseCheck(s)) && SameFlows(s, CloseCheck(s))
  {
    assert s.sq == [] && s.done == [] && Tokens(s.cq) == 0 && !s.closePosted;
    assert s.ackCounter == |s.posted|;
    assert SlotInHand(s.pc) == [] && Prepared(s.pc) == None && InSending(s.pc) == 0;
    hide SlotsOk, HeldOk, CopiesOk, CountersOk, Pick, SlotsIn, Tokens;
  }

  lemma CloseWaits(s: Side)
    requires OkSide(s) && (s.pc.Resolve? || s.pc.Idle?) && s.wrQueue == [] && !s.closeLock
    requires s.ackCounter < s.metadataCounter
    ensures OnlyMovesOn(s, CloseCheck(s))
  {
  }

  lemma ClosePosts(s: Side)
    requires OkSide(s) && (s.pc.Resolve? || s.pc.Idle?) && s.wrQueue == [] && !s.closeLock
    ensures OkSide(CloseCheck(s)) && SameFlows(s, CloseCheck(s))
  {
    hide *;
    if s.ackCounter < s.metadataCounter {
      CloseWaits(s);
      MovedOn(s, CloseCheck(s));
    } else {
      ClosePosted(s);
    }
  }

  lemma ResolvedKeeps(s: Side, flag: Flag)
    requires OkSide(s) && s.pc.Resolve? && s.wrQueue == []
    ensures OkSide(Resolved(s, flag)) && SameFlows(s, Resolved(s, flag))
  {
    var t := if flag == PeerClosed && s.pc.caller != InClose then s.(closeFlag := true) else s;
    assert !t.closeLock && !s.closeLock;
    assert s.pc.caller == InClose ==> Resolved(s, flag) == CloseCheck(s);
    hide *;
    if s.pc.caller == InClose {
      ClosePosts(s);
    } else {
      ResolvedMoves(s, flag);
      MovedOn(s, Resolved(s, flag));
    }
  }

  lemma ResolvedMoves(s: Side, flag: Flag)
    requires s.pc.Resolve? && s.pc.caller != InClose && !s.closeLock
    ensures OnlyMovesOn(s, Resolved(s, flag))
  {
    var t := if flag == PeerClosed then s.(closeFlag := true) else s;
    GiveBackMoves(s, t);
    hide GiveBack;
  }

  lemma SlotBack(slots: seq<Meta>, held: seq<nat>, rq: seq<nat>, slot: nat)
    requires SlotsOk(slots, held, rq, [slot])
    ensures SlotsOk(slots, held, rq + [slot], [])
  {
    assert multiset(rq + [slot]) == multiset(rq) + multiset([slot]);
  }

  /** The socket with the CLOSE taken off wr_queue and its slot posted again. */
  function CloseTaken(s: Side): Side
    requires s.wrQueue != []
  {
    s.(wrQueue := s.wrQueue[1..], rq := s.rq + [s.wrQueue[0]])
  }

  lemma CloseTakenKeeps(s: Side)
    requires OkSide(s) && s.pc.Resolve? && s.wrQueue != [] && SlotMeta(s, s.wrQueue[0]).typ == Close
    ensures OkSide(CloseTaken(s)) && SameFlows(s, CloseTaken(s)) && Behind(s) == []
  {
    TakenSlot(s);
    var m := SlotMeta(s, s.wrQueue[0]);
    PickOther(m, Pick(s.slots, Behind(s), Ack), Ack);
    PickOther(m, Pick(s.slots, Behind(s), Normal), Normal);
    SlotBack(s.slots, Behind(s), s.rq, s.wrQueue[0]);
    assert Held(CloseTaken(s)) == Behind(s) && CurrentOf(CloseTaken(s)) == CurrentOf(s);
    assert SlotInHand(s.pc) == [] && PcOk(CloseTaken(s));
    hide SlotsOk, HeldOk, CopiesOk, CountersOk, TokensOk, SqOk, PcOk, Pick, SlotsIn, Tokens, SlotInHand, Prepared,
         InSending, Expected, Behind, Held, CurrentOf, Picked, SlotMeta;
  }

  lemma HandleCloseKeeps(s: Side)
    requires OkSide(s) && s.pc.Resolve? && s.wrQueue != [] && SlotMeta(s, s.wrQueue[0]).typ == Close
    ensures OkSide(ResolveStep(s)) && SameFlows(s, ResolveStep(s)) && Behind(s) == []
  {
    CloseTakenKeeps(s);
    assert CloseTaken(s).wrQueue == [] && ResolveStep(s) == Resolved(CloseTaken(s), PeerClosed);
    hide *;
    ResolvedKeeps(CloseTaken(s), PeerClosed);
    SameFlowsTwice(s, CloseTaken(s), ResolveStep(s));
  }

  lemma SameFlowsTwice(s: Side, t: Side, u: Side)
    requires SameFlows(s, t) && SameFlows(t, u)
    ensures SameFlows(s, u)
  {
  }

  lemma CloseBeginKeeps(s: Side)
    requires OkSide(s) && s.pc.Idle?
    ensures OkSide(CloseBegin(s)) && SameFlows(s, CloseBegin(s))
  {
    if !s.closeLock {
      ClosePosts(s);
    }
    hide SlotsOk, HeldOk, CopiesOk, Pick, SlotsIn, Tokens;
  }
}
