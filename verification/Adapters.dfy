/** Every step of the adapters keeps the invariant of a connection. */
module Adapters {
  import opened Sequences
  import opened Wrappers
  import opened Transport
  import opened Flow
  import opened Sockets
  import opened SocketSteps
  import opened Connection

  // ---------------------------------------------------------------- completions

  lemma TokensOfOneMore(cq: seq<Cqe>, e: Cqe)
    ensures Tokens(cq + [e]) == Tokens(cq) + if e.RecvDone? then 0 else 1
    ensures SlotsIn(cq + [e]) == SlotsIn(cq) + if e.RecvDone? then [e.slot] else []
  {
    assert (cq + [e])[..|cq|] == cq;
  }

  /** What an adapter does not change about a socket. */
  ghost predicate SameButQueues(s: Side, t: Side) {
    && t.pc == s.pc && t.peerBuffCount == s.peerBuffCount && t.metadataCounter == s.metadataCounter
    && t.ackCounter == s.ackCounter && t.closeFlag == s.closeFlag && t.closeLock == s.closeLock
    && t.wrQueue == s.wrQueue && t.recvQueue == s.recvQueue && t.copies == s.copies && t.closePosted == s.closePosted
    && t.posted == s.posted && t.sent == s.sent && t.returned == s.returned
  }

  /** The rest of the invariant follows if the queues and slots are still in order. */
  lemma QueuesKeepOk(s: Side, t: Side)
    requires OkSide(s) && SameButQueues(s, t)
    requires SlotsOk(t.slots, Held(t), t.rq, SlotInHand(t.pc)) && HeldOk(t.slots, Held(t))
    requires TokensOk(t.sq, t.done, Tokens(t.cq), Expected(t.pc, t.closePosted)) && SqOk(t.sq, t.pc, t.slots, t.posted)
    ensures OkSide(t)
  {
    hide SlotsOk, HeldOk, TokensOk, SqOk, CountersOk, CopiesOk, Held, Tokens, SlotInHand, Expected, InSending, Prepared;
  }

  lemma ReportIs(x: Side)
    requires x.done != []
    ensures var t := Report(x);
      && t.sq == x.sq && t.done == x.done[1..] && t.cq == x.cq + [x.done[0]]
      && t.pc == x.pc && t.closePosted == x.closePosted
  {
  }

  lemma ReportTokens(x: Side)
    requires TokensOk(x.sq, x.done, Tokens(x.cq), Expected(x.pc, x.closePosted)) && x.done != []
    ensures var t := Report(x);
      TokensOk(t.sq, t.done, Tokens(t.cq), Expected(t.pc, t.closePosted)) && SlotsIn(t.cq) == SlotsIn(x.cq)
  {
    ReportIs(x);
    TokensOfOneMore(x.cq, x.done[0]);
    Empty(SlotsIn(x.cq));
    assert x.done[0] in x.done && forall e | e in x.done[1..] :: e in x.done;
    hide SlotsIn, Tokens, Expected, Report;
  }

  lemma ReportFields(x: Side)
    requires x.done != []
    ensures var t := Report(x);
      && SameButQueues(x, t) && t.slots == x.slots && t.sq == x.sq && t.rq == x.rq && t.readBuf == x.readBuf
      && OutOf(t) == OutOf(x) && CurrentOf(t) == CurrentOf(x)
      && (SlotsIn(t.cq) == SlotsIn(x.cq) ==> Held(t) == Held(x))
  {
    hide SlotsIn, Tokens;
  }

  lemma ReportKeeps(x: Side)
    requires OkSide(x) && x.done != []
    ensures OkSide(Report(x)) && SameFlows(x, Report(x))
    ensures Held(Report(x)) == Held(x) && SameButQueues(x, Report(x)) && Report(x).slots == x.slots &&
            Report(x).sq == x.sq
  {
    ReportFields(x);
    hide SlotsOk, HeldOk, TokensOk, SqOk, CountersOk, CopiesOk, Pick, SlotsIn, Tokens, SlotInHand, Expected, Held,
         OutOf, CurrentOf, Report;
    ReportTokens(x);
    QueuesKeepOk(x, Report(x));
  }

  // ---------------------------------------------------------------- remote read

  /** Whatever is read remotely is a copy that is still registered, and holds the message sent. */
  lemma ReadFinds(x: Side, y: Side)
    requires OkSide(x) && OkSide(y) && FlowOk(SendSide(y), RecvSide(x)) && CanRead(x)
    ensures x.pc.Poll? && x.pc.why.ForRead? && x.sq == [ReadRemote(SlotMeta(x, x.pc.why.slot).desc)]
    ensures var h, desc := ReceivedCount(x), x.sq[0].desc;
      && y.ackCounter <= h < |y.posted| == |y.sent| && y.posted[h] == desc
      && Message(Fetched(y, desc).GetOr([]), desc.flag) == y.sent[h]
      && (desc.len != 0 ==> desc.addr in y.copies && Fetched(y, desc) == Some(y.sent[h].data))
  {
    FlowReads(SendSide(y), RecvSide(x));
    var h := ReceivedCount(x);
    assert DescFits(y.posted[h], y.sent[h]);
    if y.posted[h].len != 0 {
      assert Outstanding(y.posted, y.ackCounter, h);
      assert y.sent[h].data[..|y.sent[h].data|] == y.sent[h].data;
    }
    hide SlotsOk, HeldOk, TokensOk, CountersOk, FlowOk, Pick, SlotsIn, Tokens, Needed, PreparedOk;
  }

  lemma ReadFields(x: Side, y: Side)
    requires OkSide(x) && CanRead(x) && x.pc.Poll? && x.pc.why.ForRead?
    ensures var t := DoRead(x, y);
      && TokensOk(t.sq, t.done, Tokens(t.cq), Expected(t.pc, t.closePosted)) && SqOk(t.sq, t.pc, t.slots, t.posted)
      && t.sq == [] && t.slots == x.slots && Held(t) == Held(x) && t.rq == x.rq && OutOf(t) == OutOf(x)
      && SameButQueues(x, t)
      && CurrentOf(x).Some? && !CurrentOf(x).value.acked && CurrentOf(x).value.desc == x.sq[0].desc
      && CurrentOf(t) == Some(CurrentOf(x).value.(
           msg := Some(Message(Fetched(y, x.sq[0].desc).GetOr([]), x.sq[0].desc.flag))))
  {
    hide SlotsOk, HeldOk, CountersOk, CopiesOk, Pick, SlotsIn, Tokens, Fetched;
  }

  lemma ReadKeepsPair(x: Side, y: Side)
    requires OkSide(x) && OkSide(y) && Link(x, y) && Link(y, x) && CanRead(x)
    ensures var x' := DoRead(x, y); OkSide(x') && Link(x', y) && Link(y, x')
  {
    ReadFinds(x, y);
    ReadFields(x, y);
    FlowReads(SendSide(y), RecvSide(x));
    var t := DoRead(x, y);
    assert !x.closePosted by { assert PcOk(x); }
    hide SlotsOk, HeldOk, TokensOk, SqOk, CountersOk, CopiesOk, Pick, SlotsIn, Tokens, SlotInHand, Expected, OkSide,
         Held, OutOf, CurrentOf, Fetched, DoRead, FlowOk, HasClose;
    QueuesKeepOk(x, t);
  }

  // ---------------------------------------------------------------- delivery: at the sender

  function Left(x: Side): Side
    requires x.sq != []
  {
    x.(sq := x.sq[1..], done := x.done + [SendDone])
  }

  lemma LeftFields(x: Side)
    requires OkSide(x) && x.sq != [] && !x.sq[0].ReadRemote?
    ensures var t := Left(x);
      && |x.sq| == 1 && t.sq == []
      && TokensOk(t.sq, t.done, Tokens(t.cq), Expected(t.pc, t.closePosted)) && SqOk(t.sq, t.pc, t.slots, t.posted)
      && t.slots == x.slots && Held(t) == Held(x) && t.rq == x.rq && OutOf(t) == [] && SameButQueues(x, t)
  {
    hide SlotsOk, HeldOk, CountersOk, CopiesOk, Pick, SlotsIn, Tokens;
  }

  lemma LeftKeeps(x: Side)
    requires OkSide(x) && x.sq != [] && !x.sq[0].ReadRemote?
    ensures OkSide(Left(x)) && SendSide(Left(x)) == SendSide(x).(out := [])
    ensures Left(x).sq == [] && SameButQueues(x, Left(x)) && Held(Left(x)) == Held(x) && Left(x).slots == x.slots
  {
    LeftFields(x);
    hide SlotsOk, HeldOk, TokensOk, SqOk, CountersOk, CopiesOk, Pick, SlotsIn, Tokens, SlotInHand, Expected, Held,
         OutOf, Left;
    QueuesKeepOk(x, Left(x));
  }

  /** What leaves is a message, an acknowledgement of the message in hand, or the CLOSE. */
  lemma WhatLeaves(x: Side)
    requires OkSide(x) && x.sq != [] && !x.sq[0].ReadRemote?
    ensures var meta, r := Content(x), RecvSide(x);
      match meta.typ
      case Normal => OutOf(x) == [meta.desc] && RecvSide(Left(x)) == r
      case Ack =>
        && OutOf(x) == [] && r.current.Some? && !r.current.value.acked && r.current.value.desc == meta.desc
        && RecvSide(Left(x)) == r.(current := Some(r.current.value.(acked := true)))
      case Close => OutOf(x) == [] && x.closePosted && RecvSide(Left(x)) == r
      case Unset => false
  {
    LeftFields(x);
    hide SlotsOk, HeldOk, CountersOk, CopiesOk, Pick, SlotsIn, Tokens;
  }

  // ---------------------------------------------------------------- delivery: at the receiver

  function Arrived(y: Side, meta: Meta): Side
    requires y.rq != [] && y.rq[0] < |y.slots|
  {
    Completed(y.(slots := y.slots[y.rq[0] := meta], rq := y.rq[1..]), RecvDone(y.rq[0]))
  }

  lemma SlotMoved(slots: seq<Meta>, held: seq<nat>, rq: seq<nat>, hand: seq<nat>, meta: Meta)
    requires SlotsOk(slots, held, rq, hand) && rq != []
    ensures rq[0] < |slots| && rq[0] !in held && rq[0] !in hand
    ensures SlotsOk(slots[rq[0] := meta], held + [rq[0]], rq[1..], hand)
  {
    SlotOnce(held, rq, hand, rq[0]);
    FirstOf(rq);
    assert multiset(held + [rq[0]]) == multiset(held) + multiset{rq[0]};
    hide AllSlots;
  }

  lemma HeldFilled(slots: seq<Meta>, held: seq<nat>, j: nat, meta: Meta)
    requires HeldOk(slots, held) && j < |slots| && j !in held && meta.typ != Unset && !HasClose(slots, held)
    ensures var slots' := slots[j := meta];
      HeldOk(slots', held + [j]) && (HasClose(slots', held + [j]) ==> meta.typ == Close)
  {
    var slots' := slots[j := meta];
    forall i | i in held ensures MetaAt(slots', i) == MetaAt(slots, i) && MetaAt(slots, i).typ != Close {
    }
    forall k | 0 <= k < |held| ensures MetaAt(slots', held[k]).typ != Close {
      assert held[k] in held;
    }
  }

  lemma SlotFilled(slots: seq<Meta>, held: seq<nat>, rq: seq<nat>, hand: seq<nat>, meta: Meta)
    requires SlotsOk(slots, held, rq, hand) && HeldOk(slots, held) && rq != []
    requires meta.typ != Unset && !HasClose(slots, held)
    ensures rq[0] < |slots| && rq[0] !in held && rq[0] !in hand
    ensures var slots' := slots[rq[0] := meta];
      && SlotsOk(slots', held + [rq[0]], rq[1..], hand) && HeldOk(slots', held + [rq[0]])
      && Pick(slots', held + [rq[0]], Ack) == Pick(slots, held, Ack) + Picked(meta, Ack)
      && Pick(slots', held + [rq[0]], Normal) == Pick(slots, held, Normal) + Picked(meta, Normal)
      && (HasClose(slots', held + [rq[0]]) ==> meta.typ == Close)
  {
    SlotMoved(slots, held, rq, hand, meta);
    HeldFilled(slots, held, rq[0], meta);
    var j, slots' := rq[0], slots[rq[0] := meta];
    PickFrame(slots, slots', held, Ack);
    PickFrame(slots, slots', held, Normal);
    PickLast(slots', held, j, Ack);
    PickLast(slots', held, j, Normal);
    hide Pick, SlotsOk, HeldOk, HasClose, Picked;
  }

  lemma ArrivedQueues(y: Side, meta: Meta)
    requires y.rq != [] && y.rq[0] < |y.slots|
    ensures var t, j := Arrived(y, meta), y.rq[0];
      && Held(t) == Held(y) + [j] && t.rq == y.rq[1..] && t.slots == y.slots[j := meta] && Tokens(t.cq) == Tokens(y.cq)
      && SameButQueues(y, t) && t.sq == y.sq && t.done == y.done && t.readBuf == y.readBuf
  {
    TokensOfOneMore(y.cq, RecvDone(y.rq[0]));
    Associative(y.wrQueue, SlotsIn(y.cq), [y.rq[0]]);
    hide SlotsIn, Tokens;
  }

  /** The slot in hand is not the one that is filled. */
  lemma InHandUntouched(y: Side, t: Side, j: nat, meta: Meta)
    requires SqOk(y.sq, y.pc, y.slots, y.posted) && j < |y.slots| && j !in SlotInHand(y.pc)
    requires t.slots == y.slots[j := meta] && t.sq == y.sq && t.pc == y.pc && t.posted == y.posted &&
             t.readBuf == y.readBuf
    ensures SqOk(t.sq, t.pc, t.slots, t.posted) && OutOf(t) == OutOf(y) && CurrentOf(t) == CurrentOf(y)
  {
    if SlotInHand(y.pc) != [] {
      assert SlotInHand(y.pc)[0] != j;
    }
  }

  lemma ArrivedFields(y: Side, meta: Meta)
    requires OkSide(y) && y.rq != [] && y.rq[0] < |y.slots| && y.rq[0] !in SlotInHand(y.pc)
    ensures var t, j := Arrived(y, meta), y.rq[0];
      && Held(t) == Held(y) + [j] && t.rq == y.rq[1..] && t.slots == y.slots[j := meta]
      && TokensOk(t.sq, t.done, Tokens(t.cq), Expected(t.pc, t.closePosted)) && SqOk(t.sq, t.pc, t.slots, t.posted)
      && OutOf(t) == OutOf(y) && CurrentOf(t) == CurrentOf(y) && SameButQueues(y, t) && t.sq == y.sq
  {
    ArrivedQueues(y, meta);
    hide SlotsOk, HeldOk, CountersOk, CopiesOk, TokensOk, SqOk, Pick, SlotsIn, Tokens, Arrived, Held, Expected,
         SlotInHand, OutOf, CurrentOf;
    InHandUntouched(y, Arrived(y, meta), y.rq[0], meta);
  }

  lemma ArrivedKeeps(y: Side, meta: Meta)
    requires OkSide(y) && y.rq != [] && meta.typ != Unset && !HasClose(y.slots, Held(y))
    ensures y.rq[0] < |y.slots|
    ensures var t := Arrived(y, meta);
      && OkSide(t) && SameButQueues(y, t) && t.sq == y.sq
      && SendSide(t) == SendSide(y).(acks := SendSide(y).acks + Picked(meta, Ack))
      && RecvSide(t) == RecvSide(y).(normals := RecvSide(y).normals + Picked(meta, Normal))
      && (HasClose(t.slots, Held(t)) ==> meta.typ == Close)
  {
    SlotFilled(y.slots, Held(y), y.rq, SlotInHand(y.pc), meta);
    ArrivedFields(y, meta);
    hide SlotsOk, HeldOk, TokensOk, SqOk, CountersOk, CopiesOk, Pick, Picked, SlotsIn, Tokens, SlotInHand, Expected,
         Held, OutOf, CurrentOf, HasClose, Arrived;
    QueuesKeepOk(y, Arrived(y, meta));
  }

  // ---------------------------------------------------------------- delivery: both ends

  lemma DeliverKeepsFlows(x: Side, y: Side)
    requires OkSide(x) && OkSide(y) && FlowOk(SendSide(x), RecvSide(y)) && FlowOk(SendSide(y), RecvSide(x))
    requires CanDeliver(x, y) && !HasClose(y.slots, Held(y))
    ensures var (x', y') := Delivered(x, y); 
      && OkSide(x') && OkSide(y') && FlowOk(SendSide(x'), RecvSide(y')) && FlowOk(SendSide(y'), RecvSide(x'))
      && x' == Left(x) && y' == Arrived(y, Content(x))
  {
    var meta := Content(x);
    WhatLeaves(x);
    LeftKeeps(x);
    ArrivedKeeps(y, meta);
    assert Delivered(x, y) == (Left(x), Arrived(y, meta));
    assert SendSide(x).out == OutOf(x);
    hide OkSide, FlowOk, SendSide, RecvSide, Delivered, Left, Arrived, HasClose, Held, OutOf, CanDeliver, Content;
    Empty(SendSide(y).acks);
    Empty(RecvSide(y).normals);
    match meta.typ {
      case Normal => FlowArrives(SendSide(x), RecvSide(y));
      case Ack => FlowAcks(SendSide(y), RecvSide(x));
      case Close =>
    }
  }

  lemma DeliverKeepsPair(x: Side, y: Side)
    requires OkSide(x) && OkSide(y) && Link(x, y) && Link(y, x) && CanDeliver(x, y)
    ensures var (x', y') := Delivered(x, y); OkSide(x') && OkSide(y') && Link(x', y') && Link(y', x')
  {
    DeliverKeepsFlows(x, y);
    WhatLeaves(x);
    LeftKeeps(x);
    ArrivedKeeps(y, Content(x));
    hide OkSide, FlowOk, SendSide, RecvSide, Delivered, Left, Arrived, HasClose, Held, OutOf, CanDeliver, Content,
         CurrentOf;
  }

  lemma ReportKeepsPair(x: Side, y: Side)
    requires OkSide(x) && OkSide(y) && Link(x, y) && Link(y, x) && x.done != []
    ensures var x' := Report(x); OkSide(x') && Link(x', y) && Link(y, x')
  {
    ReportKeeps(x);
    hide OkSide, FlowOk, SendSide, RecvSide, HasClose, Held, Report;
  }

  // ---------------------------------------------------------------- every reachable state

  lemma MoveKeepsPair(p: Pair, m: Move)
    requires OkPair(p) && Can(p, m)
    ensures OkPair(Next(p, m))
  {
    var x, y := Mine(p, m.end), Peer(p, m.end);
    hide OkSide, Link, ThreadStep, Delivered, DoRead, Report, ThreadCan, CanDeliver, CanRead;
    match m
    case Thread(e, act) => ThreadKeepsPair(x, y, act);
    case Deliver(e) => DeliverKeepsPair(x, y);
    case Read(e) => ReadKeepsPair(x, y);
    case Finish(e) => ReportKeepsPair(x, y);
  }

  lemma {:induction false} RunKeepsPair(p: Pair, moves: seq<Move>, fin: Pair)
    requires OkPair(p) && Runs(p, moves, fin)
    ensures OkPair(fin)
    decreases |moves|
  {
    hide OkPair, Next, Can;
    if moves != [] {
      MoveKeepsPair(p, moves[0]);
      RunKeepsPair(Next(p, moves[0]), moves[1..], fin);
    }
  }

  lemma FreshSideIsOk()
    ensures OkSide(Fresh())
  {
    assert Held(Fresh()) == [];
    hide Link;
  }

  lemma FreshLinks()
    ensures Link(Fresh(), Fresh())
  {
    assert Held(Fresh()) == [];
    hide OkSide;
  }

  lemma FreshIsOk()
    ensures OkSide(Fresh()) && Link(Fresh(), Fresh())
  {
    hide *;
    FreshSideIsOk();
    FreshLinks();
  }

  lemma ReachableIsOk(p: Pair)
    requires Reachable(p)
    ensures OkPair(p)
  {
    FreshIsOk();
    var start := Pair(Fresh(), Fresh());
    assert OkPair(start);
    hide OkPair, Runs, Fresh;
    var moves :| Runs(start, moves, p);
    RunKeepsPair(start, moves, p);
  }
}
