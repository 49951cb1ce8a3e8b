/** What a connection guarantees in every state it can come to. */
module TransportResults {
  import opened Wrappers
  import opened Transport
  import opened Flow
  import opened Sockets
  import opened SocketSteps
  import opened Connection
  import opened Adapters

  lemma ReachableEnds(p: Pair, e: End)
    requires Reachable(p)
    ensures var x, y := Mine(p, e), Peer(p, e);
      && OkSide(x) && OkSide(y) && CloseLink(x, y) && CloseLink(y, x)
      && FlowOk(SendSide(x), RecvSide(y)) && FlowOk(SendSide(y), RecvSide(x))
  {
    ReachableIsOk(p);
    hide OkSide, FlowOk, CloseLink, Reachable;
  }

  // ---------------------------------------------------------------- delivery

  /** recv_ and irecv_ have returned a prefix of the messages the peer has sent, bytes and flags, in
      order and each once; those still queued come next. */
  lemma ReturnedArePrefix(p: Pair, e: End)
    requires Reachable(p)
    ensures var x, y := Mine(p, e), Peer(p, e);
      y.returned <= y.returned + y.recvQueue <= x.sent
  {
    ReachableEnds(p, e);
    hide OkSide, CloseLink, Reachable;
  }

  // ---------------------------------------------------------------- buffers

  /** A remote read always finds the sender's registered copy with the bytes that were sent: those of
      the next message the reader is to receive. */
  lemma RemoteReadIsValid(p: Pair, e: End)
    requires Reachable(p) && CanRead(Mine(p, e))
    ensures var x, y := Mine(p, e), Peer(p, e);
      var h, desc := ReceivedCount(x), x.sq[0].desc;
      && h < |y.sent| && desc.len == |y.sent[h].data|
      && (desc.len != 0 ==> desc.addr in y.copies && Fetched(y, desc) == Some(y.sent[h].data))
  {
    ReachableEnds(p, e);
    ReadFinds(Mine(p, e), Peer(p, e));
    var x, y := Mine(p, e), Peer(p, e);
    assert DescFits(y.posted[ReceivedCount(x)], y.sent[ReceivedCount(x)]) by {
      assert AllFit(y.posted, y.sent);
    }
    hide OkSide, CloseLink, Reachable, FlowOk;
  }

  /** The live copies are exactly those of the messages sent but not acknowledged and that of the
      message a send_ under way is about to post. */
  lemma LiveCopies(p: Pair, e: End, a: nat)
    requires Reachable(p)
    ensures var x := Mine(p, e);
      a in x.copies <==> a != 0 && Needed(x.posted, x.ackCounter, Prepared(x.pc), a)
  {
    ReachableEnds(p, e);
    var x := Mine(p, e);
    hide Reachable, CloseLink, FlowOk, SlotsOk, HeldOk, TokensOk, SqOk, CountersOk, PcOk;
    forall k: nat | Outstanding(x.posted, x.ackCounter, k) ensures x.posted[k].addr != 0 {
      assert DescFits(x.posted[k], x.sent[k]);
    }
  }

  /** The acknowledgement at the head of wr_queue is that of the oldest unacknowledged message; the
      copy it names is live, is freed with it, and no other is. */
  lemma AcknowledgementFreesItsCopy(p: Pair, e: End)
    requires Reachable(p)
    requires var x := Mine(p, e); x.pc.Resolve? && x.wrQueue != [] && SlotMeta(x, x.wrQueue[0]).typ == Ack
    ensures var x := Mine(p, e);
      var desc, x' := SlotMeta(x, x.wrQueue[0]).desc, ThreadStep(x, Go);
      && x.ackCounter < |x.posted| == |x.sent| && desc == x.posted[x.ackCounter]
      && (desc.addr != 0 ==> desc.addr in x.copies && x.copies[desc.addr] == x.sent[x.ackCounter].data)
      && x'.copies == (if desc.addr != 0 then x.copies - {desc.addr} else x.copies)
      && x'.ackCounter == x.ackCounter + 1
  {
    hide *;
    ReachableEnds(p, e);
    OldestAcknowledged(Mine(p, e), RecvSide(Peer(p, e)));
  }

  lemma OldestAcknowledged(x: Side, r: RecvPart)
    requires OkSide(x) && FlowOk(SendSide(x), r)
    requires x.pc.Resolve? && x.wrQueue != [] && SlotMeta(x, x.wrQueue[0]).typ == Ack
    ensures var desc, x' := SlotMeta(x, x.wrQueue[0]).desc, ThreadStep(x, Go);
      && x.ackCounter < |x.posted| == |x.sent| && desc == x.posted[x.ackCounter]
      && (desc.addr != 0 ==> desc.addr in x.copies && x.copies[desc.addr] == x.sent[x.ackCounter].data)
      && x'.copies == (if desc.addr != 0 then x.copies - {desc.addr} else x.copies)
      && x'.ackCounter == x.ackCounter + 1
  {
    AckIsOldest(x, r);
    CopyFreed(x.posted, x.sent, x.ackCounter, x.copies);
    hide FlowOk, SlotsOk, HeldOk, TokensOk, SqOk, CountersOk, PcOk, CopiesOk, SendSide, Repost;
  }

  // ---------------------------------------------------------------- credits and slots

  /** Descriptors on their way to the peer or waiting there, and acknowledgements on their way back
      or waiting here. */
  function InFlight(x: Side, y: Side): nat {
    |OutOf(x)| + |Pick(y.slots, Held(y), Normal)| + InHandUnacked(RecvSide(y)) + |Pick(x.slots, Held(x), Ack)|
  }

  /** Credits are conserved: what is missing from 50 is on the way, somewhere. */
  lemma CreditsAreConserved(p: Pair, e: End)
    requires Reachable(p)
    ensures var x, y := Mine(p, e), Peer(p, e);
      && x.peerBuffCount + InFlight(x, y) == 50
      && |x.posted| - x.ackCounter == InFlight(x, y)
      && (x.pc.Idle? ==>
            && x.wrQueue == [] && x.metadataCounter - x.ackCounter == InFlight(x, y)
            && x.peerBuffCount + (x.metadataCounter - x.ackCounter) == 50)
  {
    ReachableEnds(p, e);
    hide Reachable, CloseLink, SlotsOk, HeldOk, TokensOk, SqOk, CopiesOk, Pick, CurrentOf, Held;
  }

  function Count(s: seq<nat>, i: nat): nat {
    multiset(s)[i]
  }

  lemma HeldCount(x: Side, i: nat)
    ensures multiset(Held(x))[i] == Count(x.wrQueue, i) + Count(SlotsIn(x.cq), i)
  {
    assert multiset(Held(x)) == multiset(x.wrQueue) + multiset(SlotsIn(x.cq));
    hide SlotsIn;
  }

  lemma SlotsBalance(x: Side, i: nat)
    requires OkSide(x) && i < 50
    ensures Count(x.rq, i) + Count(SlotsIn(x.cq), i) + Count(x.wrQueue, i) + Count(SlotInHand(x.pc), i) == 1
  {
    SlotOnce(Held(x), x.rq, SlotInHand(x.pc), i);
    HeldCount(x, i);
    hide HeldOk, TokensOk, SqOk, CountersOk, CopiesOk, PcOk, SlotsIn, Held, SlotInHand, AllSlots;
  }

  lemma SlotSentFrom(x: Side, i: nat)
    requires OkSide(x) && SendSlot(i) in x.sq
    ensures SlotInHand(x.pc) == [i] && i !in x.rq && SlotMeta(x, i).typ == Ack
  {
    SlotOnce(Held(x), x.rq, SlotInHand(x.pc), i);
    hide HeldOk, TokensOk, CountersOk, CopiesOk, PcOk, SlotsIn, Held, AllSlots;
  }

  /** Each of the 50 slots is either posted, or waits in the completion queue or in wr_queue, or is
      being handled; a slot that an outgoing acknowledgement is sent from is being handled. */
  lemma SlotsAreConserved(p: Pair, e: End, i: nat)
    requires Reachable(p) && i < 50
    ensures var x := Mine(p, e);
      && Count(x.rq, i) + Count(SlotsIn(x.cq), i) + Count(x.wrQueue, i) + Count(SlotInHand(x.pc), i) == 1
      && (SendSlot(i) in x.sq ==> SlotInHand(x.pc) == [i] && i !in x.rq && SlotMeta(x, i).typ == Ack)
  {
    hide *;
    ReachableEnds(p, e);
    SlotsBalance(Mine(p, e), i);
    if SendSlot(i) in Mine(p, e).sq {
      SlotSentFrom(Mine(p, e), i);
    }
  }

  // ---------------------------------------------------------------- close

  /** CLOSE is posted only when all messages are acknowledged and no copy is left. */
  lemma CloseIsLast(p: Pair, e: End)
    requires Reachable(p) && Mine(p, e).closePosted
    ensures var x, y := Mine(p, e), Peer(p, e);
      && x.ackCounter == |x.sent| == |x.posted| && x.copies == map[] && InFlight(x, y) == 0
  {
    CreditsAreConserved(p, e);
    ReachableEnds(p, e);
    hide Reachable, CloseLink, SlotsOk, HeldOk, TokensOk, SqOk, FlowOk;
    var x := Mine(p, e);
    assert Prepared(x.pc) == None;
    assert forall a :: !Needed(x.posted, x.ackCounter, None, a);
    assert forall a :: a !in x.copies;
  }

  /** When the peer comes to handle CLOSE, it has received everything. */
  lemma CloseComesLast(p: Pair, e: End)
    requires Reachable(p)
    requires var y := Peer(p, e); y.pc.Resolve? && y.wrQueue != [] && SlotMeta(y, y.wrQueue[0]).typ == Close
    ensures var x, y := Mine(p, e), Peer(p, e);
      x.closePosted && y.returned + y.recvQueue == x.sent && Behind(y) == []
  {
    ReachableEnds(p, e);
    var x, y := Mine(p, e), Peer(p, e);
    HandleCloseKeeps(y);
    assert y.wrQueue[0] in Held(y);
    assert HasClose(y.slots, Held(y));
    ClosedMeansReceived(x, y);
    ReturnedArePrefix(p, e);
    hide Reachable, CloseLink, OkSide, FlowOk, HasClose, Held;
  }

  /** A socket that has noted the peer's CLOSE has received everything the peer sent, so a recv_ that
      finds its queue empty then has handed out everything. */
  lemma ClosedMeansAllReceived(p: Pair, e: End)
    requires Reachable(p) && Peer(p, e).closeFlag
    ensures var x, y := Mine(p, e), Peer(p, e);
      && x.closePosted && y.returned + y.recvQueue == x.sent && (y.recvQueue == [] ==> y.returned == x.sent)
  {
    ReachableEnds(p, e);
    ReturnedArePrefix(p, e);
    var x, y := Mine(p, e), Peer(p, e);
    hide Reachable, OkSide, FlowOk, HasClose;
    assert y.recvQueue == [] ==> y.returned + y.recvQueue == y.returned;
  }

  /** recv_ that gives NULL because the peer has closed has handed out every message before; it
      leaves close_lock held, and from then on every call returns at once. */
  lemma NullMeansEverything(p: Pair, e: End)
    requires Reachable(p) && Peer(p, e).closeLock
    ensures var x, y := Mine(p, e), Peer(p, e);
      && x.closePosted && y.returned == x.sent
      && (forall msg, addr :: SendBegin(y, msg, addr) == y) && (forall caller :: RecvBegin(y, caller) == y)
      && !CloseBegin(y).closePosted
  {
    ReachableEnds(p, e);
    ReturnedArePrefix(p, e);
    var x, y := Mine(p, e), Peer(p, e);
    assert y.closeFlag && y.recvQueue == [];
    hide Reachable, OkSide, FlowOk;
    assert y.returned + y.recvQueue == y.returned;
  }
}
