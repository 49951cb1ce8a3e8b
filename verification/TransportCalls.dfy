/**
  Whole calls of recv_ and irecv_, from their beginning to their return, with any moves of the peer and of
  both adapters in between, in every state that a connection can come to.
 */
module TransportCalls {
  import opened Wrappers
  import opened Transport
  import opened Flow
  import opened Sockets
  import opened SocketSteps
  import opened Connection
  import opened Adapters
  import opened TransportResults

  /** The call under way at end e returns after these moves. */
  ghost predicate Finishes(p: Pair, e: End, moves: seq<Move>, fin: Pair)
    decreases |moves|
  {
    if Mine(p, e).pc.Idle? then moves == [] && p == fin
    else moves != [] && Can(p, moves[0]) && Finishes(Next(p, moves[0]), e, moves[1..], fin)
  }

  /** The program at end e makes the call in state p, and it has returned in state fin. */
  ghost predicate WholeCall(p: Pair, e: End, call: Call, moves: seq<Move>, fin: Pair) {
    && Mine(p, e).pc.Idle? && Can(p, Thread(e, Begin(call)))
    && Finishes(Next(p, Thread(e, Begin(call))), e, moves, fin)
  }

  // ---------------------------------------------------------------- CLOSE is handled once

  /** Once y has noted the peer's CLOSE there is none under way or waiting. */
  ghost predicate CloseSeen(x: Side, y: Side) {
    y.closeFlag ==> x.sq == [] && !HasClose(y.slots, Held(y))
  }

  ghost predicate Settled(p: Pair) {
    OkPair(p) && CloseSeen(p.a, p.b) && CloseSeen(p.b, p.a)
  }

  lemma OnlyCloseIsNoted(s: Side)
    requires s.pc.Resolve? && !s.closeFlag && ResolveStep(s).closeFlag
    ensures s.wrQueue != [] && SlotMeta(s, s.wrQueue[0]).typ == Close
    ensures ResolveStep(s) == Resolved(CloseTaken(s), PeerClosed)
  {
  }

  lemma NewlyClosed(s: Side)
    requires OkSide(s) && s.pc.Resolve? && !s.closeFlag && ResolveStep(s).closeFlag
    ensures HasClose(s.slots, Held(s)) && Held(ResolveStep(s)) == []
  {
    OnlyCloseIsNoted(s);
    hide OkSide, SlotsIn, Resolved, SameFlows, ResolveStep;
    HandleCloseKeeps(s);
    assert s.wrQueue[0] in Held(s);
    ResolvedKeepsHeld(CloseTaken(s), PeerClosed);
    assert Held(CloseTaken(s)) == Behind(s);
  }

  lemma ThreadSeesClose(x: Side, y: Side, act: Act)
    requires OkSide(x) && OkSide(y) && CloseLink(x, y) && CloseSeen(x, y) && ThreadCan(y, act)
    ensures CloseSeen(x, ThreadStep(y, act))
  {
    var y' := ThreadStep(y, act);
    ThreadAddsNoClose(y, act);
    HasNoNewClose(y, y');
    hide OkSide, NoNewClose, HasClose, Held, ResolveStep;
    if y'.closeFlag && !y.closeFlag {
      assert act == Go && y' == ResolveStep(y) by { OnlyResolveCloses(y, act); }
      NewlyClosed(y);
      NothingHeld(y');
    }
  }

  lemma NothingHeld(s: Side)
    requires Held(s) == []
    ensures !HasClose(s.slots, Held(s))
  {
  }

  lemma OnlyResolveCloses(s: Side, act: Act)
    requires ThreadCan(s, act) && s.pc.Resolve?
    ensures act == Go && ThreadStep(s, act) == ResolveStep(s)
  {
  }

  /** A side whose CLOSE the peer has noted does nothing any more. */
  lemma ClosedIsDone(x: Side, y: Side, act: Act)
    requires OkSide(x) && CloseLink(x, y) && y.closeFlag
    ensures !ThreadCan(x, act)
  {
  }

  lemma ThreadKeepsSettled(x: Side, y: Side, act: Act)
    requires OkSide(x) && OkSide(y) && CloseLink(x, y) && CloseLink(y, x) && CloseSeen(x, y) && CloseSeen(y, x)
    requires ThreadCan(y, act)
    ensures CloseSeen(x, ThreadStep(y, act)) && CloseSeen(ThreadStep(y, act), x)
  {
    ThreadSeesClose(x, y, act);
    if x.closeFlag {
      ClosedIsDone(y, x, act);
    }
    hide OkSide, CloseLink, ThreadStep, ThreadCan, HasClose, Held;
  }

  lemma DeliverKeepsSettled(x: Side, y: Side)
    requires OkSide(x) && OkSide(y) && Link(x, y) && Link(y, x) && CloseSeen(x, y) && CloseSeen(y, x) &&
             CanDeliver(x, y)
    ensures var (x', y') := Delivered(x, y); CloseSeen(x', y') && CloseSeen(y', x')
  {
    DeliverKeepsFlows(x, y);
    LeftKeeps(x);
    ArrivedFrame(y, Content(x));
    hide OkSide, FlowOk, SendSide, RecvSide, Delivered, Left, Arrived, HasClose, Held, Content;
  }

  lemma ArrivedFrame(y: Side, meta: Meta)
    requires y.rq != [] && y.rq[0] < |y.slots|
    ensures Arrived(y, meta).sq == y.sq && Arrived(y, meta).closeFlag == y.closeFlag
  {
  }

  lemma ReadKeepsSettled(x: Side, y: Side)
    requires OkSide(x) && OkSide(y) && Link(y, x) && CloseSeen(x, y) && CloseSeen(y, x) && CanRead(x)
    ensures CloseSeen(DoRead(x, y), y) && CloseSeen(y, DoRead(x, y))
  {
    ReadFinds(x, y);
    ReadFields(x, y);
    hide OkSide, FlowOk, SendSide, RecvSide, DoRead, HasClose, Held, Fetched;
  }

  lemma ReportKeepsSettled(x: Side, y: Side)
    requires OkSide(x) && CloseSeen(x, y) && CloseSeen(y, x) && x.done != []
    ensures CloseSeen(Report(x), y) && CloseSeen(y, Report(x))
  {
    ReportKeeps(x);
    hide OkSide, SendSide, RecvSide, Report, HasClose, Held;
  }

  lemma MoveKeepsSettled(p: Pair, m: Move)
    requires Settled(p) && Can(p, m)
    ensures Settled(Next(p, m))
  {
    var x, y := Mine(p, m.end), Peer(p, m.end);
    MoveKeepsPair(p, m);
    hide OkSide, FlowOk, CloseLink, CloseSeen, ThreadStep, Delivered, DoRead, Report, ThreadCan, CanDeliver, CanRead;
    match m
    case Thread(e, act) => ThreadKeepsSettled(y, x, act);
    case Deliver(e) => DeliverKeepsSettled(x, y);
    case Read(e) => ReadKeepsSettled(x, y);
    case Finish(e) => ReportKeepsSettled(x, y);
  }

  lemma {:induction false} RunKeepsSettled(p: Pair, moves: seq<Move>, fin: Pair)
    requires Settled(p) && Runs(p, moves, fin)
    ensures Settled(fin)
    decreases |moves|
  {
    hide Settled, Next, Can;
    if moves != [] {
      MoveKeepsSettled(p, moves[0]);
      RunKeepsSettled(Next(p, moves[0]), moves[1..], fin);
    }
  }

  lemma ReachableIsSettled(p: Pair)
    requires Reachable(p)
    ensures Settled(p)
  {
    FreshIsOk();
    var start := Pair(Fresh(), Fresh());
    assert Settled(start);
    hide Settled, Runs, Fresh;
    var moves :| Runs(start, moves, p);
    RunKeepsSettled(start, moves, p);
  }

  // ---------------------------------------------------------------- a call under way

  /** Who has called, if the thread is handling messages for a call. */
  function CallerOf(pc: Pc): Option<Caller> {
    match pc
    case Resolve(_, caller) => Some(caller)
    case Acking(_, _, caller) => Some(caller)
    case Poll(_, _, ForRead(_, caller)) => Some(caller)
    case Poll(_, _, ForAck(_, _, caller)) => Some(caller)
    case Poll(_, _, ForMessage) => Some(InRecvLoop)
    case _ => None
  }

  /** A recv_ or irecv_ that began in state s has come to state t: nothing has been returned yet, and nothing
      that was queued is gone. */
  ghost predicate UnderWay(s: Side, t: Side, callers: set<Caller>) {
    && CallerOf(t.pc).Some? && CallerOf(t.pc).value in callers
    && !t.closeLock && t.closeFlag == s.closeFlag && t.returned == s.returned && s.recvQueue <= t.recvQueue
    && (t.pc.Resolve? && t.pc.got ==> t.recvQueue != [])
    && (CallerOf(t.pc) == Some(InRecvLoop) ==> !t.closeFlag)
  }

  /** It has returned the oldest message, or NULL with no message queued. */
  ghost predicate GaveBack(s: Side, t: Side) {
    && t.pc.Idle?
    && if t.returned == s.returned then t.recvQueue == [] == s.recvQueue
       else
         && |t.returned| == |s.returned| + 1 && s.returned <= t.returned
         && (s.recvQueue != [] ==> t.returned[|s.returned|] == s.recvQueue[0])
  }

  /** It has come to the peer's CLOSE, noted it, and returned NULL. */
  ghost predicate CameToClose(s: Side, t: Side) {
    t.pc.Idle? && t.closeFlag && t.returned == s.returned
  }

  lemma GivesBack(s: Side, t: Side, flag: bool)
    requires t.returned == s.returned && s.recvQueue <= t.recvQueue
    ensures GaveBack(s, GiveBack(t.(closeFlag := flag)))
  {
  }

  lemma PollGoes(s: Side, t: Side, callers: set<Caller>)
    requires UnderWay(s, t, callers) && t.pc.Poll?
    ensures UnderWay(s, PollEvent(t), callers) && UnderWay(s, PollDrain(t), callers)
    ensures UnderWay(s, PollReturn(t), callers)
  {
    hide SlotsIn, Tokens;
  }

  lemma HandlingGoes(s: Side, t: Side, callers: set<Caller>)
    requires UnderWay(s, t, callers) && t.pc.Resolve? && t.wrQueue != [] && SlotMeta(t, t.wrQueue[0]).typ != Close
    ensures UnderWay(s, ResolveStep(t), callers)
  {
  }

  /** irecv_ does not wait: when everything that has arrived is handled, it returns. */
  lemma IrecvResolves(s: Side, t: Side)
    requires UnderWay(s, t, {InIrecv}) && t.pc.Resolve?
    ensures var t' := ResolveStep(t);
      || UnderWay(s, t', {InIrecv})
      || (GaveBack(s, t') && t'.closeFlag == t.closeFlag)
      || (CameToClose(s, t') && HasClose(t.slots, Held(t)))
  {
    if t.wrQueue == [] {
      GivesBack(s, t, t.closeFlag);
    } else if SlotMeta(t, t.wrQueue[0]).typ == Close {
      assert t.wrQueue[0] in Held(t);
    } else {
      HandlingGoes(s, t, {InIrecv});
    }
    hide HandleNormal, HandleAck, GaveBack, SlotsIn;
  }

  lemma IrecvGoes(s: Side, t: Side, act: Act)
    requires UnderWay(s, t, {InIrecv}) && ThreadCan(t, act)
    ensures var t' := ThreadStep(t, act);
      || UnderWay(s, t', {InIrecv})
      || (GaveBack(s, t') && t'.closeFlag == t.closeFlag)
      || (CameToClose(s, t') && HasClose(t.slots, Held(t)))
  {
    hide PollEvent, PollDrain, PollReturn, ResolveStep, GaveBack, HasClose;
    match t.pc {
      case Poll(_, _, _) => PollGoes(s, t, {InIrecv});
      case Resolve(_, _) => IrecvResolves(s, t);
      case Acking(_, _, _) =>
    }
  }

  /** recv_ returns a message, or NULL when the peer has closed and no message is queued; NULL leaves close_lock
      held if the close had been noted before. */
  ghost predicate RecvEnds(s: Side, t: Side) {
    && GaveBack(s, t) && (t.returned == s.returned ==> t.closeFlag && (s.closeFlag ==> t.closeLock))
    && (t.returned != s.returned ==> !t.closeLock)
  }

  lemma RecvResolved(s: Side, t: Side, flag: Flag)
    requires UnderWay(s, t, {InRecv, InRecvLoop}) && t.pc.Resolve? && (flag == GotMessage ==> t.recvQueue != [])
    ensures var t' := Resolved(t, flag);
      (flag == NoMessage && UnderWay(s, t', {InRecv, InRecvLoop})) || RecvEnds(s, t')
  {
    GivesBack(s, t, t.closeFlag);
    GivesBack(s, t, true);
  }

  lemma RecvGoes(s: Side, t: Side, act: Act)
    requires UnderWay(s, t, {InRecv, InRecvLoop}) && ThreadCan(t, act)
    ensures var t' := ThreadStep(t, act); UnderWay(s, t', {InRecv, InRecvLoop}) || RecvEnds(s, t')
  {
    hide PollEvent, PollDrain, PollReturn, Resolved, RecvEnds, HandleNormal, HandleAck;
    match t.pc {
      case Poll(_, _, _) => PollGoes(s, t, {InRecv, InRecvLoop});
      case Resolve(_, _) =>
        if t.wrQueue == [] {
          RecvResolved(s, t, if t.pc.got then GotMessage else NoMessage);
        } else if SlotMeta(t, t.wrQueue[0]).typ == Close {
          RecvResolved(s, t.(wrQueue := t.wrQueue[1..], rq := t.rq + [t.wrQueue[0]]), PeerClosed);
        } else {
          HandlingGoes(s, t, {InRecv, InRecvLoop});
        }
      case Acking(_, _, _) =>
    }
  }

  /** What the other moves leave alone. */
  lemma OthersLeave(p: Pair, e: End, m: Move, s: Side, callers: set<Caller>)
    requires Can(p, m) && !(m.Thread? && m.end == e) && UnderWay(s, Mine(p, e), callers)
    ensures UnderWay(s, Mine(Next(p, m), e), callers)
  {
    hide ThreadStep, SlotsIn, Fetched, Content;
  }

  // ---------------------------------------------------------------- whole calls

  lemma {:induction false} IrecvRuns(p: Pair, e: End, moves: seq<Move>, fin: Pair, s: Side)
    requires Settled(p) && Finishes(p, e, moves, fin) && UnderWay(s, Mine(p, e), {InIrecv})
    ensures Settled(fin)
    ensures var t := Mine(fin, e);
      (GaveBack(s, t) && t.closeFlag == s.closeFlag) || (CameToClose(s, t) && !s.closeFlag)
    decreases |moves|
  {
    var m, next := moves[0], Next(p, moves[0]);
    MoveKeepsSettled(p, m);
    hide ThreadStep, Next, Can, GaveBack, OkPair, HasClose, Held, ThreadCan;
    if m.Thread? && m.end == e {
      assert ThreadCan(Mine(p, e), m.act) && Mine(next, e) == ThreadStep(Mine(p, e), m.act) by { OwnStep(p, m); }
      IrecvGoes(s, Mine(p, e), m.act);
      if UnderWay(s, Mine(next, e), {InIrecv}) {
        IrecvRuns(next, e, moves[1..], fin, s);
      } else {
        Returned(next, e, moves[1..], fin, s);
      }
    } else {
      OthersLeave(p, e, m, s, {InIrecv});
      IrecvRuns(next, e, moves[1..], fin, s);
    }
  }

  lemma OwnStep(p: Pair, m: Move)
    requires Can(p, m) && m.Thread?
    ensures ThreadCan(Mine(p, m.end), m.act) && Mine(Next(p, m), m.end) == ThreadStep(Mine(p, m.end), m.act)
  {
    hide ThreadStep, ThreadCan;
  }

  lemma Returned(p: Pair, e: End, moves: seq<Move>, fin: Pair, s: Side)
    requires Finishes(p, e, moves, fin) && (GaveBack(s, Mine(p, e)) || CameToClose(s, Mine(p, e)))
    ensures fin == p
  {
  }

  lemma {:induction false} RecvRuns(p: Pair, e: End, moves: seq<Move>, fin: Pair, s: Side)
    requires Settled(p) && Finishes(p, e, moves, fin) && UnderWay(s, Mine(p, e), {InRecv, InRecvLoop})
    ensures Settled(fin) && RecvEnds(s, Mine(fin, e))
    decreases |moves|
  {
    var m, next := moves[0], Next(p, moves[0]);
    MoveKeepsSettled(p, m);
    hide ThreadStep, Next, Can, GaveBack, OkPair, HasClose, Held, ThreadCan, CloseSeen;
    if m.Thread? && m.end == e {
      assert ThreadCan(Mine(p, e), m.act) && Mine(next, e) == ThreadStep(Mine(p, e), m.act) by { OwnStep(p, m); }
      RecvGoes(s, Mine(p, e), m.act);
      if UnderWay(s, Mine(next, e), {InRecv, InRecvLoop}) {
        RecvRuns(next, e, moves[1..], fin, s);
      } else {
        Returned(next, e, moves[1..], fin, s);
      }
    } else {
      OthersLeave(p, e, m, s, {InRecv, InRecvLoop});
      RecvRuns(next, e, moves[1..], fin, s);
    }
  }

  function CallersOf(call: Call): set<Caller> {
    if call.CallIrecv? then {InIrecv} else {InRecv, InRecvLoop}
  }

  lemma CallStarts(s: Side, call: Call)
    requires ThreadCan(s, Begin(call)) && (call.CallRecv? || call.CallIrecv?)
    ensures var t := ThreadStep(s, Begin(call)); if s.closeLock then t == s else UnderWay(s, t, CallersOf(call))
  {
    hide SlotsIn;
  }

  lemma CallBegins(p: Pair, e: End, call: Call, moves: seq<Move>, fin: Pair)
    requires WholeCall(p, e, call, moves, fin) && (call.CallRecv? || call.CallIrecv?) && Settled(p)
    ensures Settled(Next(p, Thread(e, Begin(call)))) && Finishes(Next(p, Thread(e, Begin(call))), e, moves, fin)
    ensures var s := Mine(p, e);
      if s.closeLock then s.closeFlag && s.recvQueue == [] && Mine(fin, e) == s && Settled(fin)
      else UnderWay(s, Mine(Next(p, Thread(e, Begin(call))), e), CallersOf(call))
  {
    var begin := Thread(e, Begin(call));
    if Mine(p, e).closeLock {
      LockedIsEmpty(p, e);
    }
    hide Settled, Next, Can, UnderWay, ThreadStep, ThreadCan;
    MoveKeepsSettled(p, begin);
    OwnStep(p, begin);
    CallStarts(Mine(p, e), call);
  }

  lemma LockedIsEmpty(p: Pair, e: End)
    requires Settled(p) && Mine(p, e).closeLock
    ensures Mine(p, e).closeFlag && Mine(p, e).recvQueue == []
  {
    assert PcOk(Mine(p, e));
  }

  /** An irecv_ call, made in any state a connection can come to and with any moves of both ends until it
      returns, gives NULL with messages queued if and only if it is the call that comes to the peer's CLOSE:
      close_flag was not set when it began and is set when it returns.  A call that begins with close_flag
      set never does.  Otherwise it gives the peer's next message, or NULL if none is queued. */
  lemma IrecvCall(p: Pair, e: End, moves: seq<Move>, fin: Pair)
    requires Reachable(p) && WholeCall(p, e, CallIrecv, moves, fin)
    ensures var s, t := Mine(p, e), Mine(fin, e);
      && (t.returned == s.returned && t.recvQueue != [] <==> !s.closeFlag && t.closeFlag && t.recvQueue != [])
      && (!s.closeFlag && t.closeFlag ==> t.returned == s.returned)
      && (t.returned != s.returned ==>
            |s.returned| < |Peer(fin, e).sent| && t.returned == s.returned + [Peer(fin, e).sent[|s.returned|]])
  {
    ReachableIsSettled(p);
    CallBegins(p, e, CallIrecv, moves, fin);
    var s := Mine(p, e);
    hide Settled, ThreadStep, Next, Can, UnderWay, Reachable, Finishes;
    if !s.closeLock {
      IrecvRuns(Next(p, Thread(e, Begin(CallIrecv))), e, moves, fin, s);
      if Mine(fin, e).returned != s.returned {
        NextOfPeer(fin, e, s);
      }
    }
  }

  lemma ReceivedIsPrefix(fin: Pair, e: End)
    requires Settled(fin)
    ensures var x, t := Peer(fin, e), Mine(fin, e); t.returned + t.recvQueue <= x.sent
  {
    hide OkSide, CloseSeen, CloseLink;
  }

  lemma OneMore(was: seq<Message>, now: seq<Message>, queue: seq<Message>, sent: seq<Message>)
    requires now + queue <= sent && |now| == |was| + 1 && was <= now
    ensures |was| < |sent| && now == was + [sent[|was|]]
  {
    assert (now + queue)[|was|] == now[|was|] == sent[|was|];
  }

  /** What has been returned is a prefix of what the peer has sent, so a message more is the peer's next. */
  lemma NextOfPeer(fin: Pair, e: End, s: Side)
    requires Settled(fin) && GaveBack(s, Mine(fin, e)) && Mine(fin, e).returned != s.returned
    ensures |s.returned| < |Peer(fin, e).sent|
    ensures Mine(fin, e).returned == s.returned + [Peer(fin, e).sent[|s.returned|]]
  {
    hide Settled;
    ReceivedIsPrefix(fin, e);
    OneMore(s.returned, Mine(fin, e).returned, Mine(fin, e).recvQueue, Peer(fin, e).sent);
  }

  /** A recv_ call, made in any state a connection can come to and with any moves of both ends until it
      returns, gives the peer's next message, or NULL; and NULL only when the peer has closed and every
      message the peer ever sent has been handed out.  If the close had been noted before the call, NULL
      leaves close_lock held. */
  lemma RecvCall(p: Pair, e: End, moves: seq<Move>, fin: Pair)
    requires Reachable(p) && WholeCall(p, e, CallRecv, moves, fin)
    ensures var s, t, x := Mine(p, e), Mine(fin, e), Peer(fin, e);
      if t.returned == s.returned then
        && t.closeFlag && t.recvQueue == [] && t.returned == x.sent && x.closePosted
        && (s.closeFlag ==> t.closeLock)
      else
        !t.closeLock && |s.returned| < |x.sent| && t.returned == s.returned + [x.sent[|s.returned|]]
  {
    ReachableIsSettled(p);
    CallBegins(p, e, CallRecv, moves, fin);
    var s := Mine(p, e);
    hide Settled, ThreadStep, Next, Can, UnderWay, Reachable, Finishes;
    if !s.closeLock {
      RecvRuns(Next(p, Thread(e, Begin(CallRecv))), e, moves, fin, s);
      if Mine(fin, e).returned != s.returned {
        NextOfPeer(fin, e, s);
      }
    }
    if Mine(fin, e).returned == s.returned {
      AllHandedOut(fin, e);
    }
  }

  lemma AllHandedOut(fin: Pair, e: End)
    requires Settled(fin) && Mine(fin, e).closeFlag && Mine(fin, e).recvQueue == []
    ensures Mine(fin, e).returned == Peer(fin, e).sent && Peer(fin, e).closePosted
  {
    var x, t := Peer(fin, e), Mine(fin, e);
    assert FlowOk(SendSide(x), RecvSide(t)) && CloseLink(x, t);
    assert t.returned + [] == t.returned && x.sent[..|x.sent|] == x.sent;
    hide OkPair, OkSide, CloseSeen, FlowOk, HasClose;
  }

  // ---------------------------------------------------------------- RDMA_Irecv

  /** What RDMA_Irecv makes of an irecv_ call that led from s to t: it looks at close_flag first, then at
      whether there is a message, then at its length. */
  function IrecvCode(s: Side, t: Side, count: int): int {
    if t.closeFlag then 1
    else if |t.returned| <= |s.returned| then 6
    else if |t.returned[|s.returned|].data| == count then 0
    else 6
  }

  lemma CodeIs(s: Side, t: Side, sent: seq<Message>, count: int)
    requires t.returned != s.returned ==> |s.returned| < |sent| && t.returned == s.returned + [sent[|s.returned|]]
    ensures IrecvCode(s, t, count) == 0 <==>
      !t.closeFlag && t.returned != s.returned && |s.returned| < |sent| && |sent[|s.returned|].data| == count
    ensures IrecvCode(s, t, count) == 6 <==>
      && !t.closeFlag
      && (t.returned == s.returned || |s.returned| >= |sent| || |sent[|s.returned|].data| != count)
    ensures IrecvCode(s, t, count) == 1 <==> t.closeFlag
  {
  }

  lemma OldestGiven(s: Side, t: Side)
    requires GaveBack(s, t) && s.recvQueue != []
    ensures t.returned == s.returned + [s.recvQueue[0]]
  {
  }

  /** RDMA_Irecv hands a message out (code 0) if and only if the peer's CLOSE has not been noted when it
      returns and a message of the length asked for was there; without a message, or with one of another
      length, it gives code 6.  From the call that comes to CLOSE on it only
      gives code 1: a message that is queued then is taken off the queue by the next call, which does
      not hand it out. */
  lemma IrecvLosesQueued(p: Pair, e: End, moves: seq<Move>, fin: Pair, count: int)
    requires Reachable(p) && WholeCall(p, e, CallIrecv, moves, fin)
    ensures var s, t := Mine(p, e), Mine(fin, e);
      && (IrecvCode(s, t, count) == 0 <==>
            && !t.closeFlag && t.returned != s.returned
            && |s.returned| < |Peer(fin, e).sent| && |Peer(fin, e).sent[|s.returned|].data| == count)
      && (IrecvCode(s, t, count) == 1 <==> t.closeFlag)
      && (IrecvCode(s, t, count) == 6 <==>
            && !t.closeFlag
            && (t.returned == s.returned
                || |s.returned| >= |Peer(fin, e).sent| || |Peer(fin, e).sent[|s.returned|].data| != count))
      && (s.closeFlag ==> t.closeFlag)
      && (s.closeFlag && s.recvQueue != [] ==> t.returned == s.returned + [s.recvQueue[0]])
  {
    hide *;
    IrecvCall(p, e, moves, fin);
    CodeIs(Mine(p, e), Mine(fin, e), Peer(fin, e).sent, count);
    ReachableIsSettled(p);
    AfterClose(p, e, moves, fin);
  }

  lemma AfterClose(p: Pair, e: End, moves: seq<Move>, fin: Pair)
    requires Settled(p) && WholeCall(p, e, CallIrecv, moves, fin)
    ensures var s, t := Mine(p, e), Mine(fin, e);
      && (s.closeFlag ==> t.closeFlag)
      && (s.closeFlag && s.recvQueue != [] ==> t.returned == s.returned + [s.recvQueue[0]])
  {
    CallBegins(p, e, CallIrecv, moves, fin);
    var s := Mine(p, e);
    hide *;
    if !s.closeLock {
      assert CallersOf(CallIrecv) == {InIrecv} by { IrecvCallers(); }
      IrecvRuns(Next(p, Thread(e, Begin(CallIrecv))), e, moves, fin, s);
      if GaveBack(s, Mine(fin, e)) && s.recvQueue != [] {
        OldestGiven(s, Mine(fin, e));
      }
    }
  }

  lemma IrecvCallers()
    ensures CallersOf(CallIrecv) == {InIrecv}
  {
  }
}
