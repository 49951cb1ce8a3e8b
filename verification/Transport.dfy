/**
  Two sockets joined by a reliable, in-order queue pair: send_, recv_, irecv_ and the close
  message, one thread per socket, as steps that interleave with the work of the two adapters.

  A send is carried out by the adapters in two steps, delivery into the receive slot that has been
  posted longest and completion at the sender; a remote read likewise.  A send queue entry that
  names a slot is read when it is delivered, so the slot must not change before.
 */
module Transport {
  import opened Wrappers

  const MDBUFFERSIZE := 50

  datatype Message = Message(data: seq<int>, flag: int)

  /** What a descriptor says of the payload; addr is 0 for an empty message. */
  datatype Desc = Desc(addr: nat, len: nat, flag: int)

  datatype MetaType = Unset | Normal | Ack | Close

  datatype Meta = Meta(typ: MetaType, desc: Desc)

  datatype Cqe = RecvDone(slot: nat) | SendDone | ReadDone

  datatype Wqe = SendMeta(meta: Meta) | SendSlot(slot: nat) | ReadRemote(desc: Desc)

  datatype Arm = Armed | Fired | Disarmed

  /** Who has called resolve_wr_queue. */
  datatype Caller = InSend | InRecv | InRecvLoop | InIrecv | InClose

  /** What a poll_wc call is waiting for. */
  datatype Why =
    | ForCredit(desc: Desc, msg: Message)
    | ForSend
    | ForRead(slot: nat, caller: Caller)
    | ForAck(slot: nat, msg: Message, caller: Caller)
    | ForMessage
    | ForAllAcks

  datatype Stage = Event | Drain | Rearm

  /** Where the socket's thread is. */
  datatype Pc =
    | Idle
    | Posting(desc: Desc, msg: Message)
    | Poll(stage: Stage, saw: bool, why: Why)
    | Resolve(got: bool, caller: Caller)
    | Acking(slot: nat, msg: Message, caller: Caller)
    | Closed

  /** A socket with its adapter.  `posted` and `sent` list the messages handed to the adapter so far
      and `returned` those that recv_ and irecv_ have given back; the program does not read them. */
  datatype Side = Side(
    pc: Pc, peerBuffCount: int, metadataCounter: nat, ackCounter: nat, closeFlag: bool, closeLock: bool,
    wrQueue: seq<nat>, recvQueue: seq<Message>, copies: map<nat, seq<int>>, readBuf: Option<seq<int>>,
    slots: seq<Meta>, rq: seq<nat>, cq: seq<Cqe>, arm: Arm, sq: seq<Wqe>, done: seq<Cqe>,
    posted: seq<Desc>, sent: seq<Message>, returned: seq<Message>, closePosted: bool)

  function Numbers(n: nat): (s: seq<nat>)
    ensures |s| == n && forall i | 0 <= i < n :: s[i] == i
  {
    seq(n, i requires 0 <= i < n => i)
  }

  function Fresh(): Side {
    Side(Idle, MDBUFFERSIZE, 0, 0, false, false, [], [], map[], None,
         seq(MDBUFFERSIZE, _ => Meta(Unset, Desc(0, 0, 0))), Numbers(MDBUFFERSIZE), [], Armed, [], [],
         [], [], [], false)
  }

  function MetaAt(slots: seq<Meta>, slot: nat): Meta {
    if slot < |slots| then slots[slot] else Meta(Unset, Desc(0, 0, 0))
  }

  /** What a slot holds. */
  function SlotMeta(s: Side, slot: nat): Meta {
    MetaAt(s.slots, slot)
  }

  function WithType(s: Side, slot: nat, typ: MetaType): Side {
    if slot < |s.slots| then s.(slots := s.slots[slot := s.slots[slot].(typ := typ)]) else s
  }

  // ---------------------------------------------------------------- completion queue

  function SlotsIn(cq: seq<Cqe>): seq<nat> {
    if cq == [] then []
    else SlotsIn(cq[..|cq| - 1]) + if cq[|cq| - 1].RecvDone? then [cq[|cq| - 1].slot] else []
  }

  /** How many completions of sends and reads. */
  function Tokens(cq: seq<Cqe>): nat {
    if cq == [] then 0 else Tokens(cq[..|cq| - 1]) + if cq[|cq| - 1].RecvDone? then 0 else 1
  }

  /** The receive completions go to wr_queue, the others are only noted. */
  function Drained(s: Side): Side {
    s.(wrQueue := s.wrQueue + SlotsIn(s.cq), cq := [])
  }

  function Completed(s: Side, e: Cqe): Side {
    s.(cq := s.cq + [e], arm := if s.arm == Armed then Fired else s.arm)
  }

  // ---------------------------------------------------------------- send_

  function DescOf(msg: Message, addr: nat): Desc {
    Desc(if msg.data == [] then 0 else addr, |msg.data|, msg.flag)
  }

  /** An address for the copy of the payload: one that malloc may give. */
  predicate Allocatable(s: Side, addr: nat) {
    addr != 0 && addr !in s.copies
  }

  /** The payload is copied, then the credit is looked at. */
  function SendBegin(s: Side, msg: Message, addr: nat): Side {
    if s.closeLock then s
    else
      var desc := DescOf(msg, addr);
      s.(copies := if msg.data == [] then s.copies else s.copies[addr := msg.data],
         pc := if s.peerBuffCount <= 0 then Poll(Event, false, ForCredit(desc, msg)) else Posting(desc, msg))
  }

  function SendPost(s: Side): Side
    requires s.pc.Posting?
  {
    s.(sq := s.sq + [SendMeta(Meta(Normal, s.pc.desc))], peerBuffCount := s.peerBuffCount - 1,
       posted := s.posted + [s.pc.desc], sent := s.sent + [s.pc.msg], pc := Poll(Event, false, ForSend))
  }

  // ---------------------------------------------------------------- poll_wc

  function PollEvent(s: Side): Side
    requires s.pc.Poll?
  {
    s.(arm := Disarmed, pc := Poll(Drain, false, s.pc.why))
  }

  function PollDrain(s: Side): Side
    requires s.pc.Poll?
  {
    Drained(s).(pc := Poll(Rearm, Tokens(s.cq) > 0, s.pc.why))
  }

  /** poll_wc returns; its caller goes on or polls again. */
  function PollReturn(s: Side): Side
    requires s.pc.Poll?
  {
    var r := s.(arm := Armed);
    var again := Poll(Event, false, s.pc.why);
    match s.pc.why
    case ForCredit(desc, msg) => r.(pc := Posting(desc, msg))
    case ForSend =>
      if s.pc.saw then r.(metadataCounter := s.metadataCounter + 1, pc := Resolve(false, InSend)) else r.(pc := again)
    case ForRead(slot, caller) =>
      if s.pc.saw then r.(pc := Acking(slot, Message(s.readBuf.GetOr([]), SlotMeta(s, slot).desc.flag), caller))
      else r.(pc := again)
    case ForAck(slot, msg, caller) =>
      if s.pc.saw then AckFinished(r, slot, msg, caller) else r.(pc := again)
    case ForMessage => r.(pc := Resolve(false, InRecvLoop))
    case ForAllAcks => r.(pc := Resolve(false, InClose))
  }

  // ---------------------------------------------------------------- recv_wc_handle

  /** The slot goes back to the adapter, its type cleared. */
  function Repost(s: Side, slot: nat): Side {
    WithType(s, slot, Unset).(rq := s.rq + [slot])
  }

  function HandleNormal(s: Side, slot: nat, caller: Caller): Side {
    var desc := SlotMeta(s, slot).desc;
    if desc.len != 0 then s.(sq := s.sq + [ReadRemote(desc)], pc := Poll(Event, false, ForRead(slot, caller)))
    else s.(pc := Acking(slot, Message([], desc.flag), caller))
  }

  /** The descriptor itself, with its type rewritten, is the acknowledgement. */
  function AckPost(s: Side): Side
    requires s.pc.Acking?
  {
    WithType(s, s.pc.slot, Ack).(sq := s.sq + [SendSlot(s.pc.slot)],
                                 pc := Poll(Event, false, ForAck(s.pc.slot, s.pc.msg, s.pc.caller)))
  }

  function AckFinished(s: Side, slot: nat, msg: Message, caller: Caller): Side {
    Repost(s, slot).(recvQueue := s.recvQueue + [msg], pc := Resolve(true, caller))
  }

  function HandleAck(s: Side, slot: nat): Side {
    var desc := SlotMeta(s, slot).desc;
    Repost(s, slot).(peerBuffCount := s.peerBuffCount + 1, ackCounter := s.ackCounter + 1,
                     copies := if desc.addr != 0 then s.copies - {desc.addr} else s.copies)
  }

  // ---------------------------------------------------------------- resolve_wr_queue and its callers

  /** The result of resolve_wr_queue. */
  datatype Flag = GotMessage | NoMessage | PeerClosed

  function ResolveStep(s: Side): Side
    requires s.pc.Resolve?
  {
    if s.wrQueue == [] then Resolved(s, if s.pc.got then GotMessage else NoMessage)
    else
      var slot, r := s.wrQueue[0], s.(wrQueue := s.wrQueue[1..]);
      match SlotMeta(s, slot).typ
      case Normal => HandleNormal(r, slot, s.pc.caller)
      case Ack => HandleAck(r, slot)
      case Close => Resolved(r.(rq := s.rq + [slot]), PeerClosed)
      case Unset => r
  }

  /** The oldest queued message, if there is one, is what the call returns. */
  function GiveBack(s: Side): Side {
    if s.recvQueue == [] then s.(pc := Idle)
    else s.(returned := s.returned + [s.recvQueue[0]], recvQueue := s.recvQueue[1..], pc := Idle)
  }

  function Resolved(s: Side, flag: Flag): Side
    requires s.pc.Resolve?
  {
    var r := if flag == PeerClosed && s.pc.caller != InClose then s.(closeFlag := true) else s;
    match s.pc.caller
    case InSend => r.(pc := Idle)
    case InRecv =>
      if r.recvQueue != [] then GiveBack(r)
      else if r.closeFlag then r.(closeLock := true, pc := Idle)
      else if flag == NoMessage then r.(pc := Poll(Event, false, ForMessage))
      else r.(pc := Idle)
    case InRecvLoop => if flag == NoMessage then r.(pc := Poll(Event, false, ForMessage)) else GiveBack(r)
    case InIrecv => if flag == PeerClosed then r.(pc := Idle) else GiveBack(r)
    case InClose => CloseCheck(r)
  }

  // ---------------------------------------------------------------- recv_, irecv_, close_

  function RecvBegin(s: Side, caller: Caller): Side {
    if s.closeLock then s else Drained(s).(pc := Resolve(false, caller))
  }

  /** send_close_md: wait for all acknowledgements, then post CLOSE. */
  function CloseCheck(s: Side): Side {
    if s.ackCounter < s.metadataCounter then s.(pc := Poll(Event, false, ForAllAcks))
    else s.(sq := s.sq + [SendMeta(Meta(Close, Desc(0, 0, 0)))], pc := Closed, closePosted := true)
  }

  function CloseBegin(s: Side): Side {
    if s.closeLock then s.(pc := Closed) else CloseCheck(s)
  }

  // ---------------------------------------------------------------- steps

  /** What the program calls when no call is under way. */
  datatype Call = CallSend(msg: Message, addr: nat) | CallRecv | CallIrecv | CallClose

  datatype Act = Begin(call: Call) | Go

  predicate ThreadCan(s: Side, act: Act) {
    match act
    case Begin(call) => s.pc.Idle? && (call.CallSend? ==> Allocatable(s, call.addr))
    case Go =>
      && !s.pc.Idle? && !s.pc.Closed?
      && (s.pc.Poll? && s.pc.stage == Event ==> s.arm == Fired)
  }

  function ThreadStep(s: Side, act: Act): Side
    requires ThreadCan(s, act)
  {
    match act
    case Begin(CallSend(msg, addr)) => SendBegin(s, msg, addr)
    case Begin(CallRecv) => RecvBegin(s, InRecv)
    case Begin(CallIrecv) => RecvBegin(s, InIrecv)
    case Begin(CallClose) => CloseBegin(s)
    case Go =>
      match s.pc
      case Posting(_, _) => SendPost(s)
      case Poll(Event, _, _) => PollEvent(s)
      case Poll(Drain, _, _) => PollDrain(s)
      case Poll(Rearm, _, _) => PollReturn(s)
      case Resolve(_, _) => ResolveStep(s)
      case Acking(_, _, _) => AckPost(s)
  }

  /** The adapters: x's oldest send goes into y's oldest posted slot. */
  predicate CanDeliver(x: Side, y: Side) {
    x.sq != [] && !x.sq[0].ReadRemote? && y.rq != [] && y.rq[0] < |y.slots|
  }

  function Content(x: Side): Meta
    requires x.sq != [] && !x.sq[0].ReadRemote?
  {
    match x.sq[0]
    case SendMeta(meta) => meta
    case SendSlot(slot) => SlotMeta(x, slot)
  }

  function Delivered(x: Side, y: Side): (r: (Side, Side))
    requires CanDeliver(x, y)
  {
    var slot := y.rq[0];
    (x.(sq := x.sq[1..], done := x.done + [SendDone]),
     Completed(y.(slots := y.slots[slot := Content(x)], rq := y.rq[1..]), RecvDone(slot)))
  }

  predicate CanRead(x: Side) {
    x.sq != [] && x.sq[0].ReadRemote?
  }

  /** The bytes a remote read finds, if the address still names a registered copy of that size. */
  function Fetched(y: Side, desc: Desc): Option<seq<int>> {
    if desc.addr in y.copies && desc.len <= |y.copies[desc.addr]| then Some(y.copies[desc.addr][..desc.len]) else None
  }

  function DoRead(x: Side, y: Side): Side
    requires CanRead(x)
  {
    x.(sq := x.sq[1..], done := x.done + [ReadDone], readBuf := Fetched(y, x.sq[0].desc))
  }

  function Report(x: Side): Side
    requires x.done != []
  {
    Completed(x.(done := x.done[1..]), x.done[0])
  }

  // ---------------------------------------------------------------- runs

  datatype Pair = Pair(a: Side, b: Side)

  datatype End = A | B

  function Mine(p: Pair, e: End): Side { if e == A then p.a else p.b }

  function Peer(p: Pair, e: End): Side { if e == A then p.b else p.a }

  function With(p: Pair, e: End, mine: Side, peer: Side): Pair {
    if e == A then Pair(mine, peer) else Pair(peer, mine)
  }

  datatype Move = Thread(end: End, act: Act) | Deliver(end: End) | Read(end: End) | Finish(end: End)

  predicate Can(p: Pair, m: Move) {
    match m
    case Thread(e, act) => ThreadCan(Mine(p, e), act)
    case Deliver(e) => CanDeliver(Mine(p, e), Peer(p, e))
    case Read(e) => CanRead(Mine(p, e))
    case Finish(e) => Mine(p, e).done != []
  }

  function Next(p: Pair, m: Move): Pair
    requires Can(p, m)
  {
    var x, y := Mine(p, m.end), Peer(p, m.end);
    match m
    case Thread(e, act) => With(p, e, ThreadStep(x, act), y)
    case Deliver(e) => With(p, e, Delivered(x, y).0, Delivered(x, y).1)
    case Read(e) => With(p, e, DoRead(x, y), y)
    case Finish(e) => With(p, e, Report(x), y)
  }

  ghost predicate Runs(p: Pair, moves: seq<Move>, fin: Pair)
    decreases |moves|
  {
    if moves == [] then p == fin else Can(p, moves[0]) && Runs(Next(p, moves[0]), moves[1..], fin)
  }

  /** Every state that two fresh sockets can come to. */
  ghost predicate Reachable(p: Pair) {
    exists moves :: Runs(Pair(Fresh(), Fresh()), moves, p)
  }
}
