/** What is true of each socket on its own, and how its part of the two flows changes. */
module Sockets {
  import opened Sequences
  import opened Wrappers
  import opened Transport
  import opened Flow

  // ---------------------------------------------------------------- views

  /** Slots whose receive completion has not been handled, in order of arrival. */
  function Held(s: Side): seq<nat> {
    s.wrQueue + SlotsIn(s.cq)
  }

  function Picked(m: Meta, typ: MetaType): seq<Desc> {
    if m.typ == typ then [m.desc] else []
  }

  function Pick(slots: seq<Meta>, held: seq<nat>, typ: MetaType): seq<Desc> {
    if held == [] then []
    else Pick(slots, held[..|held| - 1], typ) + Picked(MetaAt(slots, held[|held| - 1]), typ)
  }

  function OutOf(s: Side): seq<Desc> {
    if s.sq != [] && s.sq[0].SendMeta? && s.sq[0].meta.typ == Normal then [s.sq[0].meta.desc] else []
  }

  /** The slot of the message in hand. */
  function SlotInHand(pc: Pc): seq<nat> {
    match pc
    case Acking(slot, _, _) => [slot]
    case Poll(_, _, ForRead(slot, _)) => [slot]
    case Poll(_, _, ForAck(slot, _, _)) => [slot]
    case _ => []
  }

  function CurrentOf(s: Side): Option<Current> {
    match s.pc
    case Acking(slot, msg, _) => Some(Current(SlotMeta(s, slot).desc, false, Some(msg)))
    case Poll(_, _, ForRead(slot, _)) =>
      var desc := SlotMeta(s, slot).desc;
      Some(Current(desc, false, if s.sq == [] then Some(Message(s.readBuf.GetOr([]), desc.flag)) else None))
    case Poll(_, _, ForAck(slot, msg, _)) => Some(Current(SlotMeta(s, slot).desc, s.sq == [], Some(msg)))
    case _ => None
  }

  function SendSide(s: Side): SendPart {
    SendPart(s.sent, s.posted, s.ackCounter, Pick(s.slots, Held(s), Ack), OutOf(s))
  }

  function RecvSide(s: Side): RecvPart {
    RecvPart(Pick(s.slots, Held(s), Normal), CurrentOf(s), s.returned + s.recvQueue)
  }

  // ---------------------------------------------------------------- the invariant of one socket

  ghost function AllSlots(): multiset<nat> {
    multiset(Numbers(MDBUFFERSIZE))
  }

  /** Each of the 50 slots is in exactly one place. */
  ghost predicate SlotsOk(slots: seq<Meta>, held: seq<nat>, rq: seq<nat>, hand: seq<nat>) {
    |slots| == MDBUFFERSIZE && multiset(held) + multiset(rq) + multiset(hand) == AllSlots()
  }

  /** A slot that waits to be handled holds a descriptor, and nothing comes behind a CLOSE. */
  ghost predicate HeldOk(slots: seq<Meta>, held: seq<nat>) {
    && (forall i | i in held :: MetaAt(slots, i).typ != Unset)
    && (forall k | 0 <= k < |held| && MetaAt(slots, held[k]).typ == Close :: k == |held| - 1)
  }

  /** The sends and reads of this socket that its thread has not seen complete. */
  function Expected(pc: Pc, closePosted: bool): nat {
    match pc
    case Poll(_, saw, why) => if !saw && (why.ForSend? || why.ForRead? || why.ForAck?) then 1 else 0
    case Closed => if closePosted then 1 else 0
    case _ => 0
  }

  ghost predicate TokensOk(sq: seq<Wqe>, done: seq<Cqe>, tokens: nat, expected: nat) {
    |sq| + |done| + tokens == expected && forall e | e in done :: !e.RecvDone?
  }

  ghost predicate SqOk(sq: seq<Wqe>, pc: Pc, slots: seq<Meta>, posted: seq<Desc>) {
    sq != [] ==>
      match pc
      case Poll(_, _, ForSend) => posted != [] && sq == [SendMeta(Meta(Normal, posted[|posted| - 1]))]
      case Poll(_, _, ForRead(slot, _)) => sq == [ReadRemote(MetaAt(slots, slot).desc)]
      case Poll(_, _, ForAck(slot, _, _)) => sq == [SendSlot(slot)] && MetaAt(slots, slot).typ == Ack
      case Closed => sq == [SendMeta(Meta(Close, Desc(0, 0, 0)))]
      case _ => false
  }

  function InSending(pc: Pc): nat {
    if pc.Poll? && pc.why.ForSend? then 1 else 0
  }

  ghost predicate CountersOk(posted: seq<Desc>, sent: seq<Message>, acked: nat, credits: int, counter: nat,
                             sending: nat) {
    && |posted| == |sent| && acked <= |posted|
    && credits == MDBUFFERSIZE - (|posted| - acked)
    && counter + sending == |posted|
  }

  /** The descriptor that send_ has prepared but not posted. */
  function Prepared(pc: Pc): Option<(Desc, Message)> {
    match pc
    case Posting(desc, msg) => Some((desc, msg))
    case Poll(_, _, ForCredit(desc, msg)) => Some((desc, msg))
    case _ => None
  }

  ghost predicate Outstanding(posted: seq<Desc>, acked: nat, k: nat) {
    acked <= k < |posted| && posted[k].len != 0
  }

  /** The live copies are those of the unacknowledged messages, and that of the one being sent. */
  ghost predicate CopiesOk(posted: seq<Desc>, sent: seq<Message>, acked: nat, copies: map<nat, seq<int>>,
                           prepared: Option<(Desc, Message)>)
  {
    && AllFit(posted, sent)
    && (forall k: nat | Outstanding(posted, acked, k) ::
          posted[k].addr in copies && copies[posted[k].addr] == sent[k].data)
    && (forall j: nat, k: nat | Outstanding(posted, acked, j) && Outstanding(posted, acked, k) && j != k ::
          posted[j].addr != posted[k].addr)
    && (prepared.Some? ==> PreparedOk(posted, acked, copies, prepared.value.0, prepared.value.1))
    && (forall a | a in copies :: Needed(posted, acked, prepared, a))
  }

  ghost predicate PreparedOk(posted: seq<Desc>, acked: nat, copies: map<nat, seq<int>>, desc: Desc, msg: Message) {
    && DescFits(desc, msg)
    && (desc.len != 0 ==> desc.addr in copies && copies[desc.addr] == msg.data)
    && (desc.len != 0 ==> forall k: nat | Outstanding(posted, acked, k) :: posted[k].addr != desc.addr)
  }

  ghost predicate Needed(posted: seq<Desc>, acked: nat, prepared: Option<(Desc, Message)>, a: nat) {
    || (exists k: nat :: Outstanding(posted, acked, k) && posted[k].addr == a)
    || (prepared.Some? && prepared.value.0.len != 0 && prepared.value.0.addr == a)
  }

  ghost predicate PcOk(s: Side) {
    && (s.pc.Poll? && s.pc.saw ==> s.pc.stage == Rearm)
    && (s.pc.Idle? ==> s.wrQueue == [])
    && (s.closePosted ==> s.pc.Closed? && s.ackCounter == |s.posted|)
    && (s.closeLock ==> s.closeFlag && s.recvQueue == [] && !s.closePosted && (s.pc.Idle? || s.pc.Closed?))
  }

  ghost predicate OkSide(s: Side) {
    && SlotsOk(s.slots, Held(s), s.rq, SlotInHand(s.pc))
    && HeldOk(s.slots, Held(s))
    && TokensOk(s.sq, s.done, Tokens(s.cq), Expected(s.pc, s.closePosted))
    && SqOk(s.sq, s.pc, s.slots, s.posted)
    && CountersOk(s.posted, s.sent, s.ackCounter, s.peerBuffCount, s.metadataCounter, InSending(s.pc))
    && CopiesOk(s.posted, s.sent, s.ackCounter, s.copies, Prepared(s.pc))
    && PcOk(s)
  }

  // ---------------------------------------------------------------- laws of the views

  lemma {:induction false} PickFrame(slots: seq<Meta>, slots': seq<Meta>, held: seq<nat>, typ: MetaType)
    requires forall i | i in held :: MetaAt(slots, i) == MetaAt(slots', i)
    ensures Pick(slots, held, typ) == Pick(slots', held, typ)
  {
    if held != [] {
      PickFrame(slots, slots', held[..|held| - 1], typ);
    }
  }

  lemma PickLast(slots: seq<Meta>, held: seq<nat>, i: nat, typ: MetaType)
    ensures Pick(slots, held + [i], typ) == Pick(slots, held, typ) + Picked(MetaAt(slots, i), typ)
  {
    assert (held + [i])[..|held|] == held;
  }

  lemma PickOne(slots: seq<Meta>, i: nat, typ: MetaType)
    ensures Pick(slots, [i], typ) == Picked(MetaAt(slots, i), typ)
  {
    assert [i][..0] == [];
  }

  lemma {:induction false} PickFirst(slots: seq<Meta>, i: nat, held: seq<nat>, typ: MetaType)
    ensures Pick(slots, [i] + held, typ) == Picked(MetaAt(slots, i), typ) + Pick(slots, held, typ)
    decreases |held|
  {
    if held == [] {
      PickOne(slots, i, typ);
      Empty([i]);
      Empty(Picked(MetaAt(slots, i), typ));
      assert Pick(slots, held, typ) == [];
    } else {
      hide *;
      var init, last := LastOf(held);
      PickFirst(slots, i, init, typ);
      PickLast(slots, [i] + init, last, typ);
      PickLast(slots, init, last, typ);
      Associative([i], init, [last]);
      Associative(Picked(MetaAt(slots, i), typ), Pick(slots, init, typ), Picked(MetaAt(slots, last), typ));
    }
  }

  lemma {:induction false} NumbersOnce(n: nat, i: nat)
    ensures multiset(Numbers(n))[i] == if i < n then 1 else 0
  {
    if n > 0 {
      NumbersOnce(n - 1, i);
      assert Numbers(n) == Numbers(n - 1) + [n - 1];
    }
  }

  /** Two parts of a whole in which everything occurs once have nothing in common. */
  lemma SlotOnce(held: seq<nat>, rq: seq<nat>, hand: seq<nat>, i: nat)
    requires multiset(held) + multiset(rq) + multiset(hand) == AllSlots()
    ensures multiset(held)[i] + multiset(rq)[i] + multiset(hand)[i] == if i < MDBUFFERSIZE then 1 else 0
    ensures i in rq ==> i < MDBUFFERSIZE && i !in held && i !in hand
    ensures i in hand ==> i < MDBUFFERSIZE && i !in held && i !in rq
    ensures i in held ==> i < MDBUFFERSIZE && i !in rq && i !in hand
  {
    NumbersOnce(MDBUFFERSIZE, i);
  }

}
