/**
  The messages that flow one way through a connection, seen from far enough that slots, queues and
  completions are gone: where each descriptor is between its posting and its acknowledgement.
 */
module Flow {
  import opened Wrappers
  import opened Transport

  /** The message being handled at the receiver: its descriptor, whether the acknowledgement has
      arrived at the sender, and the message once it has been fetched. */
  datatype Current = Current(desc: Desc, acked: bool, msg: Option<Message>)

  /** What the sender has of a flow: everything sent, the number of acknowledgements handled, those
      that have arrived but are not handled yet, and the descriptor not delivered yet. */
  datatype SendPart = SendPart(sent: seq<Message>, posted: seq<Desc>, acked: nat, acks: seq<Desc>, out: seq<Desc>)

  /** What the receiver has of it: descriptors waiting, the one in hand, the messages received. */
  datatype RecvPart = RecvPart(normals: seq<Desc>, current: Option<Current>, received: seq<Message>)

  ghost predicate Stretch(part: seq<Desc>, whole: seq<Desc>, from: nat) {
    from + |part| <= |whole| && part == whole[from..from + |part|]
  }

  function InHand(r: RecvPart): nat {
    if r.current.Some? then 1 else 0
  }

  function InHandUnacked(r: RecvPart): nat {
    if r.current.Some? && !r.current.value.acked then 1 else 0
  }

  ghost predicate DescFits(d: Desc, msg: Message) {
    d.len == |msg.data| && d.flag == msg.flag && (d.addr == 0 <==> d.len == 0)
  }

  ghost predicate AllFit(posted: seq<Desc>, sent: seq<Message>) {
    |posted| == |sent| && forall k | 0 <= k < |posted| :: DescFits(posted[k], sent[k])
  }

  /** The descriptors between the last handled acknowledgement and the last posting are, in order:
      acknowledgements at the sender, the one in hand, those waiting, the one under way. */
  ghost predicate FlowOk(s: SendPart, r: RecvPart) {
    var h := |r.received|;
    && AllFit(s.posted, s.sent)
    && h <= |s.sent| && r.received == s.sent[..h]
    && Stretch(s.acks, s.posted, s.acked)
    && s.acked + |s.acks| + InHandUnacked(r) == h + InHand(r)
    && Stretch(r.normals, s.posted, h + InHand(r))
    && Stretch(s.out, s.posted, h + InHand(r) + |r.normals|)
    && h + InHand(r) + |r.normals| + |s.out| == |s.posted|
    && (r.current.Some? ==> r.current.value.desc == s.posted[h])
    && (r.current.Some? && r.current.value.msg.Some? ==> r.current.value.msg.value == s.sent[h])
  }

  // ---------------------------------------------------------------- what can happen to a flow

  lemma FlowPosts(s: SendPart, r: RecvPart, desc: Desc, msg: Message)
    requires FlowOk(s, r) && DescFits(desc, msg) && s.out == []
    ensures FlowOk(s.(sent := s.sent + [msg], posted := s.posted + [desc], out := [desc]), r)
  {
  }

  lemma StretchJoins(a: seq<Desc>, b: seq<Desc>, whole: seq<Desc>, from: nat)
    requires Stretch(a, whole, from) && Stretch(b, whole, from + |a|)
    ensures Stretch(a + b, whole, from)
  {
  }

  lemma FlowArrives(s: SendPart, r: RecvPart)
    requires FlowOk(s, r) && |s.out| == 1
    ensures FlowOk(s.(out := []), r.(normals := r.normals + s.out))
  {
    StretchJoins(r.normals, s.out, s.posted, |r.received| + InHand(r));
    assert Stretch([], s.posted, |s.posted|);
    hide Stretch, AllFit;
  }

  lemma StretchDrops(part: seq<Desc>, whole: seq<Desc>, from: nat)
    requires Stretch(part, whole, from) && part != []
    ensures from < |whole| && part[0] == whole[from] && Stretch(part[1..], whole, from + 1)
  {
  }

  lemma FlowStarts(s: SendPart, r: RecvPart)
    requires FlowOk(s, r) && r.normals != [] && r.current.None?
    ensures FlowOk(s, r.(normals := r.normals[1..], current := Some(Current(r.normals[0], false, None))))
    ensures r.normals[0].len == 0 ==>
      FlowOk(s, r.(normals := r.normals[1..],
                   current := Some(Current(r.normals[0], false, Some(Message([], r.normals[0].flag))))))
  {
    StretchDrops(r.normals, s.posted, |r.received|);
    assert DescFits(s.posted[|r.received|], s.sent[|r.received|]);
    hide Stretch, DescFits;
  }

  /** The message being read is one whose copy the sender must still keep. */
  lemma FlowReads(s: SendPart, r: RecvPart)
    requires FlowOk(s, r) && r.current.Some? && !r.current.value.acked
    ensures s.acked <= |r.received| < |s.posted|
    ensures s.posted[|r.received|] == r.current.value.desc
    ensures FlowOk(s, r.(current := Some(r.current.value.(msg := Some(s.sent[|r.received|])))))
  {
  }

  lemma FlowAcks(s: SendPart, r: RecvPart)
    requires FlowOk(s, r) && r.current.Some? && !r.current.value.acked
    ensures FlowOk(s.(acks := s.acks + [r.current.value.desc]), r.(current := Some(r.current.value.(acked := true))))
  {
  }

  lemma FlowEnds(s: SendPart, r: RecvPart)
    requires FlowOk(s, r) && r.current.Some? && r.current.value.acked && r.current.value.msg.Some?
    ensures FlowOk(s, r.(current := None, received := r.received + [r.current.value.msg.value]))
  {
  }

  lemma FlowFrees(s: SendPart, r: RecvPart)
    requires FlowOk(s, r) && s.acks != []
    ensures s.acked < |s.posted| && s.acks[0] == s.posted[s.acked]
    ensures FlowOk(s.(acked := s.acked + 1, acks := s.acks[1..]), r)
  {
  }
}
