/**
  One rank's view of its sockets.  `log` records the sends and receives it has done; `feed` is
  what its coming recv_ calls return, None standing for a NULL message.
 */
module Endpoints {
  import opened Wrappers
  import opened Network
  import opened Buffers

  datatype Action = Sent(dst: nat, data: Message) | Received(src: nat, data: Message)

  /** The element sizes in bytes: double, int, long int, byte. */
  const TYPE_STATIC: seq<nat> := [8, 4, 8, 1]

  const R_TYPE_BYTE: nat := 3

  function ByteCount(count: int, typ: nat): (bytes: int)
    requires typ < 4
    ensures typ == 0 || typ == 2 ==> bytes == 8 * count
    ensures typ == 1 ==> bytes == 4 * count
    ensures typ == 3 ==> bytes == count
  {
    count * TYPE_STATIC[typ]
  }

  class Endpoint {
    const rank: nat
    const size: nat
    var log: seq<Action>
    var feed: seq<Option<Message>>

    constructor (rank: nat, size: nat, feed: seq<Option<Message>>)
      requires rank < size
      ensures this.rank == rank && this.size == size && this.feed == feed && log == []
    {
      this.rank, this.size, this.feed, this.log := rank, size, feed, [];
    }

    method Send(dst: nat, data: Message)
      modifies this
      ensures log == old(log) + [Sent(dst, data)] && feed == old(feed)
    {
      log := log + [Sent(dst, data)];
    }

    method Recv(src: nat) returns (msg: Option<Message>)
      requires feed != []
      modifies this
      ensures msg == old(feed)[0] && feed == old(feed)[1..]
      ensures log == if msg.Some? then old(log) + [Received(src, msg.value)] else old(log)
    {
      msg, feed := feed[0], feed[1..];
      if msg.Some? {
        log := log + [Received(src, msg.value)];
      }
    }
  }

  ghost function ReceivedIn(log: seq<Action>): (got: History)
  {
    if log == [] then []
    else
      var a := log[|log| - 1];
      ReceivedIn(log[..|log| - 1]) + if a.Received? then [a.data] else []
  }

  /** The action is what a rank with history h does when it takes the step. */
  ghost predicate Follows(op: Op, h: History, a: Action) {
    match op
    case Send(d, payload) => a == Sent(d, payload(h))
    case Recv(s, _, _) => a.Received? && a.src == s
  }

  /** The step takes in a message of a length it does not accept. */
  ghost predicate Refuses(op: Op, h: History, a: Action) {
    op.Recv? && a.Received? && !Suits(op.want(h), a.data)
  }

  /** The actions are the first steps of a run of program p by a rank that starts with history h, none
      of which has refused its message. */
  ghost predicate Performing(p: Program, h: History, log: seq<Action>) {
    && |log| <= |p|
    && forall k | 0 <= k < |log| ::
         && Follows(p[k], h + ReceivedIn(log[..k]), log[k])
         && !Refuses(p[k], h + ReceivedIn(log[..k]), log[k])
  }

  /** The last action refuses its message and leaves out the rest of the program. */
  ghost predicate EndsInRefusal(p: Program, h: History, log: seq<Action>) {
    && 0 < |log| <= |p| && Performing(p, h, log[..|log| - 1])
    && var op, x, a := p[|log| - 1], h + ReceivedIn(log[..|log| - 1]), log[|log| - 1];
    Follows(op, x, a) && Refuses(op, x, a) && op.rest == |p| - |log|
  }

  /** The actions are exactly a run of program p: all its steps, or those up to the first receive that
      refuses its message. */
  ghost predicate Performs(p: Program, h: History, log: seq<Action>) {
    (Performing(p, h, log) && |log| == |p|) || EndsInRefusal(p, h, log)
  }

  lemma ReceivedInStep(log: seq<Action>, a: Action)
    ensures ReceivedIn(log + [a]) == ReceivedIn(log) + if a.Received? then [a.data] else []
  {
    assert (log + [a])[..|log|] == log;
  }

  lemma PerformingStarts(p: Program, h: History)
    ensures Performing(p, h, []) && ReceivedIn([]) == []
  {
  }

  lemma PerformingStep(p: Program, h: History, log: seq<Action>, a: Action)
    requires Performing(p, h, log) && |log| < |p|
    requires Follows(p[|log|], h + ReceivedIn(log), a) && !Refuses(p[|log|], h + ReceivedIn(log), a)
    ensures Performing(p, h, log + [a])
    ensures ReceivedIn(log + [a]) == ReceivedIn(log) + if a.Received? then [a.data] else []
  {
    ReceivedInStep(log, a);
    hide Follows, Refuses, ReceivedIn;
    assert (log + [a])[..|log|] == log;
    forall k | 0 <= k < |log| ensures (log + [a])[..k] == log[..k] && (log + [a])[k] == log[k] {
    }
  }

  lemma WholeRun(p: Program, h: History, log: seq<Action>)
    requires Performing(p, h, log) && |log| == |p|
    ensures Performs(p, h, log)
  {
    hide Performing, EndsInRefusal;
  }

  lemma RefusalEnds(p: Program, h: History, log: seq<Action>, a: Action)
    requires Performing(p, h, log) && |log| < |p|
    requires Follows(p[|log|], h + ReceivedIn(log), a) && Refuses(p[|log|], h + ReceivedIn(log), a)
    requires p[|log|].rest == |p| - |log| - 1
    ensures Performs(p, h, log + [a]) && ReceivedIn(log + [a]) == ReceivedIn(log) + [a.data]
  {
    ReceivedInStep(log, a);
    hide Follows, ReceivedIn, Performing;
    assert (log + [a])[..|log|] == log;
  }

  /** One call of a collective at one rank: the actions and the receive buffer before, the actions and
      the buffer after, and the result code. */
  datatype Run = Run(log: seq<Action>, buf: seq<int>, log': seq<Action>, buf': seq<int>, status: int)

  // ---------------------------------------------------------------- what arrives

  /** The length each receive insists on, in the order of the receives; [] if none is checked. */
  type Wanted = seq<int>

  predicate Fine(want: Wanted, k: nat, msg: Message) {
    k < |want| ==> |msg| == want[k]
  }

  /** Starting at the j-th of `total` receives, the number that come before one that fails. */
  ghost function Accepted(feed: seq<Option<Message>>, want: Wanted, j: nat, total: nat): (m: nat)
    requires j <= total <= |feed|
    ensures j <= m <= total
    ensures forall k: nat | j <= k < m :: feed[k].Some? && Fine(want, k, feed[k].value)
    ensures m < total ==> feed[m].None? || !Fine(want, m, feed[m].value)
    decreases total - j
  {
    if j == total || feed[j].None? || !Fine(want, j, feed[j].value) then j
    else Accepted(feed, want, j + 1, total)
  }

  lemma {:induction false} AcceptedIs(feed: seq<Option<Message>>, want: Wanted, j: nat, m: nat, total: nat)
    requires j <= m <= total <= |feed|
    requires forall k: nat | j <= k < m :: feed[k].Some? && Fine(want, k, feed[k].value)
    requires m < total ==> feed[m].None? || !Fine(want, m, feed[m].value)
    ensures Accepted(feed, want, j, total) == m
    decreases m - j
  {
    if j < m {
      AcceptedIs(feed, want, j + 1, m, total);
    }
  }

  ghost function Taken(feed: seq<Option<Message>>, m: nat): (got: seq<Message>)
    requires m <= |feed| && forall k: nat | k < m :: feed[k].Some?
    ensures |got| == m && forall k: nat | k < m :: got[k] == feed[k].value
  {
    seq(m, k requires 0 <= k < m => feed[k].value)
  }

  /** The first `len` cells of a message, if a length is given and the message has as many. */
  function Cut(len: Option<nat>, msg: Message): Message {
    if len.Some? && len.value <= |msg| then msg[..len.value] else msg
  }

  /** recv_, the checks on what it returns, and memcpy of the message to `offset`. */
  method Receive(ep: Endpoint, src: nat, want: Option<int>, cut: Option<nat>, recvbuf: array<int>, offset: nat)
    returns (status: int)
    requires ep.feed != []
    requires ep.feed[0].Some? && (want.Some? ==> |ep.feed[0].value| == want.value) ==>
      offset + |Cut(cut, ep.feed[0].value)| <= recvbuf.Length
    modifies ep, recvbuf
    ensures ep.feed == old(ep.feed)[1..]
    ensures match old(ep.feed)[0]
      case None => status == 4 && ep.log == old(ep.log) && recvbuf[..] == old(recvbuf[..])
      case Some(msg) =>
        && ep.log == old(ep.log) + [Received(src, msg)]
        && if want.Some? && |msg| != want.value
           then status == 5 && recvbuf[..] == old(recvbuf[..])
           else status == 0 && recvbuf[..] == Put(old(recvbuf[..]), Piece(offset, Cut(cut, msg)))
  {
    var msg := ep.Recv(src);
    if msg.None? { return 4; }
    if want.Some? && |msg.value| != want.value { return 5; }
    CopyInto(recvbuf, Piece(offset, Cut(cut, msg.value)));
    return 0;
  }
}
