/** The staggered-ring collectives: Allgather_exp, Allgatherv_exp and Alltoall. */
module MpiRing {
  import opened Wrappers
  import opened Network
  import opened Offsets
  import opened Buffers
  import opened Endpoints
  import opened Collectives

  /** A ring collective at rank r: `blk[d]` is what it sends to d and `own` what it keeps; what it
      takes from s goes to offset `displ[s]`, cut down to `cut` cells if that is given.  The k-th
      message must have length `want[k]` where lengths are checked. */
  datatype RingCall = RingCall(n: nat, r: nat, blk: seq<Message>, own: seq<int>,
                               displ: seq<nat>, cut: Option<nat>, want: seq<int>)

  ghost predicate Well(c: RingCall) {
    c.n >= 2 && c.r < c.n && |c.blk| == |c.displ| == c.n
  }

  ghost function Trim(c: RingCall, msg: Message): Message {
    Cut(c.cut, msg)
  }

  // ---------------------------------------------------------------- actions

  ghost function RingAction(c: RingCall, got: seq<Message>, k: nat): Action
    requires Well(c) && k < 2 * c.n - 2
    requires k > 0 && k % 2 == 0 ==> k / 2 <= |got|
    requires k == 2 * c.n - 3 ==> c.n - 1 <= |got|
  {
    if k == 0 then Sent(Right(c.n, c.r, 1), c.blk[Right(c.n, c.r, 1)])
    else if k == 2 * c.n - 3 then Received(Left(c.n, c.r, c.n - 1), got[c.n - 2])
    else if k % 2 == 1 then Sent(Right(c.n, c.r, (k + 3) / 2), c.blk[Right(c.n, c.r, (k + 3) / 2)])
    else Received(Left(c.n, c.r, k / 2), got[k / 2 - 1])
  }

  /** The first `len` actions on the ring, when the messages taken in are `got`. */
  ghost function RingLog(c: RingCall, got: seq<Message>, len: nat): (log: seq<Action>)
    requires Well(c) && len <= 2 * |got| + 2 && len <= 2 * c.n - 2
    requires len == 2 * c.n - 2 ==> |got| == c.n - 1
    ensures |log| == len
  {
    seq(len, k requires 0 <= k < len => RingAction(c, got, k))
  }

  /** How many actions come before the receive that follows `m` accepted messages. */
  ghost function RingLength(n: nat, m: nat): (len: nat)
    requires n >= 2 && m <= n - 1
  {
    if m == n - 1 then 2 * n - 2 else RingRecvIndex(n, m + 1)
  }

  lemma LogRound(c: RingCall, got: seq<Message>, msg: Message)
    requires Well(c) && |got| + 2 < c.n
    ensures var i := |got| + 2;
            && RingLog(c, got, 2 * i - 3) + [Sent(Right(c.n, c.r, i), c.blk[Right(c.n, c.r, i)])]
               == RingLog(c, got, 2 * i - 2)
            && RingLog(c, got, 2 * i - 2) + [Received(Left(c.n, c.r, i - 1), msg)]
               == RingLog(c, got + [msg], 2 * i - 1)
  {
  }

  lemma LogLast(c: RingCall, got: seq<Message>, msg: Message)
    requires Well(c) && |got| == c.n - 2
    ensures RingLog(c, got, 2 * c.n - 3) + [Received(Left(c.n, c.r, c.n - 1), msg)]
            == RingLog(c, got + [msg], 2 * c.n - 2)
  {
  }

  // ---------------------------------------------------------------- effect on the buffer

  ghost function RingPieces(c: RingCall, got: seq<Message>): (ps: seq<Piece>)
    requires Well(c) && |got| < c.n
    ensures |ps| == |got| + 1 && ps[0] == Piece(c.displ[c.r], c.own)
    ensures forall j: nat | j < |got| :: ps[j + 1] == Piece(c.displ[Left(c.n, c.r, j + 1)], Trim(c, got[j]))
  {
    [Piece(c.displ[c.r], c.own)] +
    seq(|got|, j requires 0 <= j < |got| => Piece(c.displ[Left(c.n, c.r, j + 1)], Trim(c, got[j])))
  }

  /** There is room for every message the call accepts. */
  ghost predicate Room(c: RingCall, feed: seq<Option<Message>>, length: nat)
    requires Well(c)
  {
    && c.n - 1 <= |feed|
    && c.displ[c.r] + |c.own| <= length
    && forall j: nat | j < c.n - 1 && feed[j].Some? && Fine(c.want, j, feed[j].value) ::
         c.displ[Left(c.n, c.r, j + 1)] + |Trim(c, feed[j].value)| <= length
  }

  /** What the call does: its result code, its actions and the new receive buffer. */
  ghost predicate RingEffect(c: RingCall, feed: seq<Option<Message>>, log: seq<Action>, buf: seq<int>,
                             log': seq<Action>, buf': seq<int>, status: int)
    requires Well(c) && Room(c, feed, |buf|)
  {
    var m := Accepted(feed, c.want, 0, c.n - 1);
    var got := Taken(feed, m);
    && status == (if m == c.n - 1 then 0 else if feed[m].None? then 4 else 5)
    && log' == log + RingLog(c, got, RingLength(c.n, m)) +
               (if status == 5 then [Received(Left(c.n, c.r, m + 1), feed[m].value)] else [])
    && AllFit(buf, RingPieces(c, got))
    && buf' == PutAll(buf, RingPieces(c, got))
  }

  /** The code has run at one rank, and `feed` is what its recv_ calls were to return. */
  ghost predicate RanRing(c: RingCall, feed: seq<Option<Message>>, run: Run) {
    && Well(c) && Room(c, feed, |run.buf|)
    && RingEffect(c, feed, run.log, run.buf, run.log', run.buf', run.status)
  }

  /** The same in the middle of the call, after `m` messages. */
  ghost predicate RingMid(c: RingCall, feed: seq<Option<Message>>, log: seq<Action>, buf: seq<int>, m: nat,
                          feed': seq<Option<Message>>, log': seq<Action>, buf': seq<int>)
    requires Well(c) && Room(c, feed, |buf|)
  {
    && m <= c.n - 2
    && (forall k: nat | k < m :: feed[k].Some? && Fine(c.want, k, feed[k].value))
    && feed' == feed[m..]
    && log' == log + RingLog(c, Taken(feed, m), 2 * m + 1)
    && AllFit(buf, RingPieces(c, Taken(feed, m)))
    && buf' == PutAll(buf, RingPieces(c, Taken(feed, m)))
  }

  lemma TakenStep(feed: seq<Option<Message>>, m: nat)
    requires m < |feed| && forall k: nat | k <= m :: feed[k].Some?
    ensures Taken(feed, m) + [feed[m].value] == Taken(feed, m + 1)
  {
  }

  lemma PiecesStep(c: RingCall, got: seq<Message>, msg: Message)
    requires Well(c) && |got| < c.n - 1
    ensures RingPieces(c, got) + [Piece(c.displ[Left(c.n, c.r, |got| + 1)], Trim(c, msg))]
            == RingPieces(c, got + [msg])
  {
  }

  lemma MidStart(c: RingCall, feed: seq<Option<Message>>, log: seq<Action>, buf: seq<int>)
    requires Well(c) && Room(c, feed, |buf|)
    ensures Fits(buf, Piece(c.displ[c.r], c.own))
    ensures RingMid(c, feed, log, buf, 0, feed, log + [Sent(Right(c.n, c.r, 1), c.blk[Right(c.n, c.r, 1)])],
                    Put(buf, Piece(c.displ[c.r], c.own)))
  {
    assert Taken(feed, 0) == [];
    assert RingLog(c, [], 1) == [Sent(Right(c.n, c.r, 1), c.blk[Right(c.n, c.r, 1)])];
    PutAllOne(buf, [], Piece(c.displ[c.r], c.own));
    assert [] + [Piece(c.displ[c.r], c.own)] == RingPieces(c, []);
  }

  /** One more message taken in. */
  lemma MidPut(c: RingCall, feed: seq<Option<Message>>, buf: seq<int>, m: nat)
    requires Well(c) && Room(c, feed, |buf|) && m < c.n - 1
    requires forall k: nat | k <= m :: feed[k].Some? && Fine(c.want, k, feed[k].value)
    requires AllFit(buf, RingPieces(c, Taken(feed, m)))
    ensures var p := Piece(c.displ[Left(c.n, c.r, m + 1)], Trim(c, feed[m].value));
            && Fits(buf, p)
            && AllFit(buf, RingPieces(c, Taken(feed, m + 1)))
            && PutAll(buf, RingPieces(c, Taken(feed, m + 1))) == Put(PutAll(buf, RingPieces(c, Taken(feed, m))), p)
  {
    var p := Piece(c.displ[Left(c.n, c.r, m + 1)], Trim(c, feed[m].value));
    TakenStep(feed, m);
    PiecesStep(c, Taken(feed, m), feed[m].value);
    PutAllOne(buf, RingPieces(c, Taken(feed, m)), p);
  }

  /** The receive after `m` messages gives NULL or a message that is turned down. */
  lemma MidFail(c: RingCall, feed: seq<Option<Message>>, log: seq<Action>, buf: seq<int>, m: nat)
    requires Well(c) && Room(c, feed, |buf|) && m < c.n - 1
    requires forall k: nat | k < m :: feed[k].Some? && Fine(c.want, k, feed[k].value)
    requires feed[m].None? || !Fine(c.want, m, feed[m].value)
    requires AllFit(buf, RingPieces(c, Taken(feed, m)))
    ensures RingEffect(c, feed, log, buf,
                       log + RingLog(c, Taken(feed, m), RingLength(c.n, m)) +
                       (if feed[m].Some? then [Received(Left(c.n, c.r, m + 1), feed[m].value)] else []),
                       PutAll(buf, RingPieces(c, Taken(feed, m))), if feed[m].None? then 4 else 5)
  {
    hide RingLog, RingPieces, PutAll, Taken, Accepted, AllFit;
    AcceptedIs(feed, c.want, 0, m, c.n - 1);
  }

  lemma MidRound(c: RingCall, feed: seq<Option<Message>>, log: seq<Action>, buf: seq<int>, m: nat,
                 feed': seq<Option<Message>>, log': seq<Action>, buf': seq<int>)
    requires Well(c) && Room(c, feed, |buf|) && RingMid(c, feed, log, buf, m, feed', log', buf') && m + 2 < c.n
    ensures m < |feed| && feed' != [] && feed'[0] == feed[m] && |buf'| == |buf|
    ensures var log'' := log' + [Sent(Right(c.n, c.r, m + 2), c.blk[Right(c.n, c.r, m + 2)])];
      if feed'[0].None? then RingEffect(c, feed, log, buf, log'', buf', 4)
      else if !Fine(c.want, m, feed'[0].value) then
        RingEffect(c, feed, log, buf, log'' + [Received(Left(c.n, c.r, m + 1), feed'[0].value)], buf', 5)
      else
        var p := Piece(c.displ[Left(c.n, c.r, m + 1)], Trim(c, feed'[0].value));
        && Fits(buf', p)
        && RingMid(c, feed, log, buf, m + 1, feed'[1..],
                   log'' + [Received(Left(c.n, c.r, m + 1), feed'[0].value)], Put(buf', p))
  {
    hide RingLog, RingPieces, PutAll, Put, Taken, AllFit, RingEffect, Room;
    assert Room(c, feed, |buf|) && c.n - 1 <= |feed| by { RoomSize(c, feed, |buf|); }
    LogRound(c, Taken(feed, m), feed[m].GetOr([]));
    if feed[m].Some? && Fine(c.want, m, feed[m].value) {
      TakenStep(feed, m);
      MidPut(c, feed, buf, m);
      assert feed'[1..] == feed[m + 1..];
    } else {
      MidFail(c, feed, log, buf, m);
      var now := log + RingLog(c, Taken(feed, m), 2 * m + 2);
      assert now == log' + [Sent(Right(c.n, c.r, m + 2), c.blk[Right(c.n, c.r, m + 2)])];
      assert now + [] == now;
    }
  }

  lemma RoomSize(c: RingCall, feed: seq<Option<Message>>, length: nat)
    requires Well(c) && Room(c, feed, length)
    ensures c.n - 1 <= |feed|
  {
  }

  lemma MidEnd(c: RingCall, feed: seq<Option<Message>>, log: seq<Action>, buf: seq<int>)
    requires Well(c) && Room(c, feed, |buf|)
    requires forall k: nat | k < c.n - 1 :: feed[k].Some? && Fine(c.want, k, feed[k].value)
    requires AllFit(buf, RingPieces(c, Taken(feed, c.n - 1)))
    ensures RingEffect(c, feed, log, buf, log + RingLog(c, Taken(feed, c.n - 1), 2 * c.n - 2),
                       PutAll(buf, RingPieces(c, Taken(feed, c.n - 1))), 0)
  {
    hide RingLog, RingPieces, PutAll, Taken, Accepted, AllFit;
    AcceptedIs(feed, c.want, 0, c.n - 1, c.n - 1);
  }

  lemma MidLast(c: RingCall, feed: seq<Option<Message>>, log: seq<Action>, buf: seq<int>,
                feed': seq<Option<Message>>, log': seq<Action>, buf': seq<int>)
    requires Well(c) && Room(c, feed, |buf|) && RingMid(c, feed, log, buf, c.n - 2, feed', log', buf')
    ensures c.n - 2 < |feed| && feed' != [] && feed'[0] == feed[c.n - 2] && |buf'| == |buf|
    ensures feed'[1..] == feed[c.n - 1..]
    ensures
      if feed'[0].None? then RingEffect(c, feed, log, buf, log', buf', 4)
      else if !Fine(c.want, c.n - 2, feed'[0].value) then
        RingEffect(c, feed, log, buf, log' + [Received(Left(c.n, c.r, c.n - 1), feed'[0].value)], buf', 5)
      else
        var p := Piece(c.displ[Left(c.n, c.r, c.n - 1)], Trim(c, feed'[0].value));
        && Fits(buf', p)
        && RingEffect(c, feed, log, buf, log' + [Received(Left(c.n, c.r, c.n - 1), feed'[0].value)], Put(buf', p), 0)
  {
    var m := c.n - 2;
    hide RingLog, RingPieces, PutAll, Put, Taken, AllFit, RingEffect, Room;
    assert c.n - 1 <= |feed| by { RoomSize(c, feed, |buf|); }
    LogLast(c, Taken(feed, m), feed[m].GetOr([]));
    if feed[m].Some? && Fine(c.want, m, feed[m].value) {
      TakenStep(feed, m);
      MidPut(c, feed, buf, m);
      MidEnd(c, feed, log, buf);
      assert log + RingLog(c, Taken(feed, m + 1), 2 * c.n - 2)
          == log' + [Received(Left(c.n, c.r, c.n - 1), feed[m].value)];
    } else {
      MidFail(c, feed, log, buf, m);
      assert log' + [] == log';
    }
  }

  // ---------------------------------------------------------------- the shared shape of the code

  /** The length the k-th receive insists on. */
  ghost function WantedAt(c: RingCall, k: nat): Option<int> {
    if k < |c.want| then Some(c.want[k]) else None
  }

  /** The first send and the copy of the rank's own block. */
  method RingFirst(ep: Endpoint, sendMsg: Message, own: seq<int>, offset: nat, recvbuf: array<int>, ghost c: RingCall)
    requires Well(c) && Room(c, ep.feed, recvbuf.Length) && c.n == ep.size && c.r == ep.rank
    requires sendMsg == c.blk[Right(c.n, c.r, 1)] && own == c.own && offset == c.displ[c.r]
    modifies ep, recvbuf
    ensures RingMid(c, old(ep.feed), old(ep.log), old(recvbuf[..]), 0, ep.feed, ep.log, recvbuf[..])
  {
    MidStart(c, ep.feed, ep.log, recvbuf[..]);
    hide RingMid;
    ep.Send(OffsetRank(ep.rank, ep.size, 1, true), sendMsg);
    CopyInto(recvbuf, Piece(offset, own));
  }

  /** The same in the words of the code, with the two neighbours and the length insisted on. */
  lemma RoundByCode(c: RingCall, feed: seq<Option<Message>>, log: seq<Action>, buf: seq<int>, i: nat,
                    feed': seq<Option<Message>>, log': seq<Action>, buf': seq<int>, sendMsg: Message, offset: nat)
    requires Well(c) && Room(c, feed, |buf|) && 2 <= i < c.n && RingMid(c, feed, log, buf, i - 2, feed', log', buf')
    requires sendMsg == c.blk[Right(c.n, c.r, i)] && offset == c.displ[Left(c.n, c.r, i - 1)]
    ensures c.r < c.n && feed' != []
    ensures var right, left := OffsetRank(c.r, c.n, i, true), OffsetRank(c.r, c.n, i - 1, false);
      var want := WantedAt(c, i - 2);
      match feed'[0]
      case None => RingEffect(c, feed, log, buf, log' + [Sent(right, sendMsg)], buf', 4)
      case Some(msg) =>
        var log3 := log' + [Sent(right, sendMsg)] + [Received(left, msg)];
        if want.Some? && |msg| != want.value then RingEffect(c, feed, log, buf, log3, buf', 5)
        else
          && offset + |Cut(c.cut, msg)| <= |buf'|
          && RingMid(c, feed, log, buf, i - 1, feed'[1..], log3, Put(buf', Piece(offset, Cut(c.cut, msg))))
  {
    hide *;
    MidRound(c, feed, log, buf, i - 2, feed', log', buf');
    InCode(c, i, if feed'[0].Some? then feed'[0].value else [], buf');
  }

  lemma InCode(c: RingCall, i: nat, msg: Message, buf: seq<int>)
    requires Well(c) && 2 <= i < c.n
    ensures c.r < c.n && |c.displ| == |c.blk| == c.n
    ensures Right(c.n, c.r, i) == OffsetRank(c.r, c.n, i, true)
    ensures Left(c.n, c.r, i - 1) == OffsetRank(c.r, c.n, i - 1, false)
    ensures var want := WantedAt(c, i - 2); Fine(c.want, i - 2, msg) <==> (want.Some? ==> |msg| == want.value)
    ensures Trim(c, msg) == Cut(c.cut, msg)
    ensures forall p: Piece :: Fits(buf, p) ==> p.offset + |p.data| <= |buf|
  {
    hide OffsetRank, Cut;
  }

  /** The loop body: send to the rank i places to the right, receive from i - 1 places to the left. */
  method RingRound(ep: Endpoint, i: nat, sendMsg: Message, want: Option<int>, cut: Option<nat>,
                   recvbuf: array<int>, offset: nat, ghost c: RingCall, ghost feed: seq<Option<Message>>,
                   ghost log: seq<Action>, ghost buf: seq<int>)
    returns (status: int)
    requires Well(c) && Room(c, feed, |buf|) && 2 <= i < c.n && c.n == ep.size && c.r == ep.rank
    requires RingMid(c, feed, log, buf, i - 2, ep.feed, ep.log, recvbuf[..])
    requires sendMsg == c.blk[Right(c.n, c.r, i)] && offset == c.displ[Left(c.n, c.r, i - 1)]
    requires cut == c.cut && want == WantedAt(c, i - 2)
    modifies ep, recvbuf
    ensures status !in {1, 2}
    ensures status == 0 ==> RingMid(c, feed, log, buf, i - 1, ep.feed, ep.log, recvbuf[..])
    ensures status != 0 ==> RingEffect(c, feed, log, buf, ep.log, recvbuf[..], status)
  {
    hide *;
    RoundByCode(c, feed, log, buf, i, ep.feed, ep.log, recvbuf[..], sendMsg, offset);
    ep.Send(OffsetRank(ep.rank, ep.size, i, true), sendMsg);
    status := Receive(ep, OffsetRank(ep.rank, ep.size, i - 1, false), want, cut, recvbuf, offset);
  }

  /** The receive after the loop. */
  method RingLast(ep: Endpoint, want: Option<int>, cut: Option<nat>, recvbuf: array<int>, offset: nat,
                  ghost c: RingCall, ghost feed: seq<Option<Message>>, ghost log: seq<Action>, ghost buf: seq<int>)
    returns (status: int)
    requires Well(c) && Room(c, feed, |buf|) && c.n == ep.size && c.r == ep.rank
    requires RingMid(c, feed, log, buf, c.n - 2, ep.feed, ep.log, recvbuf[..])
    requires offset == c.displ[Left(c.n, c.r, c.n - 1)] && cut == c.cut && want == WantedAt(c, c.n - 2)
    modifies ep, recvbuf
    ensures RingEffect(c, feed, log, buf, ep.log, recvbuf[..], status) && status !in {1, 2}
    ensures c.n - 1 <= |feed| && (status == 0 ==> ep.feed == feed[c.n - 1..])
  {
    MidLast(c, feed, log, buf, ep.feed, ep.log, recvbuf[..]);
    hide RingMid, RingEffect, Room, Put;
    status := Receive(ep, OffsetRank(ep.rank, ep.size, ep.size - 1, false), want, cut, recvbuf, offset);
  }

  // ---------------------------------------------------------------- RDMA_Allgather_exp

  ghost predicate LongEnough(feed: seq<Option<Message>>, total: int, len: nat) {
    forall k: nat | k < total && k < |feed| && feed[k].Some? :: len <= |feed[k].value|
  }

  ghost function AllgatherCall(n: nat, r: nat, data: Message, rc: nat): RingCall {
    RingCall(n, r, Copies(n, data), data, BlockOffsets(n, rc), Some(|data|), [])
  }

  /** Room for a block at every rank's place; blocks longer than the distance between places overlap,
      and then the later one wins. */
  ghost predicate AllgatherFits(ep: Endpoint, sendbuf: array<int>, sc: nat, recvbuf: array<int>, rc: nat)
    reads ep
  {
    && |ep.feed| >= ep.size - 1
    && sendbuf != recvbuf
    && sc <= sendbuf.Length && ep.size > 0 && BlockAt(ep.size - 1, rc) + sc <= recvbuf.Length
    && LongEnough(ep.feed, ep.size - 1, sc)
  }

  lemma AllgatherRoom(n: nat, r: nat, data: Message, rc: nat, feed: seq<Option<Message>>, length: nat)
    requires n >= 2 && r < n && n - 1 <= |feed| && BlockAt(n - 1, rc) + |data| <= length
    requires LongEnough(feed, n - 1, |data|)
    ensures Well(AllgatherCall(n, r, data, rc)) && Room(AllgatherCall(n, r, data, rc), feed, length)
  {
    forall s: nat | s < n ensures BlockAt(s, rc) <= BlockAt(n - 1, rc) {
      BlocksRise(s, n - 1, rc);
    }
    hide BlockAt;
  }

  method AllgatherExp(ep: Endpoint, sendbuf: array?<int>, sendcount: int, sendtype: nat,
                      recvbuf: array?<int>, recvcount: int, recvtype: nat)
    returns (status: int)
    requires ep.rank < ep.size && ep.size >= 2 && sendtype < 4 && recvtype < 4
    requires sendbuf != null && recvbuf != null && sendcount > 0 && recvcount > 0 ==>
      AllgatherFits(ep, sendbuf, ByteCount(sendcount, sendtype), recvbuf, ByteCount(recvcount, recvtype))
    modifies ep, recvbuf
    ensures status == 1 <==> sendbuf == null || recvbuf == null
    ensures status == 2 <==> sendbuf != null && recvbuf != null && (sendcount <= 0 || recvcount <= 0)
    ensures status in {1, 2} ==> unchanged(ep) && (recvbuf != null ==> unchanged(recvbuf))
    ensures status !in {1, 2} ==>
      var data := sendbuf[..ByteCount(sendcount, sendtype)];
      var c := AllgatherCall(ep.size, ep.rank, data, ByteCount(recvcount, recvtype));
      && Well(c) && Room(c, old(ep.feed), recvbuf.Length)
      && RingEffect(c, old(ep.feed), old(ep.log), old(recvbuf[..]), ep.log, recvbuf[..], status)
    ensures status == 0 ==> ep.feed == old(ep.feed)[ep.size - 1..]
  {
    if sendbuf == null || recvbuf == null { return 1; }
    if sendcount <= 0 || recvcount <= 0 { return 2; }
    status := AllgatherExpBytes(ep, sendbuf, ByteCount(sendcount, sendtype), recvbuf, ByteCount(recvcount, recvtype));
  }

  /** The collective proper, with counts in bytes. */
  method AllgatherExpBytes(ep: Endpoint, sendbuf: array<int>, sc: nat, recvbuf: array<int>, rc: nat)
    returns (status: int)
    requires ep.rank < ep.size && ep.size >= 2 && AllgatherFits(ep, sendbuf, sc, recvbuf, rc)
    modifies ep, recvbuf
    ensures status !in {1, 2}
    ensures var c := AllgatherCall(ep.size, ep.rank, sendbuf[..sc], rc);
      && Well(c) && Room(c, old(ep.feed), recvbuf.Length)
      && RingEffect(c, old(ep.feed), old(ep.log), old(recvbuf[..]), ep.log, recvbuf[..], status)
    ensures status == 0 ==> ep.feed == old(ep.feed)[ep.size - 1..]
  {
    var n := ep.size;
    var sendMsg := sendbuf[..sc];
    ghost var feed, buf, log := ep.feed, recvbuf[..], ep.log;
    ghost var c := AllgatherCall(n, ep.rank, sendMsg, rc);
    AllgatherRoom(n, ep.rank, sendMsg, rc, feed, |buf|);
    hide RingEffect, RingMid, Room, BlockAt;

    RingFirst(ep, sendMsg, sendMsg, BlockAt(ep.rank, rc), recvbuf, c);
    var i := 2;
    while i < n
      invariant 2 <= i <= n
      invariant RingMid(c, feed, log, buf, i - 2, ep.feed, ep.log, recvbuf[..])
    {
      var recvRank := OffsetRank(ep.rank, n, i - 1, false);
      status := RingRound(ep, i, sendMsg, None, Some(sc), recvbuf, BlockAt(recvRank, rc), c, feed, log, buf);
      if status != 0 { return; }
      i := i + 1;
    }
    var lastRank := OffsetRank(ep.rank, n, n - 1, false);
    status := RingLast(ep, None, Some(sc), recvbuf, BlockAt(lastRank, rc), c, feed, log, buf);
  }

  // ---------------------------------------------------------------- RDMA_Allgatherv_exp

  ghost function AllgathervCall(n: nat, r: nat, data: Message, counts: seq<int>, displs: seq<nat>): RingCall
    requires r < n && |counts| == |displs| == n
  {
    RingCall(n, r, Copies(n, data), data, displs, None,
             seq(n - 1, k requires 0 <= k < n - 1 => counts[Left(n, r, k + 1)]))
  }

  function Naturals(s: seq<int>): (r: seq<nat>)
    requires forall k | 0 <= k < |s| :: s[k] >= 0
    ensures |r| == |s| && forall k | 0 <= k < |s| :: r[k] == s[k]
  {
    seq(|s|, k requires 0 <= k < |s| => s[k] as nat)
  }

  /** The caller's arrays, as Allgatherv_exp leaves them: multiplied by the element size. */
  ghost predicate Scaled(s: seq<int>, s': seq<int>, n: nat, typ: nat)
    requires typ < 4
  {
    && n <= |s| == |s'|
    && (forall k: nat | k < n :: s'[k] == ByteCount(s[k], typ))
    && (forall k: nat | n <= k < |s| :: s'[k] == s[k])
  }

  ghost predicate RangesFit(counts: seq<int>, displs: seq<int>, n: nat, typ: nat, own: nat, r: nat, length: nat)
    requires typ < 4
  {
    && n <= |counts| && n <= |displs| && r < n
    && (forall k: nat | k < n :: counts[k] >= 0 && displs[k] >= 0)
    && (forall k: nat | k < n :: ByteCount(displs[k], typ) + ByteCount(counts[k], typ) <= length)
    && ByteCount(displs[r], typ) + own <= length
  }

  method ScaleInPlace(a: array<int>, n: nat, typ: nat)
    requires n <= a.Length && typ < 4
    modifies a
    ensures Scaled(old(a[..]), a[..], n, typ)
  {
    for i := 0 to n
      invariant forall k: nat | k < i :: a[k] == ByteCount(old(a[k]), typ)
      invariant forall k: nat | i <= k < a.Length :: a[k] == old(a[k])
    {
      a[i] := ByteCount(a[i], typ);
    }
  }

  lemma NonNegative(count: int, typ: nat)
    requires typ < 4 && count >= 0
    ensures ByteCount(count, typ) >= 0
  {
  }

  method AllgathervExp(ep: Endpoint, sendbuf: array?<int>, sendcount: int, sendtype: nat,
                       recvbuf: array?<int>, recvcount: array?<int>, displs: array<int>, recvtype: nat)
    returns (status: int)
    requires ep.rank < ep.size && ep.size >= 2 && sendtype < 4 && recvtype < 4 && |ep.feed| >= ep.size - 1
    requires sendbuf != null && recvbuf != null && recvcount != null && sendcount > 0 ==>
      && sendbuf != recvbuf && recvcount !in {sendbuf, recvbuf, displs} && displs !in {sendbuf, recvbuf}
      && ByteCount(sendcount, sendtype) <= sendbuf.Length
      && RangesFit(recvcount[..], displs[..], ep.size, recvtype, ByteCount(sendcount, sendtype), ep.rank,
                   recvbuf.Length)
    modifies ep, recvbuf, recvcount, displs
    ensures status == 1 <==> sendbuf == null || recvbuf == null
    ensures status == 2 <==> sendbuf != null && recvbuf != null && (sendcount <= 0 || recvcount == null)
    ensures status in {1, 2} ==> unchanged(ep) && unchanged(displs)
    ensures status in {1, 2} && recvbuf != null ==> unchanged(recvbuf)
    ensures status in {1, 2} && recvcount != null ==> unchanged(recvcount)
    ensures status !in {1, 2} ==>
      && Scaled(old(recvcount[..]), recvcount[..], ep.size, recvtype)
      && Scaled(old(displs[..]), displs[..], ep.size, recvtype)
      && (forall k: nat | k < ep.size :: displs[k] >= 0)
      && var c := AllgathervCall(ep.size, ep.rank, sendbuf[..ByteCount(sendcount, sendtype)],
                                 recvcount[..ep.size], Naturals(displs[..ep.size]));
      && Well(c) && Room(c, old(ep.feed), recvbuf.Length)
      && RingEffect(c, old(ep.feed), old(ep.log), old(recvbuf[..]), ep.log, recvbuf[..], status)
    ensures status == 0 ==> ep.feed == old(ep.feed)[ep.size - 1..]
  {
    if sendbuf == null || recvbuf == null { return 1; }
    if sendcount <= 0 || recvcount == null { return 2; }
    ScaleInPlace(recvcount, ep.size, recvtype);
    ScaleInPlace(displs, ep.size, recvtype);
    assert forall k: nat | k < ep.size :: displs[k] >= 0 && recvcount[k] >= 0 by {
      forall k: nat | k < ep.size ensures displs[k] >= 0 && recvcount[k] >= 0 {
        NonNegative(old(displs[..])[k], recvtype);
        NonNegative(old(recvcount[..])[k], recvtype);
      }
    }
    status := AllgathervExpBytes(ep, sendbuf, ByteCount(sendcount, sendtype), recvbuf,
                                 recvcount[..ep.size], Naturals(displs[..ep.size]));
  }

  ghost predicate CountsFit(counts: seq<int>, displs: seq<nat>, n: nat, r: nat, own: nat, length: nat) {
    && |counts| == |displs| == n && r < n
    && (forall k: nat | k < n :: counts[k] >= 0 && displs[k] + counts[k] <= length)
    && displs[r] + own <= length
  }

  lemma AllgathervRoom(n: nat, r: nat, data: Message, counts: seq<int>, displs: seq<nat>,
                       feed: seq<Option<Message>>, length: nat)
    requires n >= 2 && n - 1 <= |feed| && CountsFit(counts, displs, n, r, |data|, length)
    ensures var c := AllgathervCall(n, r, data, counts, displs);
      && Well(c) && Room(c, feed, length) && c.n == n && c.r == r && c.own == data && c.displ == displs
      && (forall s: nat | s < n :: c.blk[s] == data)
      && (forall k: nat | k < n - 1 :: c.want[k] == counts[Left(n, r, k + 1)])
      && |c.want| == n - 1 && c.cut == None
  {
  }

  /** The collective proper, with counts and displacements in bytes. */
  method AllgathervExpBytes(ep: Endpoint, sendbuf: array<int>, sc: nat, recvbuf: array<int>,
                            recvcount: seq<int>, displs: seq<nat>)
    returns (status: int)
    requires ep.rank < ep.size && ep.size >= 2 && |ep.feed| >= ep.size - 1
    requires sendbuf != recvbuf && sc <= sendbuf.Length
    requires CountsFit(recvcount, displs, ep.size, ep.rank, sc, recvbuf.Length)
    modifies ep, recvbuf
    ensures status !in {1, 2}
    ensures var c := AllgathervCall(ep.size, ep.rank, sendbuf[..sc], recvcount, displs);
      && Well(c) && Room(c, old(ep.feed), recvbuf.Length)
      && RingEffect(c, old(ep.feed), old(ep.log), old(recvbuf[..]), ep.log, recvbuf[..], status)
    ensures status == 0 ==> ep.feed == old(ep.feed)[ep.size - 1..]
  {
    var n := ep.size;
    var sendMsg := sendbuf[..sc];
    ghost var feed, buf, log := ep.feed, recvbuf[..], ep.log;
    ghost var c := AllgathervCall(n, ep.rank, sendMsg, recvcount, displs);
    AllgathervRoom(n, ep.rank, sendMsg, recvcount, displs, feed, |buf|);
    assert |recvcount| == |displs| == n;
    hide RingEffect, RingMid, Room, CountsFit;

    RingFirst(ep, sendMsg, sendMsg, displs[ep.rank], recvbuf, c);
    var i := 2;
    while i < n
      invariant 2 <= i <= n
      invariant RingMid(c, feed, log, buf, i - 2, ep.feed, ep.log, recvbuf[..])
    {
      var recvRank := OffsetRank(ep.rank, n, i - 1, false);
      status := RingRound(ep, i, sendMsg, Some(recvcount[recvRank]), None, recvbuf, displs[recvRank], c, feed, log,
                          buf);
      if status != 0 { return; }
      i := i + 1;
    }
    var lastRank := OffsetRank(ep.rank, n, n - 1, false);
    status := RingLast(ep, Some(recvcount[lastRank]), None, recvbuf, displs[lastRank], c, feed, log, buf);
  }

  // ---------------------------------------------------------------- RDMA_Alltoall

  ghost function AlltoallCall(n: nat, r: nat, sbuf: seq<int>, sc: nat, rc: nat): RingCall
    requires r < n && HasBlocks(sbuf, n, sc)
  {
    RingCall(n, r, Blocks(sbuf, n, sc), Block(sbuf, r, sc),
             BlockOffsets(n, rc), Some(sc), [])
  }

  ghost predicate AlltoallFits(ep: Endpoint, sendbuf: array<int>, sc: nat, recvbuf: array<int>, rc: nat)
    reads ep, sendbuf
  {
    && |ep.feed| >= ep.size - 1
    && sendbuf != recvbuf
    && HasBlocks(sendbuf[..], ep.size, sc) && ep.size > 0 && BlockAt(ep.size - 1, rc) + sc <= recvbuf.Length
    && LongEnough(ep.feed, ep.size - 1, sc)
  }

  lemma AlltoallRoom(n: nat, r: nat, sbuf: seq<int>, sc: nat, rc: nat, feed: seq<Option<Message>>, length: nat)
    requires n >= 2 && r < n && n - 1 <= |feed| && HasBlocks(sbuf, n, sc) && BlockAt(n - 1, rc) + sc <= length
    requires LongEnough(feed, n - 1, sc)
    ensures Well(AlltoallCall(n, r, sbuf, sc, rc)) && Room(AlltoallCall(n, r, sbuf, sc, rc), feed, length)
  {
    forall s: nat | s < n ensures BlockAt(s, rc) <= BlockAt(n - 1, rc) {
      BlocksRise(s, n - 1, rc);
    }
    hide BlockAt;
  }

  method Alltoall(ep: Endpoint, sendbuf: array?<int>, sendcount: int, sendtype: nat,
                  recvbuf: array?<int>, recvcount: int, recvtype: nat)
    returns (status: int)
    requires ep.rank < ep.size && ep.size >= 2 && sendtype < 4 && recvtype < 4
    requires sendbuf != null && recvbuf != null && sendcount > 0 && recvcount > 0 ==>
      AlltoallFits(ep, sendbuf, ByteCount(sendcount, sendtype), recvbuf, ByteCount(recvcount, recvtype))
    modifies ep, recvbuf
    ensures status == 1 <==> sendbuf == null || recvbuf == null
    ensures status == 2 <==> sendbuf != null && recvbuf != null && (sendcount <= 0 || recvcount <= 0)
    ensures status in {1, 2} ==> unchanged(ep) && (recvbuf != null ==> unchanged(recvbuf))
    ensures status !in {1, 2} ==>
      var c := AlltoallCall(ep.size, ep.rank, sendbuf[..], ByteCount(sendcount, sendtype),
                            ByteCount(recvcount, recvtype));
      && Well(c) && Room(c, old(ep.feed), recvbuf.Length)
      && RingEffect(c, old(ep.feed), old(ep.log), old(recvbuf[..]), ep.log, recvbuf[..], status)
    ensures status == 0 ==> ep.feed == old(ep.feed)[ep.size - 1..]
  {
    if sendbuf == null || recvbuf == null { return 1; }
    if sendcount <= 0 || recvcount <= 0 { return 2; }
    status := AlltoallBytes(ep, sendbuf, ByteCount(sendcount, sendtype), recvbuf, ByteCount(recvcount, recvtype));
  }

  /** The collective proper, with counts in bytes. */
  method AlltoallBytes(ep: Endpoint, sendbuf: array<int>, sc: nat, recvbuf: array<int>, rc: nat)
    returns (status: int)
    requires ep.rank < ep.size && ep.size >= 2 && AlltoallFits(ep, sendbuf, sc, recvbuf, rc)
    modifies ep, recvbuf
    ensures status !in {1, 2}
    ensures var c := AlltoallCall(ep.size, ep.rank, sendbuf[..], sc, rc);
      && Well(c) && Room(c, old(ep.feed), recvbuf.Length)
      && RingEffect(c, old(ep.feed), old(ep.log), old(recvbuf[..]), ep.log, recvbuf[..], status)
    ensures status == 0 ==> ep.feed == old(ep.feed)[ep.size - 1..]
  {
    var n := ep.size;
    ghost var feed, buf, log := ep.feed, recvbuf[..], ep.log;
    ghost var c := AlltoallCall(n, ep.rank, sendbuf[..], sc, rc);
    AlltoallRoom(n, ep.rank, sendbuf[..], sc, rc, feed, |buf|);
    assert HasBlocks(sendbuf[..], n, sc);
    hide RingEffect, RingMid, Room, BlockAt;

    var firstRank := OffsetRank(ep.rank, n, 1, true);
    RingFirst(ep, Block(sendbuf[..], firstRank, sc), Block(sendbuf[..], ep.rank, sc), BlockAt(ep.rank, rc), recvbuf, c);
    var i := 2;
    while i < n
      invariant 2 <= i <= n
      invariant RingMid(c, feed, log, buf, i - 2, ep.feed, ep.log, recvbuf[..])
    {
      var sendRank := OffsetRank(ep.rank, n, i, true);
      var recvRank := OffsetRank(ep.rank, n, i - 1, false);
      status := RingRound(ep, i, Block(sendbuf[..], sendRank, sc), None, Some(sc), recvbuf, BlockAt(recvRank, rc),
                          c, feed, log, buf);
      if status != 0 { return; }
      i := i + 1;
    }
    var lastRank := OffsetRank(ep.rank, n, n - 1, false);
    status := RingLast(ep, None, Some(sc), recvbuf, BlockAt(lastRank, rc), c, feed, log, buf);
  }
}
