/** The collectives around one root: Bcast, Gather, Scatter, Reduce, Barrier, and those built on them. */
module MpiRooted {
  import opened Wrappers
  import opened Network
  import opened Offsets
  import opened Buffers
  import opened Endpoints

  /** How many ranks below i are not the root. */
  function Others(root: nat, i: nat): nat {
    if i <= root then i else i - 1
  }

  /** The sends to the first `k` ranks other than the root. */
  ghost function FanOutLog(root: nat, blk: seq<Message>, k: nat): (log: seq<Action>)
    requires forall q: nat | q < k :: Skip(root, q) < |blk|
    ensures |log| == k
  {
    seq(k, q requires 0 <= q < k => Sent(Skip(root, q), blk[Skip(root, q)]))
  }

  /** The receives from the first |got| ranks other than the root. */
  ghost function FanInLog(root: nat, got: seq<Message>): (log: seq<Action>)
    ensures |log| == |got|
  {
    seq(|got|, q requires 0 <= q < |got| => Received(Skip(root, q), got[q]))
  }

  lemma FanOutStep(root: nat, blk: seq<Message>, i: nat)
    requires i < |blk| && i != root
    ensures FanOutLog(root, blk, Others(root, i)) + [Sent(i, blk[i])] == FanOutLog(root, blk, Others(root, i + 1))
  {
  }

  lemma FanInStep(root: nat, got: seq<Message>, i: nat, msg: Message)
    requires i != root && |got| == Others(root, i)
    ensures FanInLog(root, got) + [Received(i, msg)] == FanInLog(root, got + [msg])
  {
  }

  // ---------------------------------------------------------------- RDMA_Bcast

  /** What a Bcast of `len` cells at offset `at` does at rank r: the root sends them to everyone and
      changes nothing; another rank takes its message over if it has the right length. */
  ghost predicate BcastEffect(n: nat, r: nat, root: nat, at: nat, len: nat, feed: seq<Option<Message>>,
                              log: seq<Action>, buf: seq<int>, log': seq<Action>, buf': seq<int>, status: int)
    requires r < n && at + len <= |buf| && (r != root ==> feed != [])
  {
    if r == root then
      status == 0 && buf' == buf && log' == log + FanOutLog(root, Copies(n, buf[at..at + len]), n - 1)
    else
      match feed[0]
      case None => status == 4 && buf' == buf && log' == log
      case Some(msg) =>
        && log' == log + [Received(root, msg)]
        && if |msg| == len then status == 0 && buf' == Put(buf, Piece(at, msg)) else status == 5 && buf' == buf
  }

  ghost predicate RanBcast(n: nat, r: nat, root: nat, at: nat, len: nat, feed: seq<Option<Message>>, run: Run) {
    && r < n && root < n && at + len <= |run.buf| && (r != root ==> feed != [])
    && BcastEffect(n, r, root, at, len, feed, run.log, run.buf, run.log', run.buf', run.status)
  }

  method Bcast(ep: Endpoint, buf: array?<int>, at: nat, count: int, typ: nat, root: int) returns (status: int)
    requires ep.rank < ep.size && typ < 4
    requires buf != null && count > 0 && 0 <= root < ep.size ==>
      && at + ByteCount(count, typ) <= buf.Length
      && (ep.rank != root ==> ep.feed != [])
    modifies ep, if ep.rank == root then {} else {buf}
    ensures status == 1 <==> buf == null
    ensures status == 2 <==> buf != null && count <= 0
    ensures status == 3 <==> buf != null && count > 0 && !(0 <= root < ep.size)
    ensures status in {1, 2, 3} ==> unchanged(ep) && (buf != null ==> unchanged(buf))
    ensures status !in {1, 2, 3} ==>
      && ep.feed == (if ep.rank == root then old(ep.feed) else old(ep.feed)[1..])
      && BcastEffect(ep.size, ep.rank, root, at, ByteCount(count, typ), old(ep.feed), old(ep.log), old(buf[..]),
                     ep.log, buf[..], status)
  {
    var countInByte := ByteCount(count, typ);
    if buf == null { return 1; }
    if countInByte <= 0 { return 2; }
    if root >= ep.size || root < 0 { return 3; }

    if ep.rank == root {
      var msg := buf[at..at + countInByte];
      ghost var blk, log := Copies(ep.size, msg), ep.log;
      hide ByteCount;
      for i := 0 to ep.size
        invariant ep.feed == old(ep.feed) && unchanged(buf)
        invariant ep.log == log + FanOutLog(root, blk, Others(root, i))
      {
        if i == ep.rank { continue; }
        FanOutStep(root, blk, i);
        ep.Send(i, msg);
      }
      assert buf[at..at + countInByte] == msg;
    } else {
      var msg := ep.Recv(root);
      if msg.None? { return 4; }
      if |msg.value| == countInByte {
        CopyInto(buf, Piece(at, msg.value));
      } else {
        return 5;
      }
    }
    return 0;
  }

  // ---------------------------------------------------------------- RDMA_Scatter

  /** What a Scatter does at rank r: the root sends block d of `sbuf` to rank d and keeps its own;
      another rank takes its message over if it has the right length. */
  ghost predicate ScatterEffect(n: nat, r: nat, root: nat, sbuf: seq<int>, sc: nat, rc: nat, feed: seq<Option<Message>>,
                                log: seq<Action>, buf: seq<int>, log': seq<Action>, buf': seq<int>, status: int)
    requires root < n
    requires if r == root then HasBlocks(sbuf, n, sc) && sc <= |buf| else feed != [] && rc <= |buf|
  {
    if r == root then
      && status == 0 && log' == log + FanOutLog(root, Blocks(sbuf, n, sc), n - 1)
      && buf' == Put(buf, Piece(0, Block(sbuf, root, sc)))
    else
      match feed[0]
      case None => status == -1 && buf' == buf && log' == log
      case Some(msg) =>
        && log' == log + [Received(root, msg)]
        && if |msg| == rc then status == 0 && buf' == Put(buf, Piece(0, msg)) else status == 5 && buf' == buf
  }

  ghost predicate RanScatter(n: nat, r: nat, root: nat, sbuf: seq<int>, sc: nat, rc: nat, feed: seq<Option<Message>>,
                             run: Run)
  {
    && r < n && root < n
    && (if r == root then HasBlocks(sbuf, n, sc) && sc <= |run.buf| else feed != [] && rc <= |run.buf|)
    && ScatterEffect(n, r, root, sbuf, sc, rc, feed, run.log, run.buf, run.log', run.buf', run.status)
  }

  method Scatter(ep: Endpoint, sendbuf: array?<int>, sendcount: int, sendtype: nat,
                 recvbuf: array?<int>, recvcount: int, recvtype: nat, root: int) returns (status: int)
    requires ep.rank < ep.size && sendtype < 4 && recvtype < 4
    requires sendbuf != null && recvbuf != null && sendcount > 0 && recvcount > 0 && 0 <= root < ep.size ==>
      && sendbuf != recvbuf
      && (ep.rank == root ==> HasBlocks(sendbuf[..], ep.size, ByteCount(sendcount, sendtype))
                              && ByteCount(sendcount, sendtype) <= recvbuf.Length)
      && (ep.rank != root ==> ByteCount(recvcount, recvtype) <= recvbuf.Length && ep.feed != [])
    modifies ep, recvbuf
    ensures status == 1 <==> sendbuf == null || recvbuf == null
    ensures status == 2 <==> sendbuf != null && recvbuf != null && (sendcount <= 0 || recvcount <= 0)
    ensures status == 3 <==>
      sendbuf != null && recvbuf != null && sendcount > 0 && recvcount > 0 && !(0 <= root < ep.size)
    ensures status in {1, 2, 3} ==> unchanged(ep) && (recvbuf != null ==> unchanged(recvbuf))
    ensures status !in {1, 2, 3} ==>
      && ep.feed == (if ep.rank == root then old(ep.feed) else old(ep.feed)[1..])
      && ScatterEffect(ep.size, ep.rank, root, sendbuf[..], ByteCount(sendcount, sendtype),
                       ByteCount(recvcount, recvtype),
                       old(ep.feed), old(ep.log), old(recvbuf[..]), ep.log, recvbuf[..], status)
  {
    if sendbuf == null || recvbuf == null { return 1; }
    if sendcount <= 0 || recvcount <= 0 { return 2; }
    if root >= ep.size || root < 0 { return 3; }
    if ep.rank == root {
      ScatterFromRoot(ep, sendbuf, ByteCount(sendcount, sendtype), recvbuf);
      status := 0;
    } else {
      status := ScatterToRank(ep, recvbuf, ByteCount(recvcount, recvtype), root);
    }
    hide ByteCount, BlockAt, Put;
  }

  method ScatterFromRoot(ep: Endpoint, sendbuf: array<int>, sc: nat, recvbuf: array<int>)
    requires ep.rank < ep.size && sendbuf != recvbuf && HasBlocks(sendbuf[..], ep.size, sc) && sc <= recvbuf.Length
    modifies ep, recvbuf
    ensures ep.feed == old(ep.feed)
    ensures ep.log == old(ep.log) + FanOutLog(ep.rank, Blocks(sendbuf[..], ep.size, sc), ep.size - 1)
    ensures recvbuf[..] == Put(old(recvbuf[..]), Piece(0, Block(sendbuf[..], ep.rank, sc)))
  {
    hide BlockAt, Put;
    ghost var blk, log, buf := Blocks(sendbuf[..], ep.size, sc), ep.log, recvbuf[..];
    for i := 0 to ep.size
      invariant ep.feed == old(ep.feed)
      invariant ep.log == log + FanOutLog(ep.rank, blk, Others(ep.rank, i))
      invariant recvbuf[..] == if i <= ep.rank then buf else Put(buf, Piece(0, blk[ep.rank]))
    {
      if ep.rank == i {
        CopyInto(recvbuf, Piece(0, Block(sendbuf[..], i, sc)));
      } else {
        FanOutStep(ep.rank, blk, i);
        ep.Send(i, Block(sendbuf[..], i, sc));
      }
    }
  }

  method ScatterToRank(ep: Endpoint, recvbuf: array<int>, rc: nat, root: nat) returns (status: int)
    requires rc <= recvbuf.Length && ep.feed != []
    modifies ep, recvbuf
    ensures ep.feed == old(ep.feed)[1..]
    ensures match old(ep.feed)[0]
      case None => status == -1 && recvbuf[..] == old(recvbuf[..]) && ep.log == old(ep.log)
      case Some(msg) =>
        && ep.log == old(ep.log) + [Received(root, msg)]
        && if |msg| == rc then status == 0 && recvbuf[..] == Put(old(recvbuf[..]), Piece(0, msg))
           else status == 5 && recvbuf[..] == old(recvbuf[..])
  {
    var msg := ep.Recv(root);
    if msg.None? { return -1; }
    if |msg.value| != rc { return 5; }
    CopyInto(recvbuf, Piece(0, msg.value));
    return 0;
  }

  // ---------------------------------------------------------------- RDMA_Gather and RDMA_Allgather

  /** One rank collects a block from every other: its own block, `own`, goes to a multiple of its
      length, what is received to multiples of `rc`; `mine` is what the rank does at its own turn. */
  datatype GatherCall = GatherCall(n: nat, r: nat, own: seq<int>, rc: nat, mine: seq<Action>)

  /** The pieces written for the ranks below i. */
  ghost function BlockPieces(c: GatherCall, got: seq<Message>, i: nat): (ps: seq<Piece>)
    requires Others(c.r, i) <= |got|
    ensures |ps| == i
  {
    seq(i, s requires 0 <= s < i =>
      if s == c.r then Piece(BlockAt(c.r, |c.own|), c.own) else Piece(BlockAt(s, c.rc), got[SkipIndex(c.r, s)]))
  }

  /** The actions done for the ranks below i. */
  ghost function TurnLog(c: GatherCall, got: seq<Message>, i: nat): (log: seq<Action>)
    requires Others(c.r, i) <= |got|
  {
    if i == 0 then []
    else if i - 1 == c.r then TurnLog(c, got, i - 1) + c.mine
    else TurnLog(c, got, i - 1) + [Received(i - 1, got[SkipIndex(c.r, i - 1)])]
  }

  lemma {:induction false} TurnLogFixed(c: GatherCall, got: seq<Message>, msg: Message, i: nat)
    requires Others(c.r, i) <= |got|
    ensures TurnLog(c, got + [msg], i) == TurnLog(c, got, i)
  {
    if i > 0 {
      TurnLogFixed(c, got, msg, i - 1);
    }
  }

  /** The rank at which the loop stops when the receive after `m` good ones fails. */
  ghost function StopRank(c: GatherCall, m: nat): (i: nat)
    requires c.r < c.n && m <= c.n - 1
    ensures Others(c.r, i) == m && i <= c.n
  {
    if m == c.n - 1 then c.n else Skip(c.r, m)
  }

  ghost function Uniform(k: nat, len: int): (want: seq<int>)
    ensures |want| == k && forall i: nat | i < k :: want[i] == len
  {
    seq(k, _ => len)
  }

  /** What the call does: its result code, its actions and the new receive buffer. */
  ghost predicate GatherEffect(c: GatherCall, feed: seq<Option<Message>>, log: seq<Action>, buf: seq<int>,
                               log': seq<Action>, buf': seq<int>, status: int)
    requires c.r < c.n && c.n - 1 <= |feed|
  {
    var m := Accepted(feed, Uniform(c.n - 1, c.rc), 0, c.n - 1);
    var got, i := Taken(feed, m), StopRank(c, m);
    && status == (if m == c.n - 1 then 0 else if feed[m].None? then 4 else 5)
    && log' == log + TurnLog(c, got, i) + (if status == 5 then [Received(i, feed[m].value)] else [])
    && AllFit(buf, BlockPieces(c, got, i)) && buf' == PutAll(buf, BlockPieces(c, got, i))
  }

  ghost predicate BlocksFit(n: nat, r: nat, sc: nat, rc: nat, length: nat) {
    && r < n && BlockAt(r, sc) + sc <= length
    && forall s: nat | s < n && s != r :: BlockAt(s, rc) + rc <= length
  }

  ghost predicate RanGather(c: GatherCall, feed: seq<Option<Message>>, run: Run) {
    && c.r < c.n && c.n - 1 <= |feed| && BlocksFit(c.n, c.r, |c.own|, c.rc, |run.buf|)
    && GatherEffect(c, feed, run.log, run.buf, run.log', run.buf', run.status)
  }

  /** The state of the loop before rank i is dealt with. */
  ghost predicate GatherMid(c: GatherCall, feed: seq<Option<Message>>, log: seq<Action>, buf: seq<int>, i: nat,
                            feed': seq<Option<Message>>, log': seq<Action>, buf': seq<int>)
    requires c.r < c.n && c.n - 1 <= |feed|
  {
    var m := Others(c.r, i);
    && i <= c.n
    && (forall k: nat | k < m :: feed[k].Some? && |feed[k].value| == c.rc)
    && feed' == feed[m..]
    && log' == log + TurnLog(c, Taken(feed, m), i)
    && AllFit(buf, BlockPieces(c, Taken(feed, m), i))
    && buf' == PutAll(buf, BlockPieces(c, Taken(feed, m), i))
  }

  lemma GatherStart(c: GatherCall, feed: seq<Option<Message>>, log: seq<Action>, buf: seq<int>)
    requires c.r < c.n && c.n - 1 <= |feed|
    ensures GatherMid(c, feed, log, buf, 0, feed, log, buf)
  {
  }

  lemma GatherOwn(c: GatherCall, feed: seq<Option<Message>>, log: seq<Action>, buf: seq<int>,
                  feed': seq<Option<Message>>, log': seq<Action>, buf': seq<int>)
    requires c.r < c.n && c.n - 1 <= |feed| && BlocksFit(c.n, c.r, |c.own|, c.rc, |buf|)
    requires GatherMid(c, feed, log, buf, c.r, feed', log', buf')
    ensures |buf'| == |buf| && Fits(buf', Piece(BlockAt(c.r, |c.own|), c.own))
    ensures GatherMid(c, feed, log, buf, c.r + 1, feed', log' + c.mine, Put(buf', Piece(BlockAt(c.r, |c.own|), c.own)))
  {
    var got, p := Taken(feed, c.r), Piece(BlockAt(c.r, |c.own|), c.own);
    assert BlockPieces(c, got, c.r + 1) == BlockPieces(c, got, c.r) + [p];
    PutAllOne(buf, BlockPieces(c, got, c.r), p);
    assert log' + c.mine == log + (TurnLog(c, got, c.r) + c.mine);
  }

  lemma TakenGrows(feed: seq<Option<Message>>, m: nat)
    requires m < |feed| && forall k: nat | k <= m :: feed[k].Some?
    ensures Taken(feed, m) + [feed[m].value] == Taken(feed, m + 1)
  {
  }

  lemma BlockPiecesStep(c: GatherCall, got: seq<Message>, i: nat, msg: Message)
    requires i != c.r && |got| == Others(c.r, i)
    ensures BlockPieces(c, got + [msg], i + 1) == BlockPieces(c, got, i) + [Piece(BlockAt(i, c.rc), msg)]
    ensures TurnLog(c, got + [msg], i + 1) == TurnLog(c, got, i) + [Received(i, msg)]
  {
    TurnLogFixed(c, got, msg, i);
  }

  lemma GatherGood(c: GatherCall, feed: seq<Option<Message>>, log: seq<Action>, buf: seq<int>, i: nat,
                   feed': seq<Option<Message>>, log': seq<Action>, buf': seq<int>)
    requires c.r < c.n && c.n - 1 <= |feed| && BlocksFit(c.n, c.r, |c.own|, c.rc, |buf|)
    requires GatherMid(c, feed, log, buf, i, feed', log', buf') && i < c.n && i != c.r
    requires var m := Others(c.r, i); feed[m].Some? && |feed[m].value| == c.rc
    ensures var msg := feed[Others(c.r, i)].value;
      && Fits(buf', Piece(BlockAt(i, c.rc), msg))
      && GatherMid(c, feed, log, buf, i + 1, feed'[1..], log' + [Received(i, msg)],
                   Put(buf', Piece(BlockAt(i, c.rc), msg)))
  {
    var m := Others(c.r, i);
    var got, msg := Taken(feed, m), feed[m].value;
    TakenGrows(feed, m);
    BlockPiecesStep(c, got, i, msg);
    PutAllOne(buf, BlockPieces(c, got, i), Piece(BlockAt(i, c.rc), msg));
    assert feed'[1..] == feed[m + 1..];
    hide BlockPieces, TurnLog, PutAll, Put, Taken, AllFit;
    assert log' + [Received(i, msg)] == log + (TurnLog(c, got, i) + [Received(i, msg)]);
    assert Others(c.r, i + 1) == m + 1;
  }

  lemma GatherBad(c: GatherCall, feed: seq<Option<Message>>, log: seq<Action>, buf: seq<int>, i: nat,
                  feed': seq<Option<Message>>, log': seq<Action>, buf': seq<int>)
    requires c.r < c.n && c.n - 1 <= |feed|
    requires GatherMid(c, feed, log, buf, i, feed', log', buf') && i < c.n && i != c.r
    requires var m := Others(c.r, i); feed[m].None? || |feed[m].value| != c.rc
    ensures var msg := feed[Others(c.r, i)];
      if msg.None? then GatherEffect(c, feed, log, buf, log', buf', 4)
      else GatherEffect(c, feed, log, buf, log' + [Received(i, msg.value)], buf', 5)
  {
    hide BlockPieces, TurnLog, PutAll, Taken, AllFit;
    AcceptedIs(feed, Uniform(c.n - 1, c.rc), 0, Others(c.r, i), c.n - 1);
    assert log' + [] == log';
  }

  lemma GatherOther(c: GatherCall, feed: seq<Option<Message>>, log: seq<Action>, buf: seq<int>, i: nat,
                    feed': seq<Option<Message>>, log': seq<Action>, buf': seq<int>)
    requires c.r < c.n && c.n - 1 <= |feed| && BlocksFit(c.n, c.r, |c.own|, c.rc, |buf|)
    requires GatherMid(c, feed, log, buf, i, feed', log', buf') && i < c.n && i != c.r
    ensures feed' != [] && |buf'| == |buf|
    ensures feed'[0].None? ==> GatherEffect(c, feed, log, buf, log', buf', 4)
    ensures feed'[0].Some? && |feed'[0].value| != c.rc ==>
      GatherEffect(c, feed, log, buf, log' + [Received(i, feed'[0].value)], buf', 5)
    ensures feed'[0].Some? && |feed'[0].value| == c.rc ==>
      && Fits(buf', Piece(BlockAt(i, c.rc), feed'[0].value))
      && GatherMid(c, feed, log, buf, i + 1, feed'[1..], log' + [Received(i, feed'[0].value)],
                   Put(buf', Piece(BlockAt(i, c.rc), feed'[0].value)))
  {
    var msg := feed[Others(c.r, i)];
    assert feed' != [] && feed'[0] == msg && |buf'| == |buf|;
    if msg.Some? && |msg.value| == c.rc {
      GatherGood(c, feed, log, buf, i, feed', log', buf');
    } else {
      GatherBad(c, feed, log, buf, i, feed', log', buf');
    }
    hide GatherMid, GatherEffect, BlocksFit, Put;
  }

  lemma GatherEnd(c: GatherCall, feed: seq<Option<Message>>, log: seq<Action>, buf: seq<int>,
                  feed': seq<Option<Message>>, log': seq<Action>, buf': seq<int>)
    requires c.r < c.n && c.n - 1 <= |feed| && GatherMid(c, feed, log, buf, c.n, feed', log', buf')
    ensures GatherEffect(c, feed, log, buf, log', buf', 0)
  {
    hide BlockPieces, TurnLog, PutAll, Taken, AllFit;
    AcceptedIs(feed, Uniform(c.n - 1, c.rc), 0, c.n - 1, c.n - 1);
    assert log' + [] == log';
  }

  method Gather(ep: Endpoint, sendbuf: array?<int>, sendcount: int, sendtype: nat,
                recvbuf: array?<int>, recvcount: int, recvtype: nat, root: int) returns (status: int)
    requires ep.rank < ep.size && sendtype < 4 && recvtype < 4
    requires sendbuf != null && recvbuf != null && sendcount > 0 && recvcount > 0 && 0 <= root < ep.size ==>
      var sc, rc := ByteCount(sendcount, sendtype), ByteCount(recvcount, recvtype);
      && sendbuf != recvbuf && sc <= sendbuf.Length
      && (ep.rank == root ==> ep.size - 1 <= |ep.feed| && BlocksFit(ep.size, root, sc, rc, recvbuf.Length))
    modifies ep, recvbuf
    ensures status == 1 <==> sendbuf == null || recvbuf == null
    ensures status == 2 <==> sendbuf != null && recvbuf != null && (sendcount <= 0 || recvcount <= 0)
    ensures status == 3 <==>
      sendbuf != null && recvbuf != null && sendcount > 0 && recvcount > 0 && !(0 <= root < ep.size)
    ensures status in {1, 2, 3} ==> unchanged(ep) && (recvbuf != null ==> unchanged(recvbuf))
    ensures status !in {1, 2, 3} && ep.rank != root ==>
      && status == 0 && unchanged(recvbuf) && ep.feed == old(ep.feed)
      && ep.log == old(ep.log) + [Sent(root, sendbuf[..ByteCount(sendcount, sendtype)])]
    ensures status !in {1, 2, 3} && ep.rank == root ==>
      var own := sendbuf[..ByteCount(sendcount, sendtype)];
      GatherEffect(GatherCall(ep.size, root, own, ByteCount(recvcount, recvtype), []),
                   old(ep.feed), old(ep.log), old(recvbuf[..]), ep.log, recvbuf[..], status)
  {
    if sendbuf == null || recvbuf == null { return 1; }
    if sendcount <= 0 || recvcount <= 0 { return 2; }
    if root >= ep.size || root < 0 { return 3; }
    if ep.rank == root {
      status := GatherAtRoot(ep, sendbuf, ByteCount(sendcount, sendtype), recvbuf, ByteCount(recvcount, recvtype));
    } else {
      ep.Send(root, sendbuf[..ByteCount(sendcount, sendtype)]);
      return 0;
    }
  }

  method GatherAtRoot(ep: Endpoint, sendbuf: array<int>, sc: nat, recvbuf: array<int>, rc: nat) returns (status: int)
    requires ep.rank < ep.size && ep.size - 1 <= |ep.feed| && sendbuf != recvbuf && sc <= sendbuf.Length
    requires BlocksFit(ep.size, ep.rank, sc, rc, recvbuf.Length)
    modifies ep, recvbuf
    ensures status !in {1, 2, 3}
    ensures GatherEffect(GatherCall(ep.size, ep.rank, sendbuf[..sc], rc, []),
                         old(ep.feed), old(ep.log), old(recvbuf[..]), ep.log, recvbuf[..], status)
  {
    var own := sendbuf[..sc];
    ghost var feed, log, buf, c := ep.feed, ep.log, recvbuf[..], GatherCall(ep.size, ep.rank, own, rc, []);
    GatherStart(c, feed, log, buf);
    hide *;
    var i := 0;
    while i < ep.size
      invariant i <= ep.size && GatherMid(c, feed, log, buf, i, ep.feed, ep.log, recvbuf[..])
    {
      if ep.rank == i {
        GatherKeep(ep, own, recvbuf, BlockAt(i, sc), c, feed, log, buf);
      } else {
        status := GatherFrom(ep, i, recvbuf, BlockAt(i, rc), rc, c, feed, log, buf);
        if status != 0 { return; }
      }
      i := i + 1;
    }
    GatherEnd(c, feed, log, buf, ep.feed, ep.log, recvbuf[..]);
    return 0;
  }

  /** Copying the root's own block. */
  method GatherKeep(ep: Endpoint, own: seq<int>, recvbuf: array<int>, offset: nat, ghost c: GatherCall,
                    ghost feed: seq<Option<Message>>, ghost log: seq<Action>, ghost buf: seq<int>)
    requires c.r < c.n && c.n - 1 <= |feed| && BlocksFit(c.n, c.r, |c.own|, c.rc, |buf|)
    requires GatherMid(c, feed, log, buf, c.r, ep.feed, ep.log, recvbuf[..])
    requires own == c.own && c.mine == [] && offset == BlockAt(c.r, |own|)
    modifies recvbuf
    ensures GatherMid(c, feed, log, buf, c.r + 1, ep.feed, ep.log, recvbuf[..])
  {
    GatherOwn(c, feed, log, buf, ep.feed, ep.log, recvbuf[..]);
    hide *;
    assert ep.log + [] == ep.log;
    CopyInto(recvbuf, Piece(offset, own));
  }

  /** Taking in the block of one other rank. */
  method GatherFrom(ep: Endpoint, i: nat, recvbuf: array<int>, offset: nat, rc: nat, ghost c: GatherCall,
                    ghost feed: seq<Option<Message>>, ghost log: seq<Action>, ghost buf: seq<int>)
    returns (status: int)
    requires c.r < c.n && c.n - 1 <= |feed| && BlocksFit(c.n, c.r, |c.own|, c.rc, |buf|)
    requires GatherMid(c, feed, log, buf, i, ep.feed, ep.log, recvbuf[..]) && i < c.n && i != c.r
    requires offset == BlockAt(i, rc) && c.rc == rc
    modifies ep, recvbuf
    ensures status !in {1, 2, 3}
    ensures status == 0 ==> GatherMid(c, feed, log, buf, i + 1, ep.feed, ep.log, recvbuf[..])
    ensures status != 0 ==> GatherEffect(c, feed, log, buf, ep.log, recvbuf[..], status)
  {
    GatherOther(c, feed, log, buf, i, ep.feed, ep.log, recvbuf[..]);
    hide GatherMid, GatherEffect, BlocksFit, BlockAt, Put;
    status := Receive(ep, i, Some(rc), None, recvbuf, offset);
  }

  /** What the rank does in an Allgather at its own turn: it broadcasts its block. */
  ghost function AllgatherCall(n: nat, r: nat, own: seq<int>, rc: nat): GatherCall
    requires r < n
  {
    GatherCall(n, r, own, rc, FanOutLog(r, Copies(n, own), n - 1))
  }

  method Allgather(ep: Endpoint, sendbuf: array?<int>, sendcount: int, sendtype: nat,
                   recvbuf: array?<int>, recvcount: int, recvtype: nat) returns (status: int)
    requires ep.rank < ep.size && sendtype < 4 && recvtype < 4
    requires sendbuf != null && recvbuf != null && sendcount > 0 && recvcount > 0 ==>
      var sc, rc := ByteCount(sendcount, sendtype), ByteCount(recvcount, recvtype);
      && sendbuf != recvbuf && sc <= sendbuf.Length
      && ep.size - 1 <= |ep.feed| && BlocksFit(ep.size, ep.rank, sc, rc, recvbuf.Length)
    modifies ep, recvbuf
    ensures status == 1 <==> sendbuf == null || recvbuf == null
    ensures status == 2 <==> sendbuf != null && recvbuf != null && (sendcount <= 0 || recvcount <= 0)
    ensures status in {1, 2} ==> unchanged(ep) && (recvbuf != null ==> unchanged(recvbuf))
    ensures status !in {1, 2} ==>
      var own := sendbuf[..ByteCount(sendcount, sendtype)];
      GatherEffect(AllgatherCall(ep.size, ep.rank, own, ByteCount(recvcount, recvtype)),
                   old(ep.feed), old(ep.log), old(recvbuf[..]), ep.log, recvbuf[..], status)
  {
    if sendbuf == null || recvbuf == null { return 1; }
    if sendcount <= 0 || recvcount <= 0 { return 2; }
    status := AllgatherBytes(ep, sendbuf, ByteCount(sendcount, sendtype), recvbuf, ByteCount(recvcount, recvtype));
  }

  /** A loop of broadcasts, one from each rank. */
  method AllgatherBytes(ep: Endpoint, sendbuf: array<int>, sc: nat, recvbuf: array<int>, rc: nat) returns (status: int)
    requires ep.rank < ep.size && ep.size - 1 <= |ep.feed| && sendbuf != recvbuf && 0 < sc <= sendbuf.Length && 0 < rc
    requires BlocksFit(ep.size, ep.rank, sc, rc, recvbuf.Length)
    modifies ep, recvbuf
    ensures status !in {1, 2}
    ensures GatherEffect(AllgatherCall(ep.size, ep.rank, sendbuf[..sc], rc),
                         old(ep.feed), old(ep.log), old(recvbuf[..]), ep.log, recvbuf[..], status)
  {
    var own := sendbuf[..sc];
    ghost var feed, log, buf, c := ep.feed, ep.log, recvbuf[..], AllgatherCall(ep.size, ep.rank, own, rc);
    GatherStart(c, feed, log, buf);
    assert c.n == ep.size && c.r == ep.rank && c.own == own && c.rc == rc;
    hide *;
    var i := 0;
    while i < ep.size
      invariant i <= ep.size && GatherMid(c, feed, log, buf, i, ep.feed, ep.log, recvbuf[..])
    {
      if ep.rank == i {
        BcastOwn(ep, sendbuf, sc, recvbuf, BlockAt(i, sc), c, feed, log, buf);
      } else {
        status := BcastFrom(ep, i, recvbuf, BlockAt(i, rc), rc, c, feed, log, buf);
        if status != 0 { return; }
      }
      i := i + 1;
    }
    GatherEnd(c, feed, log, buf, ep.feed, ep.log, recvbuf[..]);
    return 0;
  }

  method BcastOwn(ep: Endpoint, sendbuf: array<int>, sc: nat, recvbuf: array<int>, offset: nat, ghost c: GatherCall,
                  ghost feed: seq<Option<Message>>, ghost log: seq<Action>, ghost buf: seq<int>)
    requires ep.rank < ep.size && ep.size - 1 <= |feed| && sendbuf != recvbuf && 0 < sc <= sendbuf.Length
    requires c == AllgatherCall(ep.size, ep.rank, sendbuf[..sc], c.rc) && offset == BlockAt(ep.rank, sc)
    requires BlocksFit(c.n, c.r, sc, c.rc, |buf|)
    requires GatherMid(c, feed, log, buf, ep.rank, ep.feed, ep.log, recvbuf[..])
    modifies ep, recvbuf
    ensures GatherMid(c, feed, log, buf, ep.rank + 1, ep.feed, ep.log, recvbuf[..])
  {
    GatherOwn(c, feed, log, buf, ep.feed, ep.log, recvbuf[..]);
    hide GatherMid, BlocksFit, BlockAt, Put, FanOutLog;
    assert sendbuf[0..0 + sc] == sendbuf[..sc];
    var status := Bcast(ep, sendbuf, 0, sc, R_TYPE_BYTE, ep.rank);
    CopyInto(recvbuf, Piece(offset, sendbuf[..sc]));
  }

  method BcastFrom(ep: Endpoint, i: nat, recvbuf: array<int>, offset: nat, rc: nat, ghost c: GatherCall,
                   ghost feed: seq<Option<Message>>, ghost log: seq<Action>, ghost buf: seq<int>)
    returns (status: int)
    requires ep.rank < ep.size == c.n && c.r == ep.rank && c.n - 1 <= |feed| && BlocksFit(c.n, c.r, |c.own|, rc, |buf|)
    requires GatherMid(c, feed, log, buf, i, ep.feed, ep.log, recvbuf[..]) && i < c.n && i != c.r
    requires offset == BlockAt(i, rc) && c.rc == rc > 0
    modifies ep, recvbuf
    ensures status !in {1, 2}
    ensures status == 0 ==> GatherMid(c, feed, log, buf, i + 1, ep.feed, ep.log, recvbuf[..])
    ensures status != 0 ==> GatherEffect(c, feed, log, buf, ep.log, recvbuf[..], status)
  {
    GatherOther(c, feed, log, buf, i, ep.feed, ep.log, recvbuf[..]);
    assert offset + rc <= recvbuf.Length;
    hide GatherMid, GatherEffect, BlocksFit, BlockAt, Put;
    status := Bcast(ep, recvbuf, offset, rc, R_TYPE_BYTE, i);
  }
}
