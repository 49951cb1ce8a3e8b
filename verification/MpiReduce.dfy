/** Reduce, Allreduce and Barrier.  In the reductions one buffer cell is one element. */
module MpiReduce {
  import opened Wrappers
  import opened Network
  import opened Offsets
  import opened Buffers
  import opened Endpoints
  import opened MpiRooted

  const R_OP_SUM: nat := 0
  const R_OP_MIN: nat := 1

  /** Every other operation code means maximum. */
  function Combine(op: nat, a: int, b: int): int {
    if op == R_OP_SUM then a + b
    else if op == R_OP_MIN then (if b < a then b else a)
    else if a < b then b else a
  }

  ghost function CombineAll(op: nat, a: seq<int>, b: seq<int>): (r: seq<int>)
    requires |a| <= |b|
    ensures |r| == |a|
  {
    seq(|a|, j requires 0 <= j < |a| => Combine(op, a[j], b[j]))
  }

  ghost predicate Long(got: seq<Message>, count: nat) {
    forall k | 0 <= k < |got| :: count <= |got[k]|
  }

  /** The root's buffer after the messages have been folded in, in the order they are received. */
  ghost function FoldIn(op: nat, own: seq<int>, got: seq<Message>): (r: seq<int>)
    requires Long(got, |own|)
    ensures |r| == |own|
  {
    if got == [] then own
    else CombineAll(op, FoldIn(op, own, got[..|got| - 1]), got[|got| - 1])
  }

  lemma FoldInStep(op: nat, own: seq<int>, got: seq<Message>, msg: Message)
    requires Long(got, |own|) && |own| <= |msg|
    ensures Long(got + [msg], |own|) && FoldIn(op, own, got + [msg]) == CombineAll(op, FoldIn(op, own, got), msg)
  {
    assert (got + [msg])[..|got|] == got;
  }

  /** The element loop: resbuf[j] = resbuf[j] op msgbuffer[j]. */
  method CombineInto(resbuf: array<int>, msgbuffer: Message, count: nat, op: nat)
    requires count <= resbuf.Length && count <= |msgbuffer|
    modifies resbuf
    ensures resbuf[..] == CombineAll(op, old(resbuf[..count]), msgbuffer) + old(resbuf[count..])
  {
    var j := 0;
    while j < count
      invariant j <= count
      invariant forall k: nat | k < j :: resbuf[k] == Combine(op, old(resbuf[k]), msgbuffer[k])
      invariant forall k: nat | j <= k < resbuf.Length :: resbuf[k] == old(resbuf[k])
    {
      resbuf[j] := Combine(op, resbuf[j], msgbuffer[j]);
      j := j + 1;
    }
  }

  ghost predicate AllArrive(feed: seq<Option<Message>>, total: nat, count: nat) {
    total <= |feed| && forall k: nat | k < total :: feed[k].Some? && count <= |feed[k].value|
  }

  /** What a Reduce does at rank r, which contributes `own`: the root folds everything it receives, in
      rank order, onto its own data; another rank sends its data and changes nothing. */
  ghost predicate ReduceEffect(n: nat, r: nat, root: nat, own: seq<int>, op: nat, feed: seq<Option<Message>>,
                               log: seq<Action>, buf: seq<int>, log': seq<Action>, buf': seq<int>)
    requires root < n && (r == root ==> |own| <= |buf| && AllArrive(feed, n - 1, |own|))
  {
    if r != root then log' == log + [Sent(root, own)] && buf' == buf
    else
      var got := Taken(feed, n - 1);
      && log' == log + FanInLog(root, got) && Long(got, |own|)
      && buf' == FoldIn(op, own, got) + buf[|own|..]
  }

  ghost predicate RanReduce(n: nat, r: nat, root: nat, own: seq<int>, op: nat, feed: seq<Option<Message>>, run: Run) {
    && r < n && root < n && (r == root ==> |own| <= |run.buf| && AllArrive(feed, n - 1, |own|))
    && run.status == 0 && ReduceEffect(n, r, root, own, op, feed, run.log, run.buf, run.log', run.buf')
  }

  method Reduce(ep: Endpoint, sendbuf: array<int>, recvbuf: array<int>, count: nat, typ: nat, op: nat, root: nat)
    returns (status: int)
    requires ep.rank < ep.size && root < ep.size && sendbuf != recvbuf && count <= sendbuf.Length && typ < 3
    requires ep.rank == root ==> count <= recvbuf.Length && AllArrive(ep.feed, ep.size - 1, count)
    modifies ep, recvbuf
    ensures status == 0
    ensures ep.feed == if ep.rank == root then old(ep.feed)[ep.size - 1..] else old(ep.feed)
    ensures ReduceEffect(ep.size, ep.rank, root, sendbuf[..count], op, old(ep.feed), old(ep.log), old(recvbuf[..]),
                         ep.log, recvbuf[..])
  {
    if ep.rank == root {
      ReduceAtRoot(ep, sendbuf, recvbuf, count, op);
    } else {
      ep.Send(root, sendbuf[..count]);
    }
    return 0;
  }

  /** The root when it has come to rank i: it has folded what it got from the ranks below. */
  ghost predicate ReduceMid(n: nat, r: nat, i: nat, op: nat, feed: seq<Option<Message>>, log: seq<Action>,
                            own: seq<int>, rest: seq<int>, feed': seq<Option<Message>>, log': seq<Action>,
                            buf': seq<int>)
  {
    && r < n && i <= n && AllArrive(feed, n - 1, |own|)
    && var got := Taken(feed, Others(r, i));
    && Long(got, |own|) && feed' == feed[Others(r, i)..]
    && log' == log + FanInLog(r, got) && buf' == FoldIn(op, own, got) + rest
  }

  lemma ReduceStarts(n: nat, r: nat, op: nat, feed: seq<Option<Message>>, log: seq<Action>, own: seq<int>,
                     rest: seq<int>, buf: seq<int>)
    requires r < n && AllArrive(feed, n - 1, |own|) && own + rest == buf
    ensures ReduceMid(n, r, 0, op, feed, log, own, rest, feed, log, buf)
  {
    assert Taken(feed, 0) == [] && FanInLog(r, []) == [];
  }

  lemma ReduceSkips(n: nat, r: nat, op: nat, feed: seq<Option<Message>>, log: seq<Action>, own: seq<int>,
                    rest: seq<int>, feed': seq<Option<Message>>, log': seq<Action>, buf': seq<int>)
    requires ReduceMid(n, r, r, op, feed, log, own, rest, feed', log', buf')
    ensures ReduceMid(n, r, r + 1, op, feed, log, own, rest, feed', log', buf')
  {
    hide FoldIn, FanInLog, Taken, Long, AllArrive;
  }

  lemma ReduceTakes(n: nat, r: nat, i: nat, op: nat, feed: seq<Option<Message>>, log: seq<Action>, own: seq<int>,
                    rest: seq<int>, feed': seq<Option<Message>>, log': seq<Action>, buf': seq<int>)
    requires ReduceMid(n, r, i, op, feed, log, own, rest, feed', log', buf') && i < n && i != r
    ensures feed' != [] && feed'[0].Some? && |own| <= |feed'[0].value| && |buf'| == |own| + |rest|
    ensures var msg := feed'[0].value;
      ReduceMid(n, r, i + 1, op, feed, log, own, rest, feed'[1..], log' + [Received(i, msg)],
                CombineAll(op, buf'[..|own|], msg) + buf'[|own|..])
  {
    var m := Others(r, i);
    var got, msg := Taken(feed, m), feed[m].value;
    TakenGrows(feed, m);
    FanInStep(r, got, i, msg);
    FoldInStep(op, own, got, msg);
    assert feed[m..][1..] == feed[m + 1..];
    assert buf'[..|own|] == FoldIn(op, own, got) && buf'[|own|..] == rest;
    hide FoldIn, FanInLog, Taken, CombineAll, Long;
    assert log' + [Received(i, msg)] == log + (FanInLog(r, got) + [Received(i, msg)]);
  }

  lemma PutFront(buf: seq<int>, own: seq<int>)
    requires |own| <= |buf|
    ensures Fits(buf, Piece(0, own)) && Put(buf, Piece(0, own)) == own + buf[|own|..]
  {
  }

  method ReduceAtRoot(ep: Endpoint, sendbuf: array<int>, recvbuf: array<int>, count: nat, op: nat)
    requires ep.rank < ep.size && sendbuf != recvbuf && count <= sendbuf.Length && count <= recvbuf.Length
    requires AllArrive(ep.feed, ep.size - 1, count)
    modifies ep, recvbuf
    ensures ReduceMid(ep.size, ep.rank, ep.size, op, old(ep.feed), old(ep.log), sendbuf[..count],
                      old(recvbuf[count..]), ep.feed, ep.log, recvbuf[..])
  {
    hide *;
    ghost var feed, log, own, rest := ep.feed, ep.log, sendbuf[..count], recvbuf[count..];
    PutFront(recvbuf[..], own);
    assert recvbuf[..][count..] == rest;
    CopyInto(recvbuf, Piece(0, sendbuf[..count]));
    ReduceStarts(ep.size, ep.rank, op, feed, log, own, rest, recvbuf[..]);
    var i := 0;
    while i < ep.size
      invariant i <= ep.size && sendbuf[..count] == own
      invariant ReduceMid(ep.size, ep.rank, i, op, feed, log, own, rest, ep.feed, ep.log, recvbuf[..])
    {
      if i != ep.rank {
        ReduceFrom(ep, i, recvbuf, count, op, feed, log, own, rest);
      } else {
        ReduceSkips(ep.size, ep.rank, op, feed, log, own, rest, ep.feed, ep.log, recvbuf[..]);
      }
      i := i + 1;
    }
  }

  method ReduceFrom(ep: Endpoint, i: nat, recvbuf: array<int>, count: nat, op: nat, ghost feed: seq<Option<Message>>,
                    ghost log: seq<Action>, ghost own: seq<int>, ghost rest: seq<int>)
    requires i < ep.size && i != ep.rank && |own| == count
    requires ReduceMid(ep.size, ep.rank, i, op, feed, log, own, rest, ep.feed, ep.log, recvbuf[..])
    modifies ep, recvbuf
    ensures ReduceMid(ep.size, ep.rank, i + 1, op, feed, log, own, rest, ep.feed, ep.log, recvbuf[..])
  {
    hide *;
    ReduceTakes(ep.size, ep.rank, i, op, feed, log, own, rest, ep.feed, ep.log, recvbuf[..]);
    assert recvbuf[..][..count] == recvbuf[..count] && recvbuf[..][count..] == recvbuf[count..];
    var msg := ep.Recv(i);
    CombineInto(recvbuf, msg.value, count, op);
  }

  /** What the receives of an Allreduce need: the lengths are those of the others' contributions. */
  ghost predicate AllreduceArrives(n: nat, r: nat, count: nat, feed: seq<Option<Message>>)
    requires n > 0
  {
    if r == 0 then AllArrive(feed, n - 1, count) else count > 0 ==> feed != []
  }

  /** What an Allreduce does at rank r: rank 0 folds and sends the result to everyone; another rank
      sends its data and takes over what comes back if it is as long.  With nothing to reduce the
      second half does nothing. */
  ghost predicate AllreduceEffect(n: nat, r: nat, own: seq<int>, op: nat, feed: seq<Option<Message>>,
                                  log: seq<Action>, buf: seq<int>, log': seq<Action>, buf': seq<int>)
    requires n > 0 && |own| <= |buf| && AllreduceArrives(n, r, |own|, feed)
  {
    if r == 0 then
      var got := Taken(feed, n - 1);
      && Long(got, |own|)
      && var total := FoldIn(op, own, got);
      && buf' == total + buf[|own|..]
      && log' == log + FanInLog(0, got) + if own == [] then [] else FanOutLog(0, Copies(n, total), n - 1)
    else if own == [] then buf' == buf && log' == log + [Sent(0, own)]
    else
      match feed[0]
      case None => buf' == buf && log' == log + [Sent(0, own)]
      case Some(msg) =>
        && log' == log + [Sent(0, own)] + [Received(0, msg)]
        && buf' == if |msg| == |own| then Put(buf, Piece(0, msg)) else buf
  }

  ghost predicate RanAllreduce(n: nat, r: nat, own: seq<int>, op: nat, feed: seq<Option<Message>>, run: Run) {
    && r < n && |own| <= |run.buf| && AllreduceArrives(n, r, |own|, feed)
    && run.status == 0 && AllreduceEffect(n, r, own, op, feed, run.log, run.buf, run.log', run.buf')
  }

  /** Reduce to rank 0, then broadcast; the result codes of the two are ignored. */
  method Allreduce(ep: Endpoint, sendbuf: array<int>, recvbuf: array<int>, count: nat, typ: nat, op: nat)
    returns (status: int)
    requires ep.rank < ep.size && sendbuf != recvbuf && count <= sendbuf.Length && count <= recvbuf.Length && typ < 3
    requires AllreduceArrives(ep.size, ep.rank, count, ep.feed)
    modifies ep, recvbuf
    ensures status == 0
    ensures AllreduceEffect(ep.size, ep.rank, sendbuf[..count], op, old(ep.feed), old(ep.log), old(recvbuf[..]),
                            ep.log, recvbuf[..])
  {
    var res := Reduce(ep, sendbuf, recvbuf, count, typ, op, 0);
    assert ep.rank == 0 ==> recvbuf[0..0 + count] == FoldIn(op, sendbuf[..count], Taken(old(ep.feed), ep.size - 1));
    assert ep.log + [] == ep.log;
    hide FoldIn, FanInLog, FanOutLog, Taken, Put;
    res := Bcast(ep, recvbuf, 0, count, R_TYPE_BYTE, 0);
    return 0;
  }

  /** The one-byte message of a barrier. */
  const Finish: Message := [48]

  /** What a Barrier does at rank r: rank 0 hears from everyone, then answers everyone; another rank
      reports and waits for the answer. */
  ghost predicate BarrierEffect(n: nat, r: nat, feed: seq<Option<Message>>, log: seq<Action>, log': seq<Action>)
    requires n > 0 && (if r == 0 then AllArrive(feed, n - 1, 0) else feed != [])
  {
    if r == 0 then log' == log + FanInLog(0, Taken(feed, n - 1)) + FanOutLog(0, Copies(n, [48]), n - 1)
    else log' == log + [Sent(0, [48])] + if feed[0].Some? then [Received(0, feed[0].value)] else []
  }

  method Barrier(ep: Endpoint) returns (status: int)
    requires ep.rank < ep.size
    requires if ep.rank == 0 then AllArrive(ep.feed, ep.size - 1, 0) else ep.feed != []
    modifies ep
    ensures status == 0
    ensures BarrierEffect(ep.size, ep.rank, old(ep.feed), old(ep.log), ep.log)
  {
    if ep.rank == 0 {
      ghost var feed, log := ep.feed, ep.log;
      assert Taken(feed, 0) == [] && FanInLog(0, []) == [];
      var i := 1;
      while i < ep.size
        invariant 1 <= i <= ep.size && ep.feed == feed[i - 1..]
        invariant ep.log == log + FanInLog(0, Taken(feed, i - 1))
      {
        TakenGrows(feed, i - 1);
        FanInStep(0, Taken(feed, i - 1), i, feed[i - 1].value);
        var buffer := ep.Recv(i);
        i := i + 1;
      }
      var finish := new int[1][48];
      assert finish[0..0 + 1] == Finish;
      hide FanInLog, FanOutLog, Taken;
      var res := Bcast(ep, finish, 0, 1, R_TYPE_BYTE, 0);
    } else {
      ep.Send(0, Finish);
      var msg := ep.Recv(0);
    }
    return 0;
  }

  // ---------------------------------------------------------------- the fold does not depend on the root

  ghost function FoldUp(op: nat, xs: seq<int>, m: nat): int
    requires 0 < m <= |xs|
  {
    if m == 1 then xs[0] else Combine(op, FoldUp(op, xs, m - 1), xs[m - 1])
  }

  /** xs[root] first, then the first m of the others in rising order. */
  ghost function FoldFrom(op: nat, xs: seq<int>, root: nat, m: nat): int
    requires root < |xs| && m < |xs|
  {
    if m == 0 then xs[root] else Combine(op, FoldFrom(op, xs, root, m - 1), xs[Skip(root, m - 1)])
  }

  lemma {:induction false} FoldFromIs(op: nat, xs: seq<int>, root: nat, m: nat)
    requires root < |xs| && m < |xs|
    ensures FoldFrom(op, xs, root, m) ==
            if m == 0 then xs[root]
            else if m <= root then Combine(op, FoldUp(op, xs, m), xs[root])
            else FoldUp(op, xs, m + 1)
  {
    if m > 0 {
      FoldFromIs(op, xs, root, m - 1);
      CombineLaws(op, FoldUp(op, xs, m), xs[root], xs[m - 1]);
      if m > 1 {
        CombineLaws(op, FoldUp(op, xs, m - 1), xs[root], xs[m - 1]);
      }
    }
  }

  lemma CombineLaws(op: nat, a: int, b: int, c: int)
    ensures Combine(op, a, b) == Combine(op, b, a)
    ensures Combine(op, Combine(op, a, b), c) == Combine(op, Combine(op, a, c), b)
  {
  }
}
