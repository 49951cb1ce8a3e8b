/**
  Many senders, one receiver: every connection has a thread that moves its messages into the
  shared queue, holding back the frames of a multi-frame message until the last one is there.
 */
module Receiver {
  import opened Sequences
  import opened Wrappers
  import opened LinkedQueue

  const SND_MORE_FLAG := 128

  datatype Frame = Frame(flag: int, data: seq<int>)

  predicate More(f: Frame) {
    f.flag == SND_MORE_FLAG
  }

  /** The whole multi-frame messages in a sequence of frames, and the frames of the one still open. */
  datatype Grouping = Grouping(groups: seq<seq<Frame>>, open: seq<Frame>)

  function Group(frames: seq<Frame>): (g: Grouping) {
    if frames == [] then Grouping([], [])
    else
      var g, last := Group(frames[..|frames| - 1]), frames[|frames| - 1];
      if More(last) then Grouping(g.groups, g.open + [last]) else Grouping(g.groups + [g.open + [last]], [])
  }

  function Flat<T>(groups: seq<seq<T>>): seq<T> {
    if groups == [] then [] else Flat(groups[..|groups| - 1]) + groups[|groups| - 1]
  }

  lemma FlatOneMore<T>(groups: seq<seq<T>>, g: seq<T>)
    ensures Flat(groups + [g]) == Flat(groups) + g
  {
    assert (groups + [g])[..|groups|] == groups;
  }

  lemma GroupOneMore(frames: seq<Frame>, f: Frame)
    ensures var g := Group(frames);
      Group(frames + [f]) == if More(f) then Grouping(g.groups, g.open + [f])
        else Grouping(g.groups + [g.open + [f]], [])
  {
    assert (frames + [f])[..|frames|] == frames;
  }

  /** A complete message: any number of frames that announce another one, by flag 128, then one that does not. */
  ghost predicate Whole(g: seq<Frame>) {
    g != [] && g[|g| - 1].flag != 128 && forall i | 0 <= i < |g| - 1 :: g[i].flag == 128
  }

  lemma CutOneMore(flat: seq<Frame>, open: seq<Frame>, last: Frame)
    ensures flat + open + [last] == flat + (open + [last])
    ensures flat + (open + [last]) + [] == flat + (open + [last])
  {
  }

  /** Grouping only cuts: nothing is lost, added or moved; every group is a complete message, frames of flag
      128 and a last one of another flag, and the rest is frames of flag 128. */
  lemma {:induction false} GroupCuts(frames: seq<Frame>)
    ensures Flat(Group(frames).groups) + Group(frames).open == frames
    ensures forall g | g in Group(frames).groups :: Whole(g)
    ensures forall f: Frame | f in Group(frames).open :: f.flag == 128
  {
    if frames != [] {
      var init, last := frames[..|frames| - 1], frames[|frames| - 1];
      assert frames == init + [last];
      var g := Group(init);
      GroupCuts(init);
      GroupOneMore(init, last);
      FlatOneMore(g.groups, g.open + [last]);
      hide *;
      CutOneMore(Flat(g.groups), g.open, last);
    }
  }

  // ---------------------------------------------------------------- one thread, on its queues

  /** What recv_process does with a message. */
  method Handle(msg: Frame, more: Queue<Frame>, shared: Queue<Frame>)
    requires more.Valid() && shared.Valid() && more != shared && more.repr !! shared.repr
    modifies more, more.repr, shared, shared.repr
    ensures more.Valid() && shared.Valid() && more.repr !! shared.repr
    ensures more.Contents() == if msg.flag == 128 then old(more.Contents()) + [msg] else []
    ensures shared.Contents() ==
            if msg.flag == 128 then old(shared.Contents()) else old(shared.Contents()) + (old(more.Contents()) + [msg])
    ensures fresh(more.repr + shared.repr - old(more.repr) - old(shared.repr))
  {
    hide Chain, Buffers;
    if msg.flag == SND_MORE_FLAG {
      more.Push(msg);
    } else {
      var empty := more.IfEmpty();
      if !empty {
        more.Push(msg);
        shared.PushQ(more);
        more.Reset();
      } else {
        shared.Push(msg);
        assert [] + [msg] == [msg];
      }
    }
  }

  /** What it does when recv_ gives NULL: first the frames still held back, then what is left in
      the socket's own queue. */
  method Flush(more: Queue<Frame>, own: Queue<Frame>, shared: Queue<Frame>)
    requires more.Valid() && own.Valid() && shared.Valid()
    requires more != shared && own != shared && own != more
    requires more.repr !! shared.repr && own.repr !! shared.repr && own.repr !! more.repr
    modifies more, own, shared, shared.repr, more.repr
    ensures more.Valid() && own.Valid() && shared.Valid() && more.Contents() == own.Contents() == []
    ensures shared.Contents() == old(shared.Contents()) + old(more.Contents()) + old(own.Contents())
    ensures shared.repr == old(shared.repr) + old(more.repr) + old(own.repr)
  {
    hide Chain, Buffers;
    shared.PushQ(more);
    shared.PushQ(own);
    own.Reset();
    more.Reset();
  }

  /** After the frames `done` the shared queue, once `before`, has received the whole messages among
      them and the frames of the open one are held back. */
  ghost predicate Holding(done: seq<Frame>, before: seq<Frame>, held: seq<Frame>, now: seq<Frame>) {
    held == Group(done).open && now == before + Flat(Group(done).groups)
  }

  lemma HoldingStep(done: seq<Frame>, before: seq<Frame>, held: seq<Frame>, now: seq<Frame>, msg: Frame)
    requires Holding(done, before, held, now)
    ensures Holding(done + [msg], before, if More(msg) then held + [msg] else [],
                    if More(msg) then now else now + (held + [msg]))
  {
    GroupOneMore(done, msg);
    FlatOneMore(Group(done).groups, held + [msg]);
    hide Group, Flat;
    Associative(before, Flat(Group(done).groups), held + [msg]);
  }

  lemma HoldingStarts(before: seq<Frame>)
    ensures Holding([], before, [], before)
  {
    assert before + [] == before;
  }

  lemma HoldingEnds(done: seq<Frame>, before: seq<Frame>, held: seq<Frame>, now: seq<Frame>)
    requires Holding(done, before, held, now)
    ensures now + held == before + done
  {
    GroupCuts(done);
    hide Group, Flat;
    Associative(before, Flat(Group(done).groups), held);
  }

  method HandleNext(msg: Frame, more: Queue<Frame>, shared: Queue<Frame>, ghost done: seq<Frame>,
                    ghost before: seq<Frame>)
    requires more.Valid() && shared.Valid() && more != shared && more.repr !! shared.repr
    requires Holding(done, before, more.Contents(), shared.Contents())
    modifies more, more.repr, shared, shared.repr
    ensures more.Valid() && shared.Valid() && more.repr !! shared.repr
    ensures fresh(more.repr + shared.repr - old(more.repr) - old(shared.repr))
    ensures Holding(done + [msg], before, more.Contents(), shared.Contents())
  {
    HoldingStep(done, before, more.Contents(), shared.Contents(), msg);
    hide Holding, Chain, Buffers;
    Handle(msg, more, shared);
  }

  /** The whole thread on its own: `feed` is what recv_ returns before it gives NULL.  Whenever it
      calls recv_ the shared queue has received whole messages only. */
  method RecvProcess(feed: seq<Frame>, more: Queue<Frame>, own: Queue<Frame>, shared: Queue<Frame>)
    requires more.Valid() && own.Valid() && shared.Valid() && more.Contents() == []
    requires more != shared && own != shared && own != more
    requires more.repr !! shared.repr && own.repr !! shared.repr && own.repr !! more.repr
    modifies more, more.repr, own, shared, shared.repr
    ensures more.Valid() && own.Valid() && shared.Valid() && more.Contents() == own.Contents() == []
    ensures shared.Contents() == old(shared.Contents()) + feed + old(own.Contents())
  {
    ghost var before := shared.Contents();
    HoldingStarts(before);
    hide Chain, Buffers, Holding;
    var k := 0;
    while k < |feed|
      invariant 0 <= k <= |feed|
      invariant more.Valid() && own.Valid() && shared.Valid()
      invariant more.repr !! shared.repr && own.repr !! shared.repr && own.repr !! more.repr
      invariant own.Contents() == old(own.Contents()) && own.repr == old(own.repr)
      invariant fresh(more.repr + shared.repr - old(more.repr) - old(shared.repr))
      invariant Holding(feed[..k], before, more.Contents(), shared.Contents())
    {
      hide *;
      PrefixGrows(feed, k);
      HandleNext(feed[k], more, shared, feed[..k], before);
      k := k + 1;
    }
    WholePrefix(feed);
    HoldingEnds(feed, before, more.Contents(), shared.Contents());
    Flush(more, own, shared);
  }
}
