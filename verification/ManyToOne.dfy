/**
  All connection threads and the one consumer of a receiver, in any interleaving.  Every operation
  on the shared queue is one step, because it runs under the queue's lock; everything a thread does
  to its own queues happens between two such steps.
 */
module ManyToOne {
  import opened Sequences
  import opened Wrappers
  import opened Receiver

  /** What recv_ returns on a connection before it gives NULL, and what is then left in the
      socket's own queue. */
  datatype Connection = Connection(feed: seq<Frame>, left: seq<Frame>)

  datatype Phase = Ready | Splice | Clear | FlushOwn | ClearOwn | ClearMore | Closed

  datatype Thread = Thread(phase: Phase, taken: nat, more: seq<Frame>, own: seq<Frame>)

  /** `log` is everything ever put into the shared queue, with its sender; the consumer has taken
      the first `popped` of it. */
  datatype State = State(threads: seq<Thread>, log: seq<(nat, Frame)>, popped: nat)

  /** The next step of a thread, and the frames it puts into the shared queue if it works on it. */
  function Act(c: Connection, th: Thread): (r: (Thread, Option<seq<Frame>>))
    requires th.phase != Closed
  {
    match th.phase
    case Ready =>
      if th.taken < |c.feed| then
        var f := c.feed[th.taken];
        if More(f) then (th.(taken := th.taken + 1, more := th.more + [f]), None)
        else if th.more != [] then (th.(taken := th.taken + 1, more := th.more + [f], phase := Splice), None)
        else (th.(taken := th.taken + 1), Some([f]))
      else (th.(phase := FlushOwn), Some(th.more))
    case Splice => (th.(phase := Clear), Some(th.more))
    case Clear => (th.(phase := Ready, more := []), None)
    case FlushOwn => (th.(phase := ClearOwn), Some(th.own))
    case ClearOwn => (th.(phase := ClearMore, own := []), None)
    case ClearMore => (th.(phase := Closed, more := []), None)
  }

  function Tagged(t: nat, frames: seq<Frame>): (r: seq<(nat, Frame)>)
    ensures |r| == |frames| && forall i | 0 <= i < |r| :: r[i] == (t, frames[i])
  {
    seq(|frames|, i requires 0 <= i < |frames| => (t, frames[i]))
  }

  datatype Event = Move(t: nat) | Take

  ghost predicate Enabled(conns: seq<Connection>, st: State, e: Event) {
    match e
    case Move(t) => t < |conns| == |st.threads| && st.threads[t].phase != Closed
    case Take => st.popped < |st.log|
  }

  ghost function Step(conns: seq<Connection>, st: State, e: Event): State
    requires Enabled(conns, st, e)
  {
    match e
    case Move(t) =>
      var r := Act(conns[t], st.threads[t]);
      State(st.threads[t := r.0], st.log + Tagged(t, r.1.GetOr([])), st.popped)
    case Take => st.(popped := st.popped + 1)
  }

  ghost function Start(conns: seq<Connection>): State {
    State(seq(|conns|, t requires 0 <= t < |conns| => Thread(Ready, 0, [], conns[t].left)), [], 0)
  }

  ghost predicate Runs(conns: seq<Connection>, st: State, events: seq<Event>, fin: State)
    decreases |events|
  {
    if events == [] then st == fin
    else Enabled(conns, st, events[0]) && Runs(conns, Step(conns, st, events[0]), events[1..], fin)
  }

  // ---------------------------------------------------------------- what one thread writes

  /** What a thread has put into the shared queue so far, operation by operation. */
  ghost function Written(c: Connection, th: Thread): seq<seq<Frame>>
    requires th.taken <= |c.feed|
  {
    var g := Group(c.feed[..th.taken]);
    match th.phase
    case Ready | Clear => g.groups
    case Splice => if g.groups == [] then [] else g.groups[..|g.groups| - 1]
    case FlushOwn => g.groups + [g.open]
    case ClearOwn | ClearMore | Closed => g.groups + [g.open] + [c.left]
  }

  ghost predicate ThreadOk(c: Connection, th: Thread) {
    && th.taken <= |c.feed|
    && var g := Group(c.feed[..th.taken]);
    match th.phase
    case Ready => th.more == g.open && th.own == c.left
    case Splice | Clear => g.open == [] && g.groups != [] && th.more == g.groups[|g.groups| - 1] && th.own == c.left
    case FlushOwn => th.taken == |c.feed| && th.own == c.left
    case ClearOwn | ClearMore | Closed => th.taken == |c.feed|
  }

  lemma ActKeeps(c: Connection, th: Thread)
    requires ThreadOk(c, th) && th.phase != Closed
    ensures var (th', out) := Act(c, th);
      ThreadOk(c, th') && Written(c, th') == Written(c, th) + if out.Some? then [out.value] else []
  {
    if th.phase == Ready && th.taken < |c.feed| {
      PrefixGrows(c.feed, th.taken);
      GroupOneMore(c.feed[..th.taken], c.feed[th.taken]);
      hide Group;
      assert th.more == [] ==> th.more + [c.feed[th.taken]] == [c.feed[th.taken]];
    } else {
      hide Group;
    }
  }

  /** All a connection is ever to write: its whole messages, then at close the frames of an
      unfinished one, then what was left over. */
  ghost function AllOf(c: Connection): seq<seq<Frame>> {
    Group(c.feed).groups + [Group(c.feed).open] + [c.left]
  }

  lemma {:induction false} GroupsGrow(feed: seq<Frame>, k: nat)
    requires k <= |feed|
    ensures Group(feed[..k]).groups <= Group(feed).groups
    decreases |feed| - k
  {
    if k == |feed| {
      WholePrefix(feed);
    } else {
      GroupsGrow(feed, k + 1);
      PrefixGrows(feed, k);
      GroupOneMore(feed[..k], feed[k]);
    }
  }

  lemma WrittenIsPrefix(c: Connection, th: Thread)
    requires ThreadOk(c, th)
    ensures Written(c, th) <= AllOf(c)
    ensures th.phase == Closed ==> Written(c, th) == AllOf(c)
    ensures th.phase in {Ready, Splice, Clear} ==> Written(c, th) <= Group(c.feed).groups
  {
    GroupsGrow(c.feed, th.taken);
    WholePrefix(c.feed);
    hide Group;
  }

  lemma AllOfIsEverything(c: Connection)
    ensures Flat(AllOf(c)) == c.feed + c.left
    ensures forall g | g in Group(c.feed).groups :: Whole(g)
  {
    GroupCuts(c.feed);
    FlatOneMore(Group(c.feed).groups, Group(c.feed).open);
    FlatOneMore(Group(c.feed).groups + [Group(c.feed).open], c.left);
    hide Group, Flat;
  }

  // ---------------------------------------------------------------- what all of them write

  /** One operation on the shared queue. */
  type Chunk = (nat, seq<Frame>)

  ghost function Joined(chunks: seq<Chunk>): seq<(nat, Frame)> {
    if chunks == [] then []
    else var last := chunks[|chunks| - 1]; Joined(chunks[..|chunks| - 1]) + Tagged(last.0, last.1)
  }

  ghost function ChunksOf(chunks: seq<Chunk>, t: nat): seq<seq<Frame>> {
    if chunks == [] then []
    else
      var last := chunks[|chunks| - 1];
      ChunksOf(chunks[..|chunks| - 1], t) + if last.0 == t then [last.1] else []
  }

  /** What sender t has in the log. */
  ghost function Project(log: seq<(nat, Frame)>, t: nat): seq<Frame> {
    if log == [] then []
    else var last := log[|log| - 1]; Project(log[..|log| - 1], t) + if last.0 == t then [last.1] else []
  }

  ghost predicate Ok(conns: seq<Connection>, st: State, chunks: seq<Chunk>) {
    && |st.threads| == |conns| && st.popped <= |st.log| && st.log == Joined(chunks)
    && (forall t: nat | t < |conns| :: ThreadOk(conns[t], st.threads[t])
         && ChunksOf(chunks, t) == Written(conns[t], st.threads[t]))
  }

  ghost function Wrote(t: nat, out: Option<seq<Frame>>): seq<Chunk> {
    if out.Some? then [(t, out.value)] else []
  }

  lemma OneMoreChunk(chunks: seq<Chunk>, t: nat, out: Option<seq<Frame>>, q: nat)
    ensures Joined(chunks + Wrote(t, out)) == Joined(chunks) + Tagged(t, out.GetOr([]))
    ensures ChunksOf(chunks + Wrote(t, out), q) ==
            ChunksOf(chunks, q) + if q == t && out.Some? then [out.value] else []
  {
    if out.Some? {
      assert (chunks + Wrote(t, out))[..|chunks|] == chunks;
    } else {
      assert chunks + Wrote(t, out) == chunks;
    }
  }

  lemma StepKeepsOk(conns: seq<Connection>, st: State, e: Event, chunks: seq<Chunk>) returns (chunks': seq<Chunk>)
    requires Ok(conns, st, chunks) && Enabled(conns, st, e)
    ensures Ok(conns, Step(conns, st, e), chunks')
  {
    match e
    case Take => chunks' := chunks;
    case Move(t) =>
      var r := Act(conns[t], st.threads[t]);
      var st' := Step(conns, st, e);
      chunks' := chunks + Wrote(t, r.1);
      ActKeeps(conns[t], st.threads[t]);
      hide Act, Written, ThreadOk, Joined, ChunksOf, Wrote, Tagged;
      OneMoreChunk(chunks, t, r.1, t);
      forall q: nat | q < |conns|
        ensures ThreadOk(conns[q], st'.threads[q]) && ChunksOf(chunks', q) == Written(conns[q], st'.threads[q])
      {
        OneMoreChunk(chunks, t, r.1, q);
      }
  }

  lemma {:induction false} RunKeepsOk(conns: seq<Connection>, st: State, events: seq<Event>, fin: State,
                                      chunks: seq<Chunk>)
    returns (chunks': seq<Chunk>)
    requires Ok(conns, st, chunks) && Runs(conns, st, events, fin)
    ensures Ok(conns, fin, chunks')
    decreases |events|
  {
    if events == [] {
      chunks' := chunks;
    } else {
      var next := StepKeepsOk(conns, st, events[0], chunks);
      chunks' := RunKeepsOk(conns, Step(conns, st, events[0]), events[1..], fin, next);
    }
  }

  lemma StartOk(conns: seq<Connection>)
    ensures Ok(conns, Start(conns), [])
  {
    forall t: nat | t < |conns| ensures Group(conns[t].feed[..0]) == Grouping([], []) {
    }
  }

  lemma {:induction false} ProjectConcat(a: seq<(nat, Frame)>, b: seq<(nat, Frame)>, t: nat)
    ensures Project(a + b, t) == Project(a, t) + Project(b, t)
    decreases |b|
  {
    if b == [] {
      assert a + b == a;
    } else {
      var init, last := b[..|b| - 1], b[|b| - 1];
      ProjectConcat(a, init, t);
      assert a + b == a + init + [last];
      assert (a + init + [last])[..|a + init|] == a + init;
    }
  }

  lemma {:induction false} ProjectTagged(t: nat, frames: seq<Frame>, q: nat)
    ensures Project(Tagged(t, frames), q) == if q == t then frames else []
  {
    if frames != [] {
      var init := frames[..|frames| - 1];
      ProjectTagged(t, init, q);
      assert Tagged(t, frames)[..|frames| - 1] == Tagged(t, init);
      assert frames == init + [frames[|frames| - 1]];
    }
  }

  lemma {:induction false} ProjectJoined(chunks: seq<Chunk>, t: nat)
    ensures Project(Joined(chunks), t) == Flat(ChunksOf(chunks, t))
  {
    if chunks != [] {
      var init, last := chunks[..|chunks| - 1], chunks[|chunks| - 1];
      ProjectJoined(init, t);
      ProjectConcat(Joined(init), Tagged(last.0, last.1), t);
      ProjectTagged(last.0, last.1, t);
      FlatOneMore(ChunksOf(init, t), last.1);
      Empty(ChunksOf(init, t));
      Empty(Project(Joined(init), t));
    }
  }

  lemma {:induction false} FlatPrefix<T>(a: seq<seq<T>>, b: seq<seq<T>>)
    requires a <= b
    ensures Flat(a) <= Flat(b)
    decreases |b|
  {
    if a != b {
      FlatPrefix(a, b[..|b| - 1]);
    }
  }

  // ---------------------------------------------------------------- the results

  /** In every interleaving, what the shared queue has received is a sequence of operations, each
      of which put in one whole message of one connection or, when it closes, its rest; the
      operations of a connection come in the order in which its messages were sent. */
  lemma WholeMessagesOnly(conns: seq<Connection>, events: seq<Event>, st: State) returns (chunks: seq<Chunk>)
    requires Runs(conns, Start(conns), events, st)
    ensures st.log == Joined(chunks) && |st.threads| == |conns| && st.popped <= |st.log|
    ensures forall t: nat | t < |conns| :: ChunksOf(chunks, t) <= AllOf(conns[t])
    ensures forall t: nat | t < |conns| && st.threads[t].phase in {Ready, Splice, Clear} ::
      ChunksOf(chunks, t) <= Group(conns[t].feed).groups
    ensures forall t: nat | t < |conns| && st.threads[t].phase == Closed :: ChunksOf(chunks, t) == AllOf(conns[t])
  {
    StartOk(conns);
    chunks := RunKeepsOk(conns, Start(conns), events, st, []);
    hide Start, Runs, Group, AllOf, Written, ThreadOk, ChunksOf, Joined;
    forall t: nat | t < |conns| ensures ThreadOk(conns[t], st.threads[t]) {
    }
    forall t: nat | t < |conns|
      ensures ChunksOf(chunks, t) <= AllOf(conns[t])
      ensures st.threads[t].phase in {Ready, Splice, Clear} ==> ChunksOf(chunks, t) <= Group(conns[t].feed).groups
      ensures st.threads[t].phase == Closed ==> ChunksOf(chunks, t) == AllOf(conns[t])
    {
      WrittenIsPrefix(conns[t], st.threads[t]);
    }
  }

  /** The frames of one sender come out in the order in which they went in, each of them once. */
  lemma EachSenderInOrder(conns: seq<Connection>, events: seq<Event>, st: State, t: nat)
    requires Runs(conns, Start(conns), events, st) && t < |conns|
    ensures Project(st.log, t) <= conns[t].feed + conns[t].left
    ensures |st.threads| == |conns|
    ensures st.threads[t].phase == Closed ==> Project(st.log, t) == conns[t].feed + conns[t].left
  {
    var chunks := WholeMessagesOnly(conns, events, st);
    ProjectJoined(chunks, t);
    FlatPrefix(ChunksOf(chunks, t), AllOf(conns[t]));
    AllOfIsEverything(conns[t]);
  }

  /** The chunks of t that come before the last one, and where in t's stream the last one begins. */
  lemma BeforeLast(chunks: seq<Chunk>, t: nat, j: nat)
    requires chunks != [] && chunks[|chunks| - 1].0 == t && j <= |chunks[|chunks| - 1].1|
    ensures var init, last := chunks[..|chunks| - 1], chunks[|chunks| - 1];
      && ChunksOf(chunks, t) == ChunksOf(init, t) + [last.1]
      && |Joined(init)| + j <= |Joined(chunks)|
      && |Project(Joined(chunks)[..|Joined(init)| + j], t)| == |Flat(ChunksOf(init, t))| + j
  {
    var init, last := chunks[..|chunks| - 1], chunks[|chunks| - 1];
    assert Joined(chunks) == Joined(init) + Tagged(t, last.1);
    assert Joined(chunks)[..|Joined(init)| + j] == Joined(init) + Tagged(t, last.1[..j]);
    hide Joined, ChunksOf, Project, Flat;
    ProjectConcat(Joined(init), Tagged(t, last.1[..j]), t);
    ProjectTagged(t, last.1[..j], t);
    ProjectJoined(init, t);
  }

  lemma FlatAtLeast(groups: seq<seq<Frame>>, rest: seq<seq<Frame>>, m: nat)
    requires |groups| <= m <= |groups| + |rest|
    ensures |Flat(groups)| <= |Flat((groups + rest)[..m])|
  {
    assert groups <= (groups + rest)[..m];
    FlatPrefix(groups, (groups + rest)[..m]);
  }

  /** A frame of t that announces another, within the whole messages of t, is followed by one of t. */
  lemma {:induction false} FollowedInChunk(chunks: seq<Chunk>, t: nat, i: nat, groups: seq<seq<Frame>>,
                                           rest: seq<seq<Frame>>)
    requires ChunksOf(chunks, t) <= groups + rest && forall g | g in groups :: Whole(g)
    requires i < |Joined(chunks)| && Joined(chunks)[i].0 == t && More(Joined(chunks)[i].1)
    requires |Project(Joined(chunks)[..i], t)| < |Flat(groups)|
    ensures i + 1 < |Joined(chunks)| && Joined(chunks)[i + 1].0 == t
  {
    if chunks != [] {
      var init, last := chunks[..|chunks| - 1], chunks[|chunks| - 1];
      assert Joined(chunks) == Joined(init) + Tagged(last.0, last.1);
      if i < |Joined(init)| {
        assert Joined(chunks)[..i] == Joined(init)[..i];
        FollowedInChunk(init, t, i, groups, rest);
      } else {
        var j, m := i - |Joined(init)|, |ChunksOf(init, t)|;
        assert last.0 == t;
        BeforeLast(chunks, t, j);
        assert ChunksOf(init, t) == (groups + rest)[..m] && last.1 == (groups + rest)[m];
        hide ChunksOf, Joined, Project, Flat;
        if m >= |groups| {
          FlatAtLeast(groups, rest, m);
        }
        assert last.1 == groups[m] && Whole(last.1);
      }
    }
  }

  lemma ProjectLater(log: seq<(nat, Frame)>, t: nat, i: nat)
    requires i + 1 < |log| && log[i].0 == t && log[i + 1].0 == t
    ensures var pos := |Project(log[..i], t)|;
      pos + 1 < |Project(log, t)| && Project(log, t)[pos] == log[i].1 && Project(log, t)[pos + 1] == log[i + 1].1
  {
    assert log[..i + 1] == log[..i] + [log[i]] && log[..i + 2] == log[..i + 1] + [log[i + 1]];
    assert log == log[..i + 2] + log[i + 2..];
    ProjectLast(log[..i], log[i], t);
    ProjectLast(log[..i + 1], log[i + 1], t);
    hide Project;
    ProjectConcat(log[..i + 2], log[i + 2..], t);
  }

  lemma ProjectLast(log: seq<(nat, Frame)>, e: (nat, Frame), t: nat)
    requires e.0 == t
    ensures Project(log + [e], t) == Project(log, t) + [e.1]
  {
    assert (log + [e])[..|log|] == log;
  }

  /** The messages that sender t completed before its close. */
  ghost function WholeMessages(conns: seq<Connection>, t: nat): seq<seq<Frame>>
    requires t < |conns|
  {
    Group(conns[t].feed).groups
  }

  /** Multi-frame messages stay together, also through the flush at close: the consumer that gets a frame
      announcing another, of a message that its sender completed before its close, gets the next frame
      of that message next; no other sender's frame comes between, and it is there already. */
  lemma MessagesStayTogether(conns: seq<Connection>, events: seq<Event>, st: State, i: nat)
    requires Runs(conns, Start(conns), events, st) && i < |st.log| && st.log[i].1.flag == 128 && st.log[i].0 < |conns|
    requires |Project(st.log[..i], st.log[i].0)| < |Flat(WholeMessages(conns, st.log[i].0))|
    ensures var (t, pos) := (st.log[i].0, |Project(st.log[..i], st.log[i].0)|);
      && i + 1 < |st.log| && pos + 1 < |conns[t].feed + conns[t].left|
      && st.log[i] == (t, (conns[t].feed + conns[t].left)[pos])
      && st.log[i + 1] == (t, (conns[t].feed + conns[t].left)[pos + 1])
  {
    var t := st.log[i].0;
    var chunks := WholeMessagesOnly(conns, events, st);
    AllOfIsEverything(conns[t]);
    EachSenderInOrder(conns, events, st, t);
    var c := conns[t];
    assert AllOf(c) == Group(c.feed).groups + [Group(c.feed).open, c.left];
    hide Runs, Group, Whole, Flat, Project, ChunksOf, Joined, AllOf;
    FollowedInChunk(chunks, t, i, Group(c.feed).groups, [Group(c.feed).open, c.left]);
    ProjectLater(st.log, t, i);
  }

  lemma ProjectInside(log: seq<(nat, Frame)>, t: nat, i: nat)
    requires i < |log| && log[i].0 == t
    ensures |Project(log[..i], t)| < |Project(log, t)|
  {
    assert log == log[..i] + [log[i]] + log[i + 1..];
    hide *;
    ProjectLast(log[..i], log[i], t);
    ProjectConcat(log[..i] + [log[i]], log[i + 1..], t);
  }

  /** As long as a connection is open, all of its frames in the queue are of such messages. */
  lemma OpenMeansWhole(conns: seq<Connection>, events: seq<Event>, st: State, i: nat)
    requires Runs(conns, Start(conns), events, st) && i < |st.log|
    requires var t := st.log[i].0; t < |conns| == |st.threads| && st.threads[t].phase in {Ready, Splice, Clear}
    ensures |Project(st.log[..i], st.log[i].0)| < |Flat(WholeMessages(conns, st.log[i].0))|
  {
    var t := st.log[i].0;
    var chunks := WholeMessagesOnly(conns, events, st);
    hide Runs, Group, ChunksOf, Joined, Project, Flat;
    ProjectJoined(chunks, t);
    FlatPrefix(ChunksOf(chunks, t), WholeMessages(conns, t));
    ProjectInside(st.log, t, i);
  }

  /** So on an open connection a frame that announces another is directly followed by it. */
  lemma FramesStayTogether(conns: seq<Connection>, events: seq<Event>, st: State, i: nat)
    requires Runs(conns, Start(conns), events, st) && i < |st.log| && st.log[i].1.flag == 128
    requires var t := st.log[i].0; t < |conns| == |st.threads| && st.threads[t].phase in {Ready, Splice, Clear}
    ensures i + 1 < |st.log| && st.log[i + 1].0 == st.log[i].0
  {
    hide *;
    OpenMeansWhole(conns, events, st, i);
    MessagesStayTogether(conns, events, st, i);
  }
}
