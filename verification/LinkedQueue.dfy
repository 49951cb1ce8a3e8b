/**
  The linked list behind every queue of a socket and of a receiver.

  `nodes` is the chain from head to tail and `repr` the set of its nodes.  A node is live from its
  allocation until queue_pop frees it; no operation may touch a node that is not.
 */
module LinkedQueue {
  import opened Sequences
  import opened Wrappers

  class Node<T> {
    const buffer: T
    var next: Node?<T>
    ghost var live: bool

    constructor (buffer: T)
      ensures this.buffer == buffer && next == null && live
    {
      this.buffer, this.next, this.live := buffer, null, true;
    }
  }

  // ---------------------------------------------------------------- chains of nodes

  /** Distinct live nodes, all of them in repr, the first `len` pointing at the one behind them. */
  ghost predicate Linked<T>(nodes: seq<Node<T>>, repr: set<Node<T>>, len: nat)
    reads repr
  {
    && (forall j | 0 <= j < |nodes| :: nodes[j] in repr)
    && (forall j, k | 0 <= j < k < |nodes| :: nodes[j] != nodes[k])
    && (forall n | n in repr :: n.live)
    && (forall j | 0 <= j < len && j + 1 < |nodes| :: nodes[j].next == nodes[j + 1])
  }

  ghost predicate Chain<T>(nodes: seq<Node<T>>, repr: set<Node<T>>)
    reads repr
  {
    Linked(nodes, repr, |nodes|) && (nodes != [] ==> nodes[|nodes| - 1].next == null)
  }

  lemma ChainTail<T>(nodes: seq<Node<T>>, repr: set<Node<T>>)
    requires Chain(nodes, repr) && nodes != []
    ensures Chain(nodes[1..], repr - {nodes[0]}) && nodes[0] in repr
    ensures nodes[0].next == if |nodes| == 1 then null else nodes[1]
  {
  }

  lemma ChainJoin<T>(a: seq<Node<T>>, ra: set<Node<T>>, b: seq<Node<T>>, rb: set<Node<T>>)
    requires a != [] && b != [] && Linked(a, ra, |a| - 1) && a[|a| - 1].next == b[0] && Chain(b, rb)
    requires ra !! rb
    ensures Chain(a + b, ra + rb)
  {
    var c := a + b;
    forall j | 0 <= j < |c| && j + 1 < |c| ensures c[j].next == c[j + 1] {
      if j >= |a| {
        assert c[j] == b[j - |a|] && c[j + 1] == b[j - |a| + 1];
      }
    }
  }

  lemma NothingBefore<T>(a: seq<Node<T>>, ra: set<Node<T>>, b: seq<Node<T>>, rb: set<Node<T>>)
    requires a == [] && Chain(a, ra) && Chain(b, rb)
    ensures Chain(a + b, ra + rb) && a + b == b
  {
    assert a + b == b;
  }

  lemma NothingBehind<T>(a: seq<Node<T>>, ra: set<Node<T>>, b: seq<Node<T>>, rb: set<Node<T>>)
    requires b == [] && Chain(a, ra) && Chain(b, rb)
    ensures Chain(a + b, ra + rb) && a + b == a
  {
    assert a + b == a;
  }

  lemma JoinedEnds<A>(a: seq<A>, b: seq<A>)
    requires b != []
    ensures (a + b)[0] == (if a == [] then b[0] else a[0]) && (a + b)[|a + b| - 1] == b[|b| - 1]
  {
  }

  /** The last node of one chain is made to point at the first of another. */
  method Attach<T>(last: Node<T>, first: Node?<T>, ghost a: seq<Node<T>>, ghost ra: set<Node<T>>,
                   ghost b: seq<Node<T>>, ghost rb: set<Node<T>>)
    requires a != [] && b != [] && Chain(a, ra) && Chain(b, rb) && last == a[|a| - 1] && first == b[0]
    requires ra !! rb
    modifies last
    ensures Chain(a + b, ra + rb)
  {
    last.next := first;
    ChainJoin(a, ra, b, rb);
  }

  ghost function Buffers<T>(nodes: seq<Node<T>>): (s: seq<T>)
    ensures |s| == |nodes| && forall i | 0 <= i < |s| :: s[i] == nodes[i].buffer
  {
    seq(|nodes|, i requires 0 <= i < |nodes| => nodes[i].buffer)
  }

  lemma BuffersJoin<T>(a: seq<Node<T>>, b: seq<Node<T>>)
    ensures Buffers(a + b) == Buffers(a) + Buffers(b)
  {
  }

  lemma BuffersDrop<T>(a: seq<Node<T>>, m: nat)
    requires m <= |a|
    ensures Buffers(a[m..]) == Buffers(a)[m..]
  {
  }

  // ---------------------------------------------------------------- the queue

  class Queue<T> {
    var head: Node?<T>
    var tail: Node?<T>
    var nodeNum: int
    ghost var nodes: seq<Node<T>>
    ghost var repr: set<Node<T>>

    ghost predicate Ends()
      reads this
    {
      if nodes == [] then head == null && tail == null else head == nodes[0] && tail == nodes[|nodes| - 1]
    }

    ghost predicate Valid()
      reads this, repr
    {
      Ends() && nodeNum == |nodes| && Chain(nodes, repr)
    }

    /** The messages in the queue, oldest first. */
    ghost function Contents(): (s: seq<T>)
      reads this
      ensures |s| == |nodes|
    {
      Buffers(nodes)
    }

    constructor ()
      ensures Valid() && Contents() == [] && repr == {}
    {
      head, tail, nodeNum, nodes, repr := null, null, 0, [], {};
    }

    /** Hang a chain of nodes behind the tail. */
    method Extend(first: Node<T>, last: Node<T>, ghost ns: seq<Node<T>>, ghost rs: set<Node<T>>)
      requires Ends() && Chain(nodes, repr) && repr !! rs
      requires ns != [] && Chain(ns, rs) && first == ns[0] && last == ns[|ns| - 1]
      modifies this, tail
      ensures Ends() && Chain(nodes, repr) && nodes == old(nodes) + ns && repr == old(repr) + rs
      ensures nodeNum == old(nodeNum)
    {
      hide Chain;
      ghost var joined := nodes + ns;
      JoinedEnds(nodes, ns);
      if tail != null {
        Attach(tail, first, nodes, repr, ns, rs);
      } else {
        NothingBefore(nodes, repr, ns, rs);
        head := first;
      }
      tail := last;
      nodes, repr := joined, repr + rs;
    }

    method Push(buffer: T)
      requires Valid()
      modifies this, repr
      ensures Valid() && Contents() == old(Contents()) + [buffer]
      ensures old(repr) <= repr && fresh(repr - old(repr))
      ensures old(nodes) <= nodes
    {
      var newNode := new Node(buffer);
      assert Chain([newNode], {newNode});
      assert tail != null ==> tail in repr;
      hide Chain, Buffers;
      BuffersJoin(nodes, [newNode]);
      Extend(newNode, newNode, [newNode], {newNode});
      nodeNum := nodeNum + 1;
    }

    method Pop() returns (r: Option<T>)
      requires Valid()
      modifies this, repr
      ensures Valid() && repr <= old(repr)
      ensures r == if old(Contents()) == [] then None else Some(old(Contents())[0])
      ensures Contents() == if old(Contents()) == [] then [] else old(Contents())[1..]
      ensures nodes == if old(nodes) == [] then [] else old(nodes)[1..]
      ensures old(nodes) != [] ==> !old(nodes)[0].live && repr == old(repr) - {old(nodes)[0]}
    {
      var oldHead := head;
      if oldHead == null {
        return None;
      }
      ChainTail(nodes, repr);
      BuffersDrop(nodes, 1);
      hide Linked;
      r := Some(oldHead.buffer);
      head := oldHead.next;
      if head == null {
        tail := null;
      }
      nodes, repr := nodes[1..], repr - {oldHead};
      nodeNum := nodeNum - 1;
      oldHead.live := false;
    }

    method IfEmpty() returns (empty: bool)
      requires Valid()
      ensures empty <==> Contents() == []
    {
      empty := tail == null;
    }

    /** queue_push_q: take over the chain of src in constant time.  Until src is reset it still
        points at nodes that are no longer its own. */
    method PushQ(src: Queue<T>)
      requires Valid() && src.Valid() && this != src && repr !! src.repr
      modifies this, repr
      ensures Valid() && Contents() == old(Contents()) + src.Contents()
      ensures nodes == old(nodes) + src.nodes && repr == old(repr) + src.repr
    {
      assert tail != null ==> tail in repr;
      hide Chain, Buffers;
      BuffersJoin(nodes, src.nodes);
      if src.tail != null {
        Extend(src.head, src.tail, src.nodes, src.repr);
      } else {
        NothingBehind(nodes, repr, src.nodes, src.repr);
        nodes, repr := nodes + src.nodes, repr + src.repr;
      }
      nodeNum := nodeNum + src.nodeNum;
    }

    /** queue_reset: forget the chain without looking at it; its nodes may be gone by now. */
    method Reset()
      modifies this
      ensures Valid() && Contents() == [] && nodes == [] && repr == {}
    {
      head, tail, nodeNum, nodes, repr := null, null, 0, [], {};
    }
  }

  // ---------------------------------------------------------------- other threads during a splice

  /** What the consumer and other senders do to a queue: None takes the oldest message, Some adds one. */
  type Others<T> = seq<Option<T>>

  function Added<T>(op: Option<T>): seq<T> {
    if op.Some? then [op.value] else []
  }

  function Pushed<T>(ops: Others<T>): seq<T> {
    if ops == [] then [] else Added(ops[0]) + Pushed(ops[1..])
  }

  /** How many of len nodes are gone when k messages have been taken. */
  function Gone(k: nat, len: nat): (m: nat)
    ensures m <= k && m <= len && (m < k ==> m == len)
  {
    if k < len then k else len
  }

  ghost predicate AllFreed<T>(nodes: seq<Node<T>>)
    reads nodes
  {
    forall n | n in nodes :: !n.live
  }

  lemma TakeOne<A>(s: seq<A>, k: nat)
    requires s != []
    ensures Gone(k + 1, |s|) == Gone(k, |s| - 1) + 1
    ensures s[1..][Gone(k, |s| - 1)..] == s[Gone(k + 1, |s|)..]
    ensures s[..Gone(k + 1, |s|)] == [s[0]] + s[1..][..Gone(k, |s| - 1)]
  {
  }

  lemma AddOne<A>(s: seq<A>, t: seq<A>, k: nat)
    requires s <= t
    ensures s[..Gone(k, |s|)] <= t[..Gone(k, |t|)]
  {
  }

  lemma FreedPrefix<T>(a: seq<Node<T>>, b: seq<Node<T>>)
    requires a <= b && AllFreed(b)
    ensures AllFreed(a)
  {
    forall n | n in a ensures !n.live {
      var i :| 0 <= i < |a| && a[i] == n;
      assert b[i] == n;
    }
  }

  lemma FreedOneMore<T>(n: Node<T>, rest: seq<Node<T>>)
    requires !n.live && AllFreed(rest)
    ensures AllFreed([n] + rest)
  {
  }

  lemma Regroup<A>(popped: seq<A>, now: seq<A>, next: seq<A>, pushed: seq<A>, x: seq<A>)
    requires popped + now == next + pushed
    ensures x + popped + now == x + next + pushed
  {
    assert x + popped + now == x + (popped + now) && x + next + pushed == x + (next + pushed);
  }

  /** The others do all that they do: what has been taken and what is in the queue now is, in order, what was
      in it and what has been added; the nodes of the messages taken are freed. */
  method OthersAct<T>(q: Queue<T>, ops: Others<T>) returns (popped: seq<T>)
    requires q.Valid()
    modifies q, q.repr
    ensures q.Valid() && fresh(q.repr - old(q.repr))
    ensures popped + q.Contents() == old(q.Contents()) + Pushed(ops)
    ensures AllFreed(old(q.nodes)[..Gone(|popped|, old(|q.nodes|))])
    decreases |ops|, 1
  {
    hide *;
    if ops == [] {
      NothingPushed(q.Contents());
      AllFreedNone(q.nodes);
      return [];
    } else if ops[0].Some? {
      popped := PushThenOthers(q, ops);
    } else {
      popped := PopThenOthers(q, ops);
    }
  }

  lemma NothingPushed<T>(s: seq<T>)
    ensures [] + s == s + Pushed([])
  {
  }

  lemma AllFreedNone<T>(nodes: seq<Node<T>>)
    ensures AllFreed(nodes[..Gone(0, |nodes|)])
  {
  }

  lemma PushedFirst<T>(ops: Others<T>)
    requires ops != []
    ensures Pushed(ops) == Added(ops[0]) + Pushed(ops[1..])
  {
  }

  method PushThenOthers<T>(q: Queue<T>, ops: Others<T>) returns (popped: seq<T>)
    requires q.Valid() && ops != [] && ops[0].Some?
    modifies q, q.repr
    ensures q.Valid() && fresh(q.repr - old(q.repr))
    ensures popped + q.Contents() == old(q.Contents()) + Pushed(ops)
    ensures AllFreed(old(q.nodes)[..Gone(|popped|, old(|q.nodes|))])
    decreases |ops|, 0
  {
    ghost var was, nodes, x := q.Contents(), q.nodes, Added(ops[0]);
    assert x == [ops[0].value];
    PushedFirst(ops);
    hide Queue.Valid, Queue.Contents, Pushed, Gone, Added;
    q.Push(ops[0].value);
    ghost var more := q.nodes;
    popped := OthersAct(q, ops[1..]);
    AddOne(nodes, more, |popped|);
    FreedPrefix(nodes[..Gone(|popped|, |nodes|)], more[..Gone(|popped|, |more|)]);
    Associative(was, x, Pushed(ops[1..]));
  }

  method PopThenOthers<T>(q: Queue<T>, ops: Others<T>) returns (popped: seq<T>)
    requires q.Valid() && ops != [] && ops[0].None?
    modifies q, q.repr
    ensures q.Valid() && fresh(q.repr - old(q.repr))
    ensures popped + q.Contents() == old(q.Contents()) + Pushed(ops)
    ensures AllFreed(old(q.nodes)[..Gone(|popped|, old(|q.nodes|))])
    decreases |ops|, 0
  {
    ghost var was, nodes := q.Contents(), q.nodes;
    PopsFirst(q, ops);
    hide *;
    var r := q.Pop();
    popped := OthersAct(q, ops[1..]);
    if r.Some? {
      TakenFirst(was, nodes, popped, q.Contents(), Pushed(ops[1..]));
      popped := [r.value] + popped;
    }
  }

  lemma TakenFirst<T>(was: seq<T>, nodes: seq<Node<T>>, popped: seq<T>, now: seq<T>, pushed: seq<T>)
    requires was != [] && nodes != [] && !nodes[0].live
    requires popped + now == was[1..] + pushed && AllFreed(nodes[1..][..Gone(|popped|, |nodes[1..]|)])
    ensures [was[0]] + popped + now == was + pushed
    ensures AllFreed(nodes[..Gone(|popped| + 1, |nodes|)])
  {
    TakeOne(nodes, |popped|);
    FreedOneMore(nodes[0], nodes[1..][..Gone(|popped|, |nodes| - 1)]);
    Regroup(popped, now, was[1..], pushed, [was[0]]);
    assert was == [was[0]] + was[1..];
    hide *;
  }

  lemma PopsFirst<T>(q: Queue<T>, ops: Others<T>)
    requires q.Valid() && ops != [] && ops[0].None?
    ensures Pushed(ops) == Pushed(ops[1..])
    ensures q.Contents() != [] ==> q.Contents() == [q.Contents()[0]] + q.Contents()[1..] && |q.nodes| == |q.Contents()|
    ensures q.nodes == [] ==> q.Contents() == []
    ensures q.nodes != [] ==> q.nodes[0] !in q.nodes[1..] && q.nodes[0] in q.repr
  {
    PushedFirst(ops);
    Empty(Pushed(ops[1..]));
    if q.nodes != [] {
      HeadOnce(q);
    }
    hide Pushed;
  }

  lemma HeadOnce<T>(q: Queue<T>)
    requires q.Valid() && q.nodes != []
    ensures q.nodes[0] !in q.nodes[1..] && q.nodes[0] in q.repr
  {
  }

  /** The splice of a whole queue into another one, when the consumer takes messages and other senders add
      theirs before the source is reset: the two sequences stay together, in order and with nothing in
      between, the nodes of messages that are taken are freed although the source still points at
      them, and the source ends up empty. */
  method Splice<T>(de: Queue<T>, src: Queue<T>, ops: Others<T>) returns (popped: seq<T>)
    requires de.Valid() && src.Valid() && de != src && de.repr !! src.repr
    modifies de, de.repr, src, src.repr
    ensures de.Valid() && src.Valid() && de.repr !! src.repr && src.Contents() == []
    ensures popped + de.Contents() == old(de.Contents()) + old(src.Contents()) + Pushed(ops)
    ensures var nodes := old(de.nodes) + old(src.nodes);
      AllFreed(nodes[..Gone(|popped|, |nodes|)])
  {
    hide *;
    de.PushQ(src);
    popped := OthersAct(de, ops);
    src.Reset();
  }
}
