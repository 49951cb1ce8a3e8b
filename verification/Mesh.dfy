/**
  Start-up of the mesh: every process opens its port, connects to all higher ranks in order and then
  accepts as many connections as its own rank, in whatever order they come, filing each under the
  rank that the client names.

  A connection is made in four steps, because both sides wait: the client asks, the server accepts,
  the client sends its rank and files its end, the server reads the rank and files the other end.
 */
module Mesh {
  import opened Wrappers

  datatype Stage = Requested | Accepted | Named | Filed

  /** A connection; `id` is the rank the client has sent, once it is named. */
  datatype Conn = Conn(client: nat, server: nat, stage: Stage, id: nat)

  datatype Socket = ClientEnd(conn: nat) | ServerEnd(conn: nat)

  /** setupAsServer, setupAsClient, setupAccept. */
  datatype Phase =
    | Init
    | Connecting(rank: nat, asked: Option<nat>)
    | Accepting(count: nat, open: Option<nat>)
    | Ready

  datatype Proc = Proc(phase: Phase, pool: seq<Option<Socket>>)

  datatype State = State(procs: seq<Proc>, conns: seq<Conn>)

  function Start(n: nat): State {
    State(seq(n, _ => Proc(Init, seq(n, _ => None))), [])
  }

  datatype Event =
    | OpenPort(p: nat)
    | Request(p: nat)
    | Accept(p: nat, conn: nat)
    | Greet(p: nat)
    | File(p: nat)
    | StartAccepting(p: nat)
    | Finish(p: nat)

  /** Indices that the state itself keeps in range. */
  ghost predicate InRange(st: State, e: Event) {
    var n := |st.procs|;
    && e.p < n
    && |st.procs[e.p].pool| == n
    && match st.procs[e.p].phase
       case Connecting(_, Some(c)) => c < |st.conns|
       case Accepting(_, Some(c)) => c < |st.conns| && (e.File? ==> st.conns[c].id < n)
       case _ => true
  }

  ghost predicate Can(st: State, e: Event) {
    var n := |st.procs|;
    && InRange(st, e)
    && var phase := st.procs[e.p].phase;
    match e
    case OpenPort(_) => phase.Init?
    case Request(_) => phase.Connecting? && phase.asked.None? && phase.rank < n && !st.procs[phase.rank].phase.Init?
    case Accept(p, c) =>
      && phase.Accepting? && phase.open.None? && phase.count < p
      && c < |st.conns| && st.conns[c].server == p && st.conns[c].stage == Requested
    case Greet(_) =>
      phase.Connecting? && phase.asked.Some? && phase.rank < n && st.conns[phase.asked.value].stage == Accepted
    case File(_) => phase.Accepting? && phase.open.Some? && st.conns[phase.open.value].stage == Named
    case StartAccepting(_) => phase == Connecting(n, None)
    case Finish(p) => phase == Accepting(p, None)
  }

  function WithPhase(st: State, p: nat, phase: Phase): State
    requires p < |st.procs|
  {
    st.(procs := st.procs[p := st.procs[p].(phase := phase)])
  }

  function WithSocket(st: State, p: nat, rank: nat, s: Socket): State
    requires p < |st.procs| && rank < |st.procs[p].pool|
  {
    st.(procs := st.procs[p := st.procs[p].(pool := st.procs[p].pool[rank := Some(s)])])
  }

  function WithStage(st: State, c: nat, stage: Stage): State
    requires c < |st.conns|
  {
    st.(conns := st.conns[c := st.conns[c].(stage := stage)])
  }

  ghost function Step(st: State, e: Event): State
    requires Can(st, e)
  {
    var phase := st.procs[e.p].phase;
    match e
    case OpenPort(p) => WithPhase(st, p, Connecting(p + 1, None))
    case Request(p) =>
      WithPhase(st.(conns := st.conns + [Conn(p, phase.rank, Requested, 0)]), p,
                Connecting(phase.rank, Some(|st.conns|)))
    case Accept(p, c) => WithPhase(WithStage(st, c, Accepted), p, Accepting(phase.count, Some(c)))
    case Greet(p) =>
      var c := phase.asked.value;
      var named := st.(conns := st.conns[c := st.conns[c].(stage := Named, id := p)]);
      WithPhase(WithSocket(named, p, phase.rank, ClientEnd(c)), p, Connecting(phase.rank + 1, None))
    case File(p) =>
      var c := phase.open.value;
      WithPhase(WithSocket(WithStage(st, c, Filed), p, st.conns[c].id, ServerEnd(c)), p,
                Accepting(phase.count + 1, None))
    case StartAccepting(p) => WithPhase(st, p, Accepting(0, None))
    case Finish(p) => WithPhase(st, p, Ready)
  }

  ghost predicate Runs(st: State, events: seq<Event>, fin: State)
    decreases |events|
  {
    if events == [] then st == fin else Can(st, events[0]) && Runs(Step(st, events[0]), events[1..], fin)
  }

  ghost predicate Reachable(n: nat, st: State) {
    exists events :: Runs(Start(n), events, st)
  }

  // ---------------------------------------------------------------- the invariant

  /** How far a process has come with connecting: it has its ends to all ranks between its own and
      this one. */
  function Connected(n: nat, p: nat, phase: Phase): nat {
    match phase
    case Init => p + 1
    case Connecting(k, _) => k
    case _ => n
  }

  function AcceptedCount(p: nat, phase: Phase): nat {
    match phase
    case Accepting(count, _) => count
    case Ready => p
    case _ => 0
  }

  function CountFiled(pool: seq<Option<Socket>>, upto: nat): nat
    requires upto <= |pool|
  {
    if upto == 0 then 0 else CountFiled(pool, upto - 1) + if pool[upto - 1].Some? then 1 else 0
  }

  ghost predicate ProcOk(st: State, p: nat)
    requires p < |st.procs|
  {
    var n, proc := |st.procs|, st.procs[p];
    && |proc.pool| == n
    && p < Connected(n, p, proc.phase) <= n
    && (proc.phase.Connecting? && proc.phase.asked.Some? ==>
          var c := proc.phase.asked.value;
          && proc.phase.rank < n && c < |st.conns| && st.conns[c].client == p && st.conns[c].server == proc.phase.rank
          && (st.conns[c].stage == Requested || st.conns[c].stage == Accepted))
    && (proc.phase.Accepting? && proc.phase.open.Some? ==>
          var c := proc.phase.open.value;
          && c < |st.conns| && st.conns[c].server == p && (st.conns[c].stage == Accepted || st.conns[c].stage == Named))
    && CountFiled(proc.pool, p) == AcceptedCount(p, proc.phase)
    && (forall k | 0 <= k < n :: PoolOk(st, p, k))
  }

  /** What process p has filed under rank k. */
  ghost predicate PoolOk(st: State, p: nat, k: nat)
    requires p < |st.procs| && |st.procs[p].pool| == |st.procs|
    requires k < |st.procs|
  {
    var n, proc := |st.procs|, st.procs[p];
    match proc.pool[k]
    case None => !(p < k < Connected(n, p, proc.phase))
    case Some(ClientEnd(c)) =>
      && p < k < Connected(n, p, proc.phase) && c < |st.conns|
      && st.conns[c].client == p && st.conns[c].server == k &&
        (st.conns[c].stage == Named || st.conns[c].stage == Filed)
    case Some(ServerEnd(c)) =>
      && k < p && c < |st.conns| && st.conns[c].client == k && st.conns[c].server == p && st.conns[c].stage == Filed
  }

  ghost predicate ConnOk(st: State, c: nat)
    requires c < |st.conns|
  {
    var n, conn := |st.procs|, st.conns[c];
    && conn.client < conn.server < n
    && |st.procs[conn.client].pool| == |st.procs[conn.server].pool| == n
    && (conn.stage == Requested || conn.stage == Accepted ==>
          st.procs[conn.client].phase == Connecting(conn.server, Some(c)))
    && (conn.stage == Accepted || conn.stage == Named ==>
          st.procs[conn.server].phase.Accepting? && st.procs[conn.server].phase.open == Some(c))
    && (conn.stage == Named || conn.stage == Filed ==>
          conn.id == conn.client && st.procs[conn.client].pool[conn.server] == Some(ClientEnd(c)))
    && (conn.stage == Requested || conn.stage == Accepted || conn.stage == Named ==>
          st.procs[conn.server].pool[conn.client] == None && !st.procs[conn.server].phase.Init?)
    && (conn.stage == Filed ==> st.procs[conn.server].pool[conn.client] == Some(ServerEnd(c)))
  }

  ghost predicate Ok(st: State) {
    && (forall p: nat | p < |st.procs| :: ProcOk(st, p))
    && (forall c: nat | c < |st.conns| :: ConnOk(st, c))
  }

  // ---------------------------------------------------------------- every step keeps it

  lemma {:induction false} CountUpdated(pool: seq<Option<Socket>>, k: nat, s: Socket, upto: nat)
    requires upto <= |pool| && k < |pool| && pool[k].None?
    ensures CountFiled(pool[k := Some(s)], upto) == CountFiled(pool, upto) + if k < upto then 1 else 0
  {
    if upto > 0 {
      CountUpdated(pool, k, s, upto - 1);
    }
  }

  lemma {:induction false} NothingFiled(pool: seq<Option<Socket>>, upto: nat)
    requires upto <= |pool|
    ensures CountFiled(pool, upto) <= upto
    ensures CountFiled(pool, upto) == upto ==> forall k: nat | k < upto :: pool[k].Some?
    ensures CountFiled(pool, upto) == 0 ==> forall k: nat | k < upto :: pool[k].None?
  {
    if upto > 0 {
      NothingFiled(pool, upto - 1);
    }
  }

  lemma OpenPortKeeps(st: State, p: nat)
    requires Ok(st) && Can(st, OpenPort(p))
    ensures Ok(Step(st, OpenPort(p)))
  {
    var st' := Step(st, OpenPort(p));
    forall q: nat | q < |st'.procs| ensures ProcOk(st', q) {
      assert ProcOk(st, q);
      forall k: nat | k < |st.procs| ensures PoolOk(st', q, k) {
        assert PoolOk(st, q, k);
      }
    }
    forall c: nat | c < |st'.conns| ensures ConnOk(st', c) {
      assert ConnOk(st, c);
    }
  }

  /** What the server has filed, the client has filed before. */
  lemma ClientFilesFirst(st: State, p: nat, k: nat)
    requires Ok(st) && p < k < |st.procs|
    ensures |st.procs[k].pool| == |st.procs[p].pool| == |st.procs|
    ensures st.procs[k].pool[p].Some? ==> st.procs[p].pool[k].Some?
  {
    assert ProcOk(st, k) && ProcOk(st, p) && PoolOk(st, k, p);
    if st.procs[k].pool[p].Some? {
      assert ConnOk(st, st.procs[k].pool[p].value.conn);
    }
  }

  /** A rank that a process is still to connect to has nothing filed under that process. */
  lemma NotAskedBefore(st: State, p: nat, k: nat)
    requires Ok(st) && p < k < |st.procs| && Connected(|st.procs|, p, st.procs[p].phase) <= k
    ensures |st.procs[k].pool| == |st.procs| && st.procs[k].pool[p] == None
  {
    ClientFilesFirst(st, p, k);
    assert ProcOk(st, p);
    assert PoolOk(st, p, k);
  }

  /** There is at most one connection between two processes. */
  lemma OneConnection(st: State, c: nat, d: nat)
    requires Ok(st) && c < |st.conns| && d < |st.conns|
    requires st.conns[c].client == st.conns[d].client && st.conns[c].server == st.conns[d].server
    requires st.conns[d].stage == Named || st.conns[d].stage == Filed
    ensures c == d
  {
    assert ConnOk(st, c) && ConnOk(st, d);
    assert ProcOk(st, st.conns[c].client) && PoolOk(st, st.conns[c].client, st.conns[c].server);
  }

  lemma RequestKeeps(st: State, p: nat)
    requires Ok(st) && Can(st, Request(p))
    ensures Ok(Step(st, Request(p)))
  {
    var st' := Step(st, Request(p));
    forall q: nat | q < |st'.procs| ensures ProcOk(st', q) {
      assert ProcOk(st, q);
      forall k: nat | k < |st.procs| ensures PoolOk(st', q, k) {
        assert PoolOk(st, q, k);
      }
    }
    forall c: nat | c < |st'.conns| ensures ConnOk(st', c) {
      if c < |st.conns| { assert ConnOk(st, c); }
      else {
        assert ProcOk(st, p);
        NotAskedBefore(st, p, st.procs[p].phase.rank);
      }
    }
  }

  lemma AcceptKeeps(st: State, p: nat, d: nat)
    requires Ok(st) && Can(st, Accept(p, d))
    ensures Ok(Step(st, Accept(p, d)))
  {
    var st' := Step(st, Accept(p, d));
    assert ConnOk(st, d);
    forall q: nat | q < |st'.procs| ensures ProcOk(st', q) {
      assert ProcOk(st, q);
      forall k: nat | k < |st.procs| ensures PoolOk(st', q, k) {
        assert PoolOk(st, q, k);
      }
    }
    forall c: nat | c < |st'.conns| ensures ConnOk(st', c) {
      assert ConnOk(st, c);
    }
  }

  lemma GreetKeepsProc(st: State, p: nat, q: nat)
    requires Ok(st) && Can(st, Greet(p)) && q < |st.procs|
    ensures ProcOk(Step(st, Greet(p)), q)
  {
    var st' := Step(st, Greet(p));
    var d := st.procs[p].phase.asked.value;
    assert ConnOk(st, d) && ProcOk(st, p) && ProcOk(st, q);
    assert PoolOk(st, p, st.procs[p].phase.rank);
    CountUpdated(st.procs[p].pool, st.procs[p].phase.rank, ClientEnd(d), p);
    forall k: nat | k < |st.procs| ensures PoolOk(st', q, k) {
      assert PoolOk(st, q, k);
    }
  }

  lemma GreetKeepsConn(st: State, p: nat, c: nat)
    requires Ok(st) && Can(st, Greet(p)) && c < |st.conns|
    ensures ConnOk(Step(st, Greet(p)), c)
  {
    assert ConnOk(st, c) && ConnOk(st, st.procs[p].phase.asked.value) && ProcOk(st, p);
    assert PoolOk(st, p, st.procs[p].phase.rank);
    hide ProcOk, PoolOk, CountFiled;
  }

  lemma GreetKeeps(st: State, p: nat)
    requires Ok(st) && Can(st, Greet(p))
    ensures Ok(Step(st, Greet(p)))
  {
    var st' := Step(st, Greet(p));
    hide ProcOk, ConnOk, PoolOk, CountFiled;
    forall q: nat | q < |st'.procs| ensures ProcOk(st', q) {
      GreetKeepsProc(st, p, q);
    }
    forall c: nat | c < |st'.conns| ensures ConnOk(st', c) {
      GreetKeepsConn(st, p, c);
    }
  }

  /** The client that is filed is a lower rank, as the code asserts. */
  lemma FiledIsClient(st: State, p: nat)
    requires Ok(st) && Can(st, File(p))
    ensures var conn := st.conns[st.procs[p].phase.open.value];
      conn.id == conn.client < p == conn.server && conn.stage == Named && st.procs[p].pool[conn.id] == None
  {
    assert ProcOk(st, p) && ConnOk(st, st.procs[p].phase.open.value);
  }

  lemma FileKeepsProc(st: State, p: nat, q: nat)
    requires Ok(st) && Can(st, File(p)) && q < |st.procs|
    ensures ProcOk(Step(st, File(p)), q)
  {
    var st' := Step(st, File(p));
    var d := st.procs[p].phase.open.value;
    FiledIsClient(st, p);
    assert ConnOk(st, d) && ProcOk(st, p) && ProcOk(st, q);
    CountUpdated(st.procs[p].pool, st.conns[d].id, ServerEnd(d), p);
    forall k: nat | k < |st.procs| ensures PoolOk(st', q, k) {
      assert PoolOk(st, q, k);
    }
  }

  lemma FileKeepsConn(st: State, p: nat, c: nat)
    requires Ok(st) && Can(st, File(p)) && c < |st.conns|
    ensures ConnOk(Step(st, File(p)), c)
  {
    var d := st.procs[p].phase.open.value;
    FiledIsClient(st, p);
    assert ConnOk(st, c) && ConnOk(st, d);
    if st.conns[c].client == st.conns[d].client && st.conns[c].server == st.conns[d].server {
      OneConnection(st, c, d);
    }
    hide ProcOk, PoolOk, CountFiled;
  }

  lemma FileKeeps(st: State, p: nat)
    requires Ok(st) && Can(st, File(p))
    ensures Ok(Step(st, File(p)))
  {
    var st' := Step(st, File(p));
    hide ProcOk, ConnOk, PoolOk, CountFiled;
    forall q: nat | q < |st'.procs| ensures ProcOk(st', q) {
      FileKeepsProc(st, p, q);
    }
    forall c: nat | c < |st'.conns| ensures ConnOk(st', c) {
      FileKeepsConn(st, p, c);
    }
  }

  lemma PhaseKeeps(st: State, e: Event)
    requires Ok(st) && Can(st, e) && (e.StartAccepting? || e.Finish?)
    ensures Ok(Step(st, e))
  {
    var st' := Step(st, e);
    forall q: nat | q < |st'.procs| ensures ProcOk(st', q) {
      assert ProcOk(st, q);
      forall k: nat | k < |st.procs| ensures PoolOk(st', q, k) {
        assert PoolOk(st, q, k);
      }
    }
    forall c: nat | c < |st'.conns| ensures ConnOk(st', c) {
      assert ConnOk(st, c);
    }
  }

  lemma StepKeeps(st: State, e: Event)
    requires Ok(st) && Can(st, e)
    ensures Ok(Step(st, e)) && |Step(st, e).procs| == |st.procs|
  {
    hide Ok;
    match e
    case OpenPort(p) => OpenPortKeeps(st, p);
    case Request(p) => RequestKeeps(st, p);
    case Accept(p, c) => AcceptKeeps(st, p, c);
    case Greet(p) => GreetKeeps(st, p);
    case File(p) => FileKeeps(st, p);
    case StartAccepting(p) => PhaseKeeps(st, e);
    case Finish(p) => PhaseKeeps(st, e);
  }

  lemma {:induction false} RunKeeps(st: State, events: seq<Event>, fin: State)
    requires Ok(st) && Runs(st, events, fin)
    ensures Ok(fin) && |fin.procs| == |st.procs|
    decreases |events|
  {
    hide Ok, Step, Can;
    if events != [] {
      StepKeeps(st, events[0]);
      RunKeeps(Step(st, events[0]), events[1..], fin);
    }
  }

  lemma {:induction false} NoneFiledYet(n: nat, upto: nat)
    requires upto <= n
    ensures CountFiled(seq(n, _ => None), upto) == 0
  {
    if upto > 0 {
      NoneFiledYet(n, upto - 1);
    }
  }

  lemma ReachableIsOk(n: nat, st: State)
    requires Reachable(n, st)
    ensures Ok(st) && |st.procs| == n
  {
    var start := Start(n);
    assert Ok(start) by {
      forall p: nat | p < n ensures ProcOk(start, p) {
        NoneFiledYet(n, p);
      }
    }
    hide Ok, Start, Runs;
    var events :| Runs(Start(n), events, st);
    RunKeeps(start, events, st);
  }

  // ---------------------------------------------------------------- it never gets stuck

  ghost predicate AllReady(st: State) {
    forall p: nat | p < |st.procs| :: st.procs[p].phase.Ready?
  }

  lemma AllFiledWhenReady(st: State, q: nat)
    requires Ok(st) && q < |st.procs| && st.procs[q].phase.Ready?
    ensures |st.procs[q].pool| == |st.procs| && forall p: nat | p < q :: st.procs[q].pool[p].Some?
  {
    assert ProcOk(st, q);
    NothingFiled(st.procs[q].pool, q);
  }

  /** A process that is still connecting, or somebody above it that it waits for, can take a step. */
  lemma {:induction false} ConnectingMoves(st: State, p: nat) returns (e: Event)
    requires Ok(st) && p < |st.procs| && (st.procs[p].phase.Init? || st.procs[p].phase.Connecting?)
    ensures Can(st, e)
    decreases |st.procs| - p, 0
  {
    assert ProcOk(st, p);
    match st.procs[p].phase
    case Init => e := OpenPort(p);
    case Connecting(k, asked) =>
      if k == |st.procs| {
        e := StartAccepting(p);
      } else {
        assert ProcOk(st, k);
        if st.procs[k].phase.Init? {
          e := OpenPort(k);
        } else if asked.None? {
          e := Request(p);
        } else {
          e := AskedMoves(st, p, k, asked.value);
        }
      }
  }

  /** p has asked k for a connection and waits. */
  lemma {:induction false} AskedMoves(st: State, p: nat, k: nat, c: nat) returns (e: Event)
    requires Ok(st) && p < k < |st.procs| && st.procs[p].phase == Connecting(k, Some(c))
    ensures Can(st, e)
    decreases |st.procs| - k, 1
  {
    assert ProcOk(st, p) && ProcOk(st, k) && ConnOk(st, c);
    if st.conns[c].stage == Accepted {
      e := Greet(p);
    } else {
      NotAskedBefore(st, p, k);
      match st.procs[k].phase
      case Connecting(_, _) => e := ConnectingMoves(st, k);
      case Accepting(_, Some(d)) => e := OpenMoves(st, k, d);
      case Accepting(_, None) =>
        NothingFiled(st.procs[k].pool, k);
        e := Accept(k, c);
      case Ready =>
        AllFiledWhenReady(st, k);
        assert false;
    }
  }

  /** k has accepted a connection and waits for the client's rank. */
  lemma OpenMoves(st: State, k: nat, d: nat) returns (e: Event)
    requires Ok(st) && k < |st.procs| && st.procs[k].phase.Accepting? && st.procs[k].phase.open == Some(d)
    ensures Can(st, e)
  {
    assert ProcOk(st, k) && ConnOk(st, d);
    if st.conns[d].stage == Named {
      e := File(k);
    } else {
      assert ProcOk(st, st.conns[d].client);
      e := Greet(st.conns[d].client);
    }
  }

  /** A process that accepts can go on, or one that it still waits for can. */
  lemma AcceptingMoves(st: State, q: nat) returns (e: Event)
    requires Ok(st) && q < |st.procs| && st.procs[q].phase.Accepting?
    ensures Can(st, e)
  {
    assert ProcOk(st, q);
    if st.procs[q].phase.open.Some? {
      e := OpenMoves(st, q, st.procs[q].phase.open.value);
    } else if st.procs[q].phase.count == q {
      e := Finish(q);
    } else {
      NothingFiled(st.procs[q].pool, q);
      assert exists p: nat :: p < q && st.procs[q].pool[p].None? by {
        if forall p: nat | p < q :: st.procs[q].pool[p].Some? {
          CountAll(st.procs[q].pool, q);
          assert false;
        }
      }
      var p: nat :| p < q && st.procs[q].pool[p].None?;
      e := MissingMoves(st, p, q);
    }
  }

  lemma {:induction false} CountAll(pool: seq<Option<Socket>>, upto: nat)
    requires upto <= |pool| && forall k: nat | k < upto :: pool[k].Some?
    ensures CountFiled(pool, upto) == upto
  {
    if upto > 0 {
      CountAll(pool, upto - 1);
    }
  }

  /** A client that has done its part is filed at the server or is just being served. */
  lemma FiledOrOpen(st: State, p: nat, q: nat)
    requires Ok(st) && p < q < |st.procs| && (st.procs[p].phase.Accepting? || st.procs[p].phase.Ready?)
    ensures |st.procs[q].pool| == |st.procs|
    ensures st.procs[q].pool[p].Some? || (st.procs[q].phase.Accepting? && st.procs[q].phase.open.Some?)
  {
    assert ProcOk(st, p) && ProcOk(st, q) && PoolOk(st, p, q);
    assert ConnOk(st, st.procs[p].pool[q].value.conn);
  }

  /** q accepts, has nothing open, and p is not filed. */
  lemma MissingMoves(st: State, p: nat, q: nat) returns (e: Event)
    requires Ok(st) && p < q < |st.procs| && st.procs[q].phase.Accepting? && st.procs[q].phase.open.None?
    requires st.procs[q].phase.count < q && |st.procs[q].pool| == |st.procs| && st.procs[q].pool[p].None?
    ensures Can(st, e)
  {
    assert ProcOk(st, p) && ProcOk(st, q);
    if st.procs[p].phase.Init? || st.procs[p].phase.Connecting? {
      e := ConnectingMoves(st, p);
    } else {
      FiledOrOpen(st, p, q);
      assert false;
    }
  }

  /** Whatever has happened so far, as long as not all processes are ready some process can go on. */
  lemma NeverStuck(n: nat, st: State) returns (e: Event)
    requires Reachable(n, st) && !AllReady(st)
    ensures Can(st, e)
  {
    ReachableIsOk(n, st);
    var p: nat :| p < |st.procs| && !st.procs[p].phase.Ready?;
    if st.procs[p].phase.Accepting? {
      e := AcceptingMoves(st, p);
    } else {
      e := ConnectingMoves(st, p);
    }
  }

  // ---------------------------------------------------------------- it ends

  function PhaseRank(n: nat, p: nat, phase: Phase): nat {
    match phase
    case Init => 0
    case Connecting(k, asked) => 1 + 2 * k + if asked.Some? then 1 else 0
    case Accepting(count, open) => 2 * n + 2 + 2 * count + if open.Some? then 1 else 0
    case Ready => 4 * n + 3
  }

  /** The total progress made. */
  ghost function Progress(st: State, upto: nat): nat
    requires upto <= |st.procs|
  {
    if upto == 0 then 0 else Progress(st, upto - 1) + PhaseRank(|st.procs|, upto - 1, st.procs[upto - 1].phase)
  }

  lemma {:induction false} ProgressUpdated(a: State, b: State, p: nat, upto: nat)
    requires |a.procs| == |b.procs| && upto <= |a.procs|
    requires forall q: nat | q < |a.procs| && q != p :: a.procs[q].phase == b.procs[q].phase
    ensures p >= upto ==> Progress(b, upto) == Progress(a, upto)
    ensures p < upto ==> (
      Progress(b, upto) - Progress(a, upto)
      == PhaseRank(|a.procs|, p, b.procs[p].phase) - PhaseRank(|a.procs|, p, a.procs[p].phase))
  {
    if upto > 0 {
      ProgressUpdated(a, b, p, upto - 1);
    }
  }

  lemma StepProgresses(st: State, e: Event)
    requires Ok(st) && Can(st, e)
    ensures |Step(st, e).procs| == |st.procs|
    ensures Progress(Step(st, e), |st.procs|) > Progress(st, |st.procs|)
  {
    assert ProcOk(st, e.p);
    ProgressUpdated(st, Step(st, e), e.p, |st.procs|);
  }

  /** The most progress that a process can make, times the number of processes. */
  function Bound(n: nat, upto: nat): nat {
    upto * (4 * n + 3)
  }

  lemma {:induction false} ProgressBounded(st: State, upto: nat)
    requires Ok(st) && upto <= |st.procs|
    ensures Progress(st, upto) <= Bound(|st.procs|, upto)
  {
    if upto > 0 {
      ProgressBounded(st, upto - 1);
      assert ProcOk(st, upto - 1);
      CountAtMost(st.procs[upto - 1].pool, upto - 1);
      assert upto * (4 * |st.procs| + 3) == (upto - 1) * (4 * |st.procs| + 3) + (4 * |st.procs| + 3);
    }
  }

  lemma {:induction false} CountAtMost(pool: seq<Option<Socket>>, upto: nat)
    requires upto <= |pool|
    ensures CountFiled(pool, upto) <= upto
  {
    if upto > 0 {
      CountAtMost(pool, upto - 1);
    }
  }

  lemma {:induction false} RunProgresses(st: State, events: seq<Event>, fin: State)
    requires Ok(st) && Runs(st, events, fin)
    ensures |fin.procs| == |st.procs| && Progress(fin, |st.procs|) >= Progress(st, |st.procs|) + |events|
    decreases |events|
  {
    hide Ok, Step, Can;
    if events != [] {
      StepKeeps(st, events[0]);
      StepProgresses(st, events[0]);
      RunProgresses(Step(st, events[0]), events[1..], fin);
    }
  }

  /** Start-up takes a bounded number of steps, retries apart; with NeverStuck it always ends. */
  lemma EveryRunEnds(n: nat, events: seq<Event>, st: State)
    requires Runs(Start(n), events, st)
    ensures |events| <= Bound(n, n)
  {
    assert Reachable(n, Start(n)) by { assert Runs(Start(n), [], Start(n)); }
    ReachableIsOk(n, Start(n));
    RunProgresses(Start(n), events, st);
    RunKeeps(Start(n), events, st);
    ProgressBounded(st, n);
  }

  // ---------------------------------------------------------------- what it leaves behind

  /** The two entries are the two ends of one connection. */
  ghost predicate TwoEnds(a: Option<Socket>, b: Option<Socket>) {
    exists c: nat ::
      (a == Some(ClientEnd(c)) && b == Some(ServerEnd(c))) || (a == Some(ServerEnd(c)) && b == Some(ClientEnd(c)))
  }

  lemma LowerMeetsHigher(st: State, p: nat, q: nat)
    requires Ok(st) && AllReady(st) && p < q < |st.procs|
    ensures |st.procs[p].pool| == |st.procs[q].pool| == |st.procs|
    ensures TwoEnds(st.procs[p].pool[q], st.procs[q].pool[p]) && TwoEnds(st.procs[q].pool[p], st.procs[p].pool[q])
  {
    assert ProcOk(st, p) && ProcOk(st, q);
    AllFiledWhenReady(st, q);
    assert PoolOk(st, q, p);
    var c := st.procs[q].pool[p].value.conn;
    assert ConnOk(st, c);
    assert st.procs[p].pool[q] == Some(ClientEnd(c)) && st.procs[q].pool[p] == Some(ServerEnd(c));
  }

  /** When all processes are ready, for any two of them the sockets they have filed under each other's
      rank are the two ends of one connection, in whatever order the accepts came. */
  lemma SocketsMeet(n: nat, st: State, p: nat, q: nat)
    requires Reachable(n, st) && AllReady(st) && p < n && q < n && p != q
    ensures |st.procs| == n && |st.procs[p].pool| == |st.procs[q].pool| == n
    ensures TwoEnds(st.procs[p].pool[q], st.procs[q].pool[p]) && st.procs[p].pool[p] == None
  {
    ReachableIsOk(n, st);
    assert ProcOk(st, p) && PoolOk(st, p, p);
    if p < q {
      LowerMeetsHigher(st, p, q);
    } else {
      LowerMeetsHigher(st, q, p);
    }
  }
}
