/** The C++ side: decoding a host list and giving every process its rank. */
module Hosts {
  import opened Wrappers
  import opened Texts
  import opened Orders

  /** A host and its ports, a std::set: ascending, each once. */
  datatype Entry = Entry(host: string, ports: seq<int>)

  /** The std::map from hosts to ports, in the order in which it is traversed. */
  type HostPortsMap = seq<Entry>

  datatype DecodeError = BadNumber(error: NumberError) | DuplicateHost

  // ---------------------------------------------------------------- std::set and std::map

  predicate AscendingPorts(s: seq<int>) {
    forall i, j | 0 <= i < j < |s| :: s[i] < s[j]
  }

  function InsertPort(s: seq<int>, x: int): seq<int> {
    if s == [] || x < s[0] then [x] + s
    else if x == s[0] then s
    else [s[0]] + InsertPort(s[1..], x)
  }

  lemma {:induction false} InsertPortIs(s: seq<int>, x: int)
    requires AscendingPorts(s)
    ensures AscendingPorts(InsertPort(s, x)) && forall y :: y in InsertPort(s, x) <==> y == x || y in s
  {
    if s != [] && x > s[0] {
      InsertPortIs(s[1..], x);
      var rest := InsertPort(s[1..], x);
      assert s == [s[0]] + s[1..];
      forall i | 0 <= i < |rest| ensures s[0] < rest[i] {
        assert rest[i] in rest;
        assert rest[i] == x || rest[i] in s[1..];
      }
    }
  }

  /** std::set<int>(ports.begin(), ports.end()). */
  function PortSet(ports: seq<int>): seq<int> {
    if ports == [] then [] else InsertPort(PortSet(ports[..|ports| - 1]), ports[|ports| - 1])
  }

  lemma {:induction false} PortSetIs(ports: seq<int>)
    ensures AscendingPorts(PortSet(ports)) && forall y :: y in PortSet(ports) <==> y in ports
  {
    if ports != [] {
      var init, last := ports[..|ports| - 1], ports[|ports| - 1];
      PortSetIs(init);
      InsertPortIs(PortSet(init), last);
      assert ports == init + [last];
    }
  }

  ghost predicate AscendingHosts(m: HostPortsMap) {
    forall i, j | 0 <= i < j < |m| :: Before(m[i].host, m[j].host)
  }

  ghost predicate HasHost(m: HostPortsMap, host: string) {
    exists i :: 0 <= i < |m| && m[i].host == host
  }

  /** map::insert: None if the key is there already. */
  function Insert(m: HostPortsMap, e: Entry): Option<HostPortsMap> {
    if m == [] || Before(e.host, m[0].host) then Some([e] + m)
    else if e.host == m[0].host then None
    else
      match Insert(m[1..], e)
      case None => None
      case Some(rest) => Some([m[0]] + rest)
  }

  lemma {:induction false} InsertIs(m: HostPortsMap, e: Entry)
    requires AscendingHosts(m)
    ensures Insert(m, e).None? <==> HasHost(m, e.host)
    ensures Insert(m, e).Some? ==>
      AscendingHosts(Insert(m, e).value) && forall x :: x in Insert(m, e).value <==> x == e || x in m
    decreases |m|
  {
    if m == [] {
    } else if Before(e.host, m[0].host) {
      InsertFront(m, e);
    } else if e.host == m[0].host {
      assert HasHost(m, e.host);
    } else {
      InsertIs(m[1..], e);
      InsertBehind(m, e);
    }
  }

  lemma InsertFront(m: HostPortsMap, e: Entry)
    requires AscendingHosts(m) && m != [] && Before(e.host, m[0].host)
    ensures AscendingHosts([e] + m) && !HasHost(m, e.host)
  {
    forall i | 0 <= i < |m| ensures Before(e.host, m[i].host) && e.host != m[i].host {
      if i > 0 {
        BeforeChains(e.host, m[0].host, m[i].host);
      }
      BeforeIsStrict(e.host, m[i].host);
    }
  }

  lemma InsertBehind(m: HostPortsMap, e: Entry)
    requires AscendingHosts(m) && m != [] && !Before(e.host, m[0].host) && e.host != m[0].host
    requires Insert(m[1..], e).None? <==> HasHost(m[1..], e.host)
    requires Insert(m[1..], e).Some? ==>
      AscendingHosts(Insert(m[1..], e).value) && forall x :: x in Insert(m[1..], e).value <==> x == e || x in m[1..]
    ensures Insert(m, e).None? <==> HasHost(m, e.host)
    ensures Insert(m, e).Some? ==>
      AscendingHosts(Insert(m, e).value) && forall x :: x in Insert(m, e).value <==> x == e || x in m
  {
    assert m == [m[0]] + m[1..];
    BeforeIsStrict(e.host, m[0].host);
    assert HasHost(m, e.host) <==> HasHost(m[1..], e.host) by {
      if HasHost(m, e.host) {
        var i :| 0 <= i < |m| && m[i].host == e.host;
        assert m[1..][i - 1].host == e.host;
      }
      if HasHost(m[1..], e.host) {
        var i :| 0 <= i < |m[1..]| && m[1..][i].host == e.host;
        assert m[i + 1].host == e.host;
      }
    }
    if Insert(m[1..], e).Some? {
      var rest := Insert(m[1..], e).value;
      forall i | 0 <= i < |rest| ensures Before(m[0].host, rest[i].host) {
        assert rest[i] in rest;
        assert rest[i] == e || rest[i] in m[1..];
      }
    }
  }

  // ---------------------------------------------------------------- decoding

  function DecodePorts(tokens: seq<string>): Result<seq<int>, DecodeError> {
    if tokens == [] then Ok([])
    else
      match DecodePorts(tokens[..|tokens| - 1])
      case Err(e) => Err(e)
      case Ok(ports) =>
        match Stoi(tokens[|tokens| - 1])
        case Err(e) => Err(BadNumber(e))
        case Ok(port) => Ok(ports + [port])
  }

  /** The n-th stretch, or nothing if there are not as many. */
  function Part(parts: seq<string>, n: nat): string {
    if n < |parts| then parts[n] else ""
  }

  function DecodeEntry(text: string): Result<Entry, DecodeError> {
    var parts := SplitBy(text, ':');
    match DecodePorts(SplitBy(Part(parts, 1), '+'))
    case Err(e) => Err(e)
    case Ok(ports) => Ok(Entry(parts[0], PortSet(ports)))
  }

  function DecodeEntries(tokens: seq<string>): Result<HostPortsMap, DecodeError> {
    if tokens == [] then Ok([])
    else
      match DecodeEntries(tokens[..|tokens| - 1])
      case Err(e) => Err(e)
      case Ok(m) =>
        match DecodeEntry(tokens[|tokens| - 1])
        case Err(e) => Err(e)
        case Ok(entry) =>
          match Insert(m, entry)
          case None => Err(DuplicateHost)
          case Some(m') => Ok(m')
  }

  lemma PrefixStep<T>(s: seq<T>, k: nat)
    requires k < |s|
    ensures s[..k + 1][..|s[..k + 1]| - 1] == s[..k] && s[..k + 1][k] == s[k]
  {
  }

  lemma {:induction false} PortsStayBad(tokens: seq<string>, k: nat)
    requires k <= |tokens| && DecodePorts(tokens[..k]).Err?
    ensures DecodePorts(tokens) == DecodePorts(tokens[..k])
    decreases |tokens| - k
  {
    if k < |tokens| {
      PrefixStep(tokens, k);
      PortsStayBad(tokens, k + 1);
    } else {
      assert tokens[..k] == tokens;
    }
  }

  lemma {:induction false} EntriesStayBad(tokens: seq<string>, k: nat)
    requires k <= |tokens| && DecodeEntries(tokens[..k]).Err?
    ensures DecodeEntries(tokens) == DecodeEntries(tokens[..k])
    decreases |tokens| - k
  {
    if k < |tokens| {
      PrefixStep(tokens, k);
      EntriesStayBad(tokens, k + 1);
    } else {
      assert tokens[..k] == tokens;
    }
  }

  /** What decodePortList makes of any list of texts: all numbers, or the error of the first that is none. */
  lemma {:induction false} DecodedPorts(tokens: seq<string>)
    ensures match DecodePorts(tokens)
      case Ok(ports) => |ports| == |tokens| && forall i | 0 <= i < |tokens| :: Stoi(tokens[i]) == Ok(ports[i])
      case Err(e) => exists i :: 0 <= i < |tokens| && FirstBad(tokens, i) && e == BadNumber(Stoi(tokens[i]).error)
  {
    hide Stoi;
    if tokens != [] {
      var init := tokens[..|tokens| - 1];
      DecodedPorts(init);
      match DecodePorts(init) {
        case Err(e) =>
          var i :| 0 <= i < |init| && FirstBad(init, i) && e == BadNumber(Stoi(init[i]).error);
          assert FirstBad(tokens, i) && tokens[i] == init[i];
        case Ok(ports) =>
          if Stoi(tokens[|tokens| - 1]).Err? {
            assert FirstBad(tokens, |tokens| - 1);
          }
      }
    }
  }

  ghost predicate FirstBad(tokens: seq<string>, i: int) {
    0 <= i < |tokens| && Stoi(tokens[i]).Err? && forall j | 0 <= j < i :: Stoi(tokens[j]).Ok?
  }

  /** The first k texts are hosts with their ports, no host twice. */
  ghost predicate DistinctHosts(tokens: seq<string>, k: nat) {
    && k <= |tokens| && (forall i | 0 <= i < k :: DecodeEntry(tokens[i]).Ok?)
    && forall i, j | 0 <= i < j < k :: DecodeEntry(tokens[i]).value.host != DecodeEntry(tokens[j]).value.host
  }

  /** Text k is the first that spoils it: it is malformed, or its host has come before. */
  ghost predicate SpoiledAt(tokens: seq<string>, k: nat, e: DecodeError) {
    && k < |tokens| && DistinctHosts(tokens, k)
    && match DecodeEntry(tokens[k])
       case Err(bad) => e == bad
       case Ok(x) =>
         e == DuplicateHost && exists i :: 0 <= i < k && DecodeEntry(tokens[i]).value.host == x.host
  }

  /** m is the map of the first k texts. */
  ghost predicate MapOf(tokens: seq<string>, k: nat, m: HostPortsMap) {
    && DistinctHosts(tokens, k) && AscendingHosts(m)
    && forall x :: x in m <==> exists i :: 0 <= i < k && DecodeEntry(tokens[i]).value == x
  }

  lemma HostOf(m: HostPortsMap, e: Entry)
    requires e in m
    ensures HasHost(m, e.host)
  {
    var i :| 0 <= i < |m| && m[i] == e;
  }

  lemma HostSeen(tokens: seq<string>, k: nat, m: HostPortsMap, host: string)
    requires MapOf(tokens, k, m)
    ensures HasHost(m, host) <==> exists i :: 0 <= i < k && DecodeEntry(tokens[i]).value.host == host
  {
    hide DecodeEntry, AscendingHosts;
    if HasHost(m, host) {
      var a :| 0 <= a < |m| && m[a].host == host;
      assert m[a] in m;
    }
    if i :| 0 <= i < k && DecodeEntry(tokens[i]).value.host == host {
      assert DecodeEntry(tokens[i]).value in m;
      HostOf(m, DecodeEntry(tokens[i]).value);
    }
  }

  lemma HostAgain(tokens: seq<string>, k: nat, m: HostPortsMap, x: Entry)
    requires MapOf(tokens, k, m) && k < |tokens| && DecodeEntry(tokens[k]) == Ok(x) && HasHost(m, x.host)
    ensures SpoiledAt(tokens, k, DuplicateHost)
  {
    HostSeen(tokens, k, m, x.host);
    hide DecodeEntry, AscendingHosts, HasHost;
  }

  lemma AllDecoded(tokens: seq<string>, k: nat)
    requires DistinctHosts(tokens, k)
    ensures forall i | 0 <= i < k :: DecodeEntry(tokens[i]).Ok?
  {
    hide DecodeEntry;
  }

  lemma StillDistinct(tokens: seq<string>, k: nat, x: Entry)
    requires DistinctHosts(tokens, k) && k < |tokens| && DecodeEntry(tokens[k]) == Ok(x)
    requires forall i | 0 <= i < k :: DecodeEntry(tokens[i]).Ok? && DecodeEntry(tokens[i]).value.host != x.host
    ensures DistinctHosts(tokens, k + 1)
  {
    hide DecodeEntry;
  }

  lemma HostNew(tokens: seq<string>, k: nat, m: HostPortsMap, x: Entry, m': HostPortsMap)
    requires MapOf(tokens, k, m) && k < |tokens| && DecodeEntry(tokens[k]) == Ok(x) && !HasHost(m, x.host)
    requires AscendingHosts(m') && forall y :: y in m' <==> y == x || y in m
    ensures MapOf(tokens, k + 1, m')
  {
    HostSeen(tokens, k, m, x.host);
    hide DecodeEntry, AscendingHosts, HasHost, DistinctHosts;
    AllDecoded(tokens, k);
    StillDistinct(tokens, k, x);
    forall y ensures y in m' <==> exists i :: 0 <= i < k + 1 && DecodeEntry(tokens[i]).value == y {
      if y == x {
        assert DecodeEntry(tokens[k]).value == y;
      }
    }
  }

  lemma OneHostMore(tokens: seq<string>, k: nat, m: HostPortsMap)
    requires MapOf(tokens, k, m) && k < |tokens| && DecodeEntry(tokens[k]).Ok?
    ensures match Insert(m, DecodeEntry(tokens[k]).value)
      case None => SpoiledAt(tokens, k, DuplicateHost)
      case Some(m') => MapOf(tokens, k + 1, m')
  {
    var x := DecodeEntry(tokens[k]).value;
    assert AscendingHosts(m);
    hide *;
    InsertIs(m, x);
    match Insert(m, x) {
      case None => HostAgain(tokens, k, m, x);
      case Some(m') => HostNew(tokens, k, m, x, m');
    }
  }

  /** The result is the map of the first k texts in the order of the hosts, or the error of the first that is
      malformed or names a host again. */
  ghost predicate DecodedTo(tokens: seq<string>, k: nat, r: Result<HostPortsMap, DecodeError>) {
    match r
    case Ok(m) => MapOf(tokens, k, m)
    case Err(e) => exists i: nat :: i < k && SpoiledAt(tokens, i, e)
  }

  lemma DecodedOneMore(tokens: seq<string>, k: nat, r: Result<HostPortsMap, DecodeError>)
    requires DecodedTo(tokens, k, r) && k < |tokens| && r.Ok?
    ensures DecodedTo(tokens, k + 1,
      match DecodeEntry(tokens[k])
      case Err(e) => Err(e)
      case Ok(entry) =>
        match Insert(r.value, entry)
        case None => Err(DuplicateHost)
        case Some(m') => Ok(m'))
  {
    hide MapOf, SpoiledAt, DecodeEntry, Insert;
    if DecodeEntry(tokens[k]).Ok? {
      OneHostMore(tokens, k, r.value);
    } else {
      MalformedAt(tokens, k, r.value);
    }
  }

  lemma SpoiledBefore(tokens: seq<string>, k: nat, r: Result<HostPortsMap, DecodeError>)
    requires DecodedTo(tokens, k, r) && r.Err?
    ensures DecodedTo(tokens, k + 1, r)
  {
    hide SpoiledAt;
  }

  lemma EntriesStep(tokens: seq<string>, k: nat)
    requires k < |tokens|
    ensures DecodeEntries(tokens[..k + 1]) ==
      match DecodeEntries(tokens[..k])
      case Err(e) => Err(e)
      case Ok(m) =>
        match DecodeEntry(tokens[k])
        case Err(e) => Err(e)
        case Ok(entry) =>
          match Insert(m, entry)
          case None => Err(DuplicateHost)
          case Some(m') => Ok(m')
  {
    PrefixStep(tokens, k);
    hide DecodeEntry, Insert;
  }

  lemma NothingDecoded(tokens: seq<string>)
    ensures DecodedTo(tokens, 0, DecodeEntries(tokens[..0]))
  {
    assert tokens[..0] == [];
    hide DecodeEntry;
  }

  /** What Decoder::decode makes of any list of texts. */
  lemma {:induction false} DecodedHosts(tokens: seq<string>, k: nat)
    requires k <= |tokens|
    ensures DecodedTo(tokens, k, DecodeEntries(tokens[..k]))
  {
    hide *;
    if k == 0 {
      NothingDecoded(tokens);
    } else {
      EntriesStep(tokens, k - 1);
      DecodedHosts(tokens, k - 1);
      if DecodeEntries(tokens[..k - 1]).Ok? {
        DecodedOneMore(tokens, k - 1, DecodeEntries(tokens[..k - 1]));
      } else {
        SpoiledBefore(tokens, k - 1, DecodeEntries(tokens[..k - 1]));
      }
    }
  }

  lemma MalformedAt(tokens: seq<string>, k: nat, m: HostPortsMap)
    requires MapOf(tokens, k, m) && k < |tokens| && DecodeEntry(tokens[k]).Err?
    ensures SpoiledAt(tokens, k, DecodeEntry(tokens[k]).error)
  {
    hide DecodeEntry;
  }

  /** decodePortList. */
  method DecodePortList(portsStr: string) returns (r: Result<seq<int>, DecodeError>)
    ensures r == DecodePorts(SplitBy(portsStr, '+'))
  {
    var ports: seq<int> := [];
    var sp := new Spliter(portsStr, '+');
    ghost var tokens, k := SplitBy(portsStr, '+'), 0;
    while !sp.end
      invariant sp.Valid() && k <= |tokens| && sp.Rest() == tokens[k..] && (sp.end <==> sp.Rest() == [])
      invariant DecodePorts(tokens[..k]) == Ok(ports)
      decreases |tokens| - k
    {
      var portStr := sp.GetNext();
      PrefixStep(tokens, k);
      match Stoi(portStr) {
        case Err(e) =>
          PortsStayBad(tokens, k + 1);
          return Err(BadNumber(e));
        case Ok(port) => ports := ports + [port];
      }
      k := k + 1;
    }
    assert tokens[..k] == tokens;
    return Ok(ports);
  }

  /** decodeAddrPair. */
  method DecodeAddrPair(hostStr: string) returns (host: string, portsStr: string)
    ensures host == SplitBy(hostStr, ':')[0] && portsStr == Part(SplitBy(hostStr, ':'), 1)
  {
    var sp := new Spliter(hostStr, ':');
    host := sp.GetNext();
    portsStr := sp.GetNext();
  }

  method DecodeHost(token: string) returns (r: Result<Entry, DecodeError>)
    ensures r == DecodeEntry(token)
  {
    hide SplitBy, DecodePorts, PortSet, Part;
    var host, portsStr := DecodeAddrPair(token);
    var ports := DecodePortList(portsStr);
    match ports {
      case Err(e) => return Err(e);
      case Ok(list) => return Ok(Entry(host, PortSet(list)));
    }
  }

  /** Decoder::decode. */
  method Decode(data: string) returns (r: Result<HostPortsMap, DecodeError>)
    ensures r == DecodeEntries(SplitBy(data, ','))
  {
    var sp := new Spliter(data, ',');
    var hostmap: HostPortsMap := [];
    hide SplitBy, DecodeEntry, Insert;
    ghost var tokens, k := SplitBy(data, ','), 0;
    while !sp.end
      invariant sp.Valid() && k <= |tokens| && sp.Rest() == tokens[k..] && (sp.end <==> sp.Rest() == [])
      invariant DecodeEntries(tokens[..k]) == Ok(hostmap)
      decreases |tokens| - k
    {
      var token := sp.GetNext();
      PrefixStep(tokens, k);
      var entry := DecodeHost(token);
      if entry.Err? {
        EntriesStayBad(tokens, k + 1);
        return Err(entry.error);
      }
      match Insert(hostmap, entry.value) {
        case None =>
          EntriesStayBad(tokens, k + 1);
          return Err(DuplicateHost);
        case Some(m) => hostmap := m;
      }
      k := k + 1;
    }
    assert tokens[..k] == tokens;
    return Ok(hostmap);
  }

  // ---------------------------------------------------------------- ranks

  datatype ProcessInfo = ProcessInfo(rank: nat, ip: string, port: int)

  function AddressesOf(e: Entry): (r: seq<Address>)
    ensures |r| == |e.ports| && forall i | 0 <= i < |r| :: r[i] == (e.host, e.ports[i])
  {
    seq(|e.ports|, i requires 0 <= i < |e.ports| => (e.host, e.ports[i]))
  }

  /** All hosts' ports, in the order of the map. */
  function Addresses(m: HostPortsMap): seq<Address> {
    if m == [] then [] else Addresses(m[..|m| - 1]) + AddressesOf(m[|m| - 1])
  }

  /** Each process has the rank that is its place in the list. */
  ghost predicate Ranked(addrs: seq<Address>, arr: seq<ProcessInfo>) {
    |arr| == |addrs| && forall i | 0 <= i < |arr| :: arr[i] == ProcessInfo(i, addrs[i].0, addrs[i].1)
  }

  /** calRank. */
  method CalRank(m: HostPortsMap) returns (arr: seq<ProcessInfo>)
    ensures Ranked(Addresses(m), arr)
  {
    arr := [];
    var rank := 0;
    for h := 0 to |m|
      invariant rank == |arr| && Ranked(Addresses(m[..h]), arr)
    {
      PrefixStep(m, h);
      ghost var done := Addresses(m[..h]);
      for k := 0 to |m[h].ports|
        invariant rank == |arr| && Ranked(done + AddressesOf(m[h])[..k], arr)
      {
        arr := arr + [ProcessInfo(rank, m[h].host, m[h].ports[k])];
        rank := rank + 1;
      }
      assert AddressesOf(m[h])[..|m[h].ports|] == AddressesOf(m[h]);
    }
    assert m[..|m|] == m;
  }

  /** getRank: the first entry with this address; an exception if there is none. */
  method GetRank(arr: seq<ProcessInfo>, ip: string, port: int) returns (r: Option<nat>)
    ensures r.None? <==> forall i | 0 <= i < |arr| :: !(arr[i].ip == ip && arr[i].port == port)
    ensures r.Some? ==> exists i ::
      0 <= i < |arr| && r.value == arr[i].rank && arr[i].ip == ip && arr[i].port == port
      && forall j | 0 <= j < i :: !(arr[j].ip == ip && arr[j].port == port)
  {
    for i := 0 to |arr|
      invariant forall j | 0 <= j < i :: !(arr[j].ip == ip && arr[j].port == port)
    {
      if arr[i].ip == ip && arr[i].port == port {
        return Some(arr[i].rank);
      }
    }
    return None;
  }

  ghost predicate GoodMap(m: HostPortsMap) {
    AscendingHosts(m) && forall e | e in m :: AscendingPorts(e.ports)
  }

  lemma LaterHosts(init: HostPortsMap, last: Entry, a: Address, b: Address)
    requires AscendingHosts(init + [last]) && b in AddressesOf(last)
    requires exists e :: e in init && a.0 == e.host && a.1 in e.ports
    ensures Less(a, b)
  {
    var e :| e in init && a.0 == e.host && a.1 in e.ports;
    var k :| 0 <= k < |init| && init[k] == e;
    assert (init + [last])[k] == e && (init + [last])[|init|] == last;
  }

  lemma AscendingJoin(a: seq<Address>, b: seq<Address>)
    requires Ascending(a) && Ascending(b) && forall x, y | x in a && y in b :: Less(x, y)
    ensures Ascending(a + b)
  {
    forall i, j | 0 <= i < j < |a + b| ensures Less((a + b)[i], (a + b)[j]) {
      if i < |a| <= j {
        assert a[i] in a && b[j - |a|] in b;
      }
    }
  }

  lemma {:induction false} AddressesAscend(m: HostPortsMap)
    requires GoodMap(m)
    ensures Ascending(Addresses(m))
    ensures forall a :: a in Addresses(m) <==> exists e :: e in m && a.0 == e.host && a.1 in e.ports
  {
    if m != [] {
      var init, last := m[..|m| - 1], m[|m| - 1];
      assert m == init + [last];
      AddressesAscend(init);
      var a, b := Addresses(init), AddressesOf(last);
      assert last in m && Ascending(b);
      forall x, y | x in a && y in b ensures Less(x, y) {
        LaterHosts(init, last, x, y);
      }
      AscendingJoin(a, b);
      hide Ascending, AscendingHosts, Less;
      forall x: Address ensures x in a + b <==> exists e :: e in m && x.0 == e.host && x.1 in e.ports {
        AddressIn(init, last, a, x);
      }
    }
  }

  lemma AddressIn(init: HostPortsMap, last: Entry, a: seq<Address>, x: Address)
    requires x in a <==> exists e :: e in init && x.0 == e.host && x.1 in e.ports
    ensures x in a + AddressesOf(last) <==> exists e :: e in init + [last] && x.0 == e.host && x.1 in e.ports
  {
    var b := AddressesOf(last);
    if x in b {
      var i :| 0 <= i < |b| && b[i] == x;
      assert last in init + [last] && x.0 == last.host && x.1 in last.ports;
    }
    if exists e :: e in init + [last] && x.0 == e.host && x.1 in e.ports {
      var e :| e in init + [last] && x.0 == e.host && x.1 in e.ports;
      if e == last {
        var i :| 0 <= i < |last.ports| && last.ports[i] == x.1;
        assert b[i] == x;
      }
    }
    if x in a {
      var e :| e in init && x.0 == e.host && x.1 in e.ports;
      assert e in init + [last];
    }
  }

  /** getRank undoes calRank: it finds every process's own rank from its address. */
  lemma RanksAreFound(m: HostPortsMap, arr: seq<ProcessInfo>, i: nat, k: nat)
    requires GoodMap(m) && Ranked(Addresses(m), arr) && i < |arr| && k < |arr|
    requires arr[k].ip == arr[i].ip && arr[k].port == arr[i].port
    ensures k == i && arr[k].rank == i
  {
    AddressesAscend(m);
    AscendingIsSorted(Addresses(m));
  }
}
