/** The launcher and the library agree: what one prints the other reads, and both give every process
    the same rank. */
module RankAgreement {
  import opened Sequences
  import opened Wrappers
  import opened Counting
  import opened Texts
  import opened Orders
  import opened Hosts
  import opened Launcher

  // ---------------------------------------------------------------- what can be printed

  ghost predicate FitInt32(ports: seq<int>) {
    forall p | p in ports :: MIN_INT32 <= p <= MAX_INT32
  }

  ghost predicate FitInt64(ports: seq<int>) {
    forall p | p in ports :: MIN_INT64 <= p <= MAX_INT64
  }

  /** Hosts without separators in their names. */
  ghost predicate Clean(h: HostMapPorts) {
    forall x | x in h :: Free(x, ',') && Free(x, ':')
  }

  /** Every host has a port, and every port is a C++ int. */
  ghost predicate Decodable(h: HostMapPorts) {
    forall x | x in h :: h[x] != [] && FitInt32(h[x])
  }

  /** Every host has a port, and every port is a Go int. */
  ghost predicate Readable(h: HostMapPorts) {
    forall x | x in h :: h[x] != [] && FitInt64(h[x])
  }

  // ---------------------------------------------------------------- one host

  /** What each side makes of the printed ports: it gives them back or refuses the first that is too large. */
  ghost predicate PortsRead(ports: seq<int>) {
    && DecodePorts(IntsToStrings(ports)) == (if FitInt32(ports) then Ok(ports) else Err(BadNumber(OutOfRange)))
    && ReadPorts(IntsToStrings(ports)) == (if FitInt64(ports) then Some(ports) else None)
  }

  lemma OneMoreText(ports: seq<int>, p: int)
    ensures var tokens := IntsToStrings(ports + [p]);
      |tokens| == |ports| + 1 && tokens[..|ports|] == IntsToStrings(ports) && tokens[|ports|] == IntToString(p)
  {
  }

  lemma OneMoreFits(ports: seq<int>, p: int)
    ensures FitInt32(ports + [p]) <==> FitInt32(ports) && MIN_INT32 <= p <= MAX_INT32
    ensures FitInt64(ports + [p]) <==> FitInt64(ports) && MIN_INT64 <= p <= MAX_INT64
  {
    assert p in ports + [p];
    assert forall q | q in ports :: q in ports + [p];
  }

  lemma DecodePortsStep(tokens: seq<string>)
    requires tokens != []
    ensures DecodePorts(tokens) ==
      match (DecodePorts(tokens[..|tokens| - 1]), Stoi(tokens[|tokens| - 1]))
      case (Err(e), _) => Err(e)
      case (Ok(_), Err(e)) => Err(BadNumber(e))
      case (Ok(ports), Ok(port)) => Ok(ports + [port])
  {
    hide Stoi;
  }

  lemma ReadPortsStep(tokens: seq<string>)
    requires tokens != []
    ensures ReadPorts(tokens) ==
      match (ReadPorts(tokens[..|tokens| - 1]), Atoi(tokens[|tokens| - 1]))
      case (Some(ports), Ok(port)) => Some(ports + [port])
      case _ => None
  {
    hide Atoi;
  }

  lemma OneMoreReads(ports: seq<int>, p: int)
    requires PortsRead(ports)
    ensures PortsRead(ports + [p])
  {
    NumbersReadBack(p);
    OneMoreText(ports, p);
    OneMoreFits(ports, p);
    DecodePortsStep(IntsToStrings(ports + [p]));
    ReadPortsStep(IntsToStrings(ports + [p]));
    hide DecodePorts, ReadPorts, IntsToStrings, Stoi, Atoi, FitInt32, FitInt64, IntToString;
  }

  lemma {:induction false} PortsReadBack(ports: seq<int>)
    ensures PortsRead(ports)
  {
    if ports == [] {
      NoneReads();
    } else {
      assert ports == ports[..|ports| - 1] + [ports[|ports| - 1]];
      hide *;
      PortsReadBack(ports[..|ports| - 1]);
      OneMoreReads(ports[..|ports| - 1], ports[|ports| - 1]);
    }
  }

  lemma NoneReads()
    ensures PortsRead([])
  {
    assert IntsToStrings([]) == [];
  }

  lemma PortsAreFree(ports: seq<int>, d: char)
    requires d == ',' || d == ':' || d == '+'
    ensures forall p | p in IntsToStrings(ports) :: Free(p, d)
  {
    forall p | p in IntsToStrings(ports) ensures Free(p, d) {
      var i :| 0 <= i < |ports| && IntsToStrings(ports)[i] == p;
      NumbersAreFree(ports[i], d);
    }
  }

  lemma PortListSplits(ports: seq<int>)
    ensures Free(Join(IntsToStrings(ports), '+'), ':') && Free(Join(IntsToStrings(ports), '+'), ',')
    ensures ports != [] ==> SplitBy(Join(IntsToStrings(ports), '+'), '+') == IntsToStrings(ports)
    ensures ports == [] ==> SplitBy(Join(IntsToStrings(ports), '+'), '+') == [""]
  {
    PortsAreFree(ports, ':');
    PortsAreFree(ports, ',');
    PortsAreFree(ports, '+');
    JoinFree(IntsToStrings(ports), '+', ':');
    JoinFree(IntsToStrings(ports), '+', ',');
    if ports != [] {
      SplitJoin(IntsToStrings(ports), '+');
    } else {
      SplitNone("", '+');
    }
  }

  lemma EmptyIsNoNumber()
    ensures DecodePorts([""]) == Err(BadNumber(NotANumber)) && ReadPorts([""]) == None
  {
    assert [""][..0] == [];
  }

  /** A printed host reads back on each side, unless it has no ports, or one that is too large for that side:
      then it is refused. */
  lemma EntryReadsBack(host: string, ports: seq<int>)
    requires Free(host, ':')
    ensures DecodeEntry(PrintEntry(host, ports)) ==
            if ports == [] then Err(BadNumber(NotANumber))
            else if FitInt32(ports) then Ok(Entry(host, PortSet(ports)))
            else Err(BadNumber(OutOfRange))
    ensures ReadEntry(PrintEntry(host, ports)) ==
            if ports != [] && FitInt64(ports) then Some((host, ports)) else None
  {
    PortListSplits(ports);
    SplitTwo(host, Join(IntsToStrings(ports), '+'), ':');
    PortsReadBack(ports);
    EmptyIsNoNumber();
    hide SplitBy, Join, IntsToStrings, DecodePorts, ReadPorts, PortSet, FitInt32, FitInt64;
  }

  lemma EntryIsFree(host: string, ports: seq<int>)
    requires Free(host, ',')
    ensures Free(PrintEntry(host, ports), ',')
  {
    PortListSplits(ports);
    hide Join, IntsToStrings, SplitBy;
  }

  // ---------------------------------------------------------------- the whole map

  lemma PrintedSplits(h: HostMapPorts, order: seq<string>)
    requires Enumerates(h, order) && Clean(h) && order != []
    ensures SplitBy(Join(PrintEntries(h, order), ','), ',') == PrintEntries(h, order)
  {
    hide PrintEntry, SplitBy, Join;
    forall p | p in PrintEntries(h, order) ensures Free(p, ',') {
      var i :| 0 <= i < |order| && PrintEntries(h, order)[i] == p;
      assert order[i] in order;
      EntryIsFree(order[i], h[order[i]]);
    }
    SplitJoin(PrintEntries(h, order), ',');
  }

  /** The map holds the first k hosts, each with the set of its ports. */
  ghost predicate HoldsFirst(h: HostMapPorts, order: seq<string>, k: nat, m: HostPortsMap)
    requires k <= |order| && forall x | x in order :: x in h
  {
    GoodMap(m) && forall e :: e in m <==> exists i :: 0 <= i < k && e == Entry(order[i], PortSet(h[order[i]]))
  }

  lemma NewHost(h: HostMapPorts, order: seq<string>, k: nat, m: HostPortsMap)
    requires Enumerates(h, order) && k < |order| && HoldsFirst(h, order, k, m)
    ensures var e := Entry(order[k], PortSet(h[order[k]]));
      Insert(m, e).Some? && HoldsFirst(h, order, k + 1, Insert(m, e).value)
  {
    var e := Entry(order[k], PortSet(h[order[k]]));
    InsertIs(m, e);
    forall i | 0 <= i < |m| ensures m[i].host != e.host {
      assert m[i] in m;
    }
    var m' := Insert(m, e).value;
    PortSetIs(h[order[k]]);
    forall x | x in m' ensures AscendingPorts(x.ports) {
    }
    hide PortSet, Insert, AscendingHosts;
  }

  lemma {:induction false} FirstHostsDecode(h: HostMapPorts, order: seq<string>, k: nat)
    requires Enumerates(h, order) && Clean(h) && k <= |order|
    requires forall i | 0 <= i < k :: h[order[i]] != [] && FitInt32(h[order[i]])
    ensures var r := DecodeEntries(PrintEntries(h, order)[..k]);
      r.Ok? && HoldsFirst(h, order, k, r.value)
  {
    if k > 0 {
      FirstHostsDecode(h, order, k - 1);
      assert order[k - 1] in order;
      EntryReadsBack(order[k - 1], h[order[k - 1]]);
      hide HoldsFirst, PrintEntry, DecodeEntry, DecodeEntries, Insert, PortSet, FitInt32;
      EntriesStep(PrintEntries(h, order), k - 1);
      NewHost(h, order, k - 1, DecodeEntries(PrintEntries(h, order)[..k - 1]).value);
    }
  }

  lemma HostRefused(h: HostMapPorts, order: seq<string>, k: nat)
    requires Enumerates(h, order) && Clean(h) && k < |order| && !(h[order[k]] != [] && FitInt32(h[order[k]]))
    ensures DecodeEntries(PrintEntries(h, order)).Err?
  {
    assert order[k] in order;
    var tokens := PrintEntries(h, order);
    EntryReadsBack(order[k], h[order[k]]);
    assert tokens[k] == PrintEntry(order[k], h[order[k]]);
    hide *;
    if DecodeEntries(tokens[..k]).Ok? {
      EntriesStep(tokens, k);
      EntriesStayBad(tokens, k + 1);
    } else {
      EntriesStayBad(tokens, k);
    }
  }

  /** The decoded map is the printed one: the same hosts, each with the set of its ports. */
  ghost predicate Represents(m: HostPortsMap, h: HostMapPorts) {
    GoodMap(m) && forall e :: e in m <==> e.host in h && e.ports == PortSet(h[e.host])
  }

  /** decode(String(h)) succeeds exactly if the map is not empty, every host has a port and every port is a
      C++ int, and then it gives the map, whatever order the printer went through it. */
  lemma DecodeReadsBack(h: HostMapPorts, order: seq<string>)
    requires Enumerates(h, order) && Clean(h)
    ensures var r := DecodeEntries(SplitBy(Join(PrintEntries(h, order), ','), ','));
      && (r.Ok? <==> h != map[] && Decodable(h))
      && (r.Ok? ==> Represents(r.value, h))
  {
    OrderCovers(h, order);
    if order == [] {
      EmptyDoesNotDecode(h);
    } else {
      PrintedSplits(h, order);
      var tokens := PrintEntries(h, order);
      hide SplitBy, Join, DecodeEntries, PrintEntry, Represents, Clean, FitInt32;
      if k :| 0 <= k < |order| && !(h[order[k]] != [] && FitInt32(h[order[k]])) {
        HostRefused(h, order, k);
      } else {
        FirstHostsDecode(h, order, |order|);
        WholePrefix(tokens);
        HoldsAll(h, order, DecodeEntries(tokens).value);
      }
    }
  }

  lemma OrderCovers(h: HostMapPorts, order: seq<string>)
    requires Enumerates(h, order)
    ensures order == [] <==> h == map[]
    ensures Decodable(h) <==> forall k | 0 <= k < |order| :: h[order[k]] != [] && FitInt32(h[order[k]])
    ensures Readable(h) <==> forall k | 0 <= k < |order| :: h[order[k]] != [] && FitInt64(h[order[k]])
  {
    hide FitInt32, FitInt64;
    if order != [] {
      assert order[0] in order;
    }
    forall x | x in h ensures exists k :: 0 <= k < |order| && order[k] == x {
      assert x in order;
    }
    forall k | 0 <= k < |order| ensures order[k] in h {
      assert order[k] in order;
    }
  }

  lemma HoldsAll(h: HostMapPorts, order: seq<string>, m: HostPortsMap)
    requires Enumerates(h, order) && HoldsFirst(h, order, |order|, m)
    ensures Represents(m, h)
  {
    hide PortSet, GoodMap;
    forall e ensures e in m <==> e.host in h && e.ports == PortSet(h[e.host]) {
      if e.host in h {
        assert e.host in order;
      }
    }
  }

  lemma EmptyDoesNotDecode(h: HostMapPorts)
    ensures DecodeEntries(SplitBy(Join(PrintEntries(h, []), ','), ',')).Err?
  {
    SplitNone("", ',');
    SplitNone("", ':');
    SplitNone("", '+');
    EmptyIsNoNumber();
    assert Join(PrintEntries(h, []), ',') == "";
    assert DecodeEntry("").Err?;
    assert [""][..0] == [];
  }

  // ---------------------------------------------------------------- the launcher's own reader

  /** The first k hosts with their ports. */
  ghost predicate ReadsFirst(h: HostMapPorts, order: seq<string>, k: nat, r: Option<HostMapPorts>)
    requires k <= |order|
  {
    && r.Some? && (forall x :: x in r.value <==> x in order[..k])
    && forall x | x in r.value :: x in h && r.value[x] == h[x]
  }

  /** Reading the first k printed hosts gives them back. */
  ghost predicate PrefixReads(h: HostMapPorts, order: seq<string>, k: nat) {
    && k <= |order| && (forall x | x in order :: x in h)
    && ReadsFirst(h, order, k, ReadEntries(PrintEntries(h, order)[..k]))
  }

  lemma FirstAndNext(h: HostMapPorts, order: seq<string>, k: nat, r: HostMapPorts)
    requires k < |order| && order[k] in h && ReadsFirst(h, order, k, Some(r))
    ensures ReadsFirst(h, order, k + 1, Some(r[order[k] := h[order[k]]]))
  {
    PrefixGrows(order, k);
  }

  lemma ReadsOneMore(h: HostMapPorts, order: seq<string>, k: nat)
    requires PrefixReads(h, order, k) && k < |order|
    requires order[k] in h && ReadEntry(PrintEntry(order[k], h[order[k]])) == Some((order[k], h[order[k]]))
    ensures PrefixReads(h, order, k + 1)
  {
    var tokens := PrintEntries(h, order);
    var r := ReadEntries(tokens[..k]).value;
    hide PrintEntry, ReadEntry, ReadEntries, ReadsFirst;
    assert ReadEntries(tokens[..k]) == Some(r) by { SomethingRead(h, order, k); }
    EntriesReadStep(tokens, k);
    FirstAndNext(h, order, k, r);
  }

  lemma SomethingRead(h: HostMapPorts, order: seq<string>, k: nat)
    requires PrefixReads(h, order, k)
    ensures ReadEntries(PrintEntries(h, order)[..k]).Some?
  {
    hide ReadEntries, PrintEntries;
  }

  lemma ReadsNone(h: HostMapPorts, order: seq<string>)
    requires Enumerates(h, order)
    ensures PrefixReads(h, order, 0)
  {
  }

  lemma HostReadsBack(h: HostMapPorts, order: seq<string>, k: nat)
    requires Enumerates(h, order) && Clean(h) && k < |order|
    ensures order[k] in h
    ensures ReadEntry(PrintEntry(order[k], h[order[k]])) ==
            if h[order[k]] != [] && FitInt64(h[order[k]]) then Some((order[k], h[order[k]])) else None
  {
    assert order[k] in order;
    EntryReadsBack(order[k], h[order[k]]);
    hide PrintEntry, ReadEntry, FitInt64;
  }

  lemma {:induction false} FirstHostsRead(h: HostMapPorts, order: seq<string>, k: nat)
    requires Enumerates(h, order) && Clean(h) && Readable(h) && k <= |order|
    ensures PrefixReads(h, order, k)
  {
    hide *;
    if k == 0 {
      ReadsNone(h, order);
    } else {
      FirstHostsRead(h, order, k - 1);
      HostReadsBack(h, order, k - 1);
      ReadableHost(h, order[k - 1]);
      ReadsOneMore(h, order, k - 1);
    }
  }

  lemma ReadsAll(h: HostMapPorts, order: seq<string>, r: Option<HostMapPorts>)
    requires Enumerates(h, order) && ReadsFirst(h, order, |order|, r)
    ensures r == Some(h)
  {
    assert order[..|order|] == order;
    assert r.value.Keys == h.Keys;
    assert r.value == h;
  }

  lemma ReadableHost(h: HostMapPorts, x: string)
    requires Readable(h) && x in h
    ensures h[x] != [] && FitInt64(h[x])
  {
  }

  lemma HostUnread(h: HostMapPorts, order: seq<string>, k: nat)
    requires Enumerates(h, order) && Clean(h) && k < |order| && !(h[order[k]] != [] && FitInt64(h[order[k]]))
    ensures ReadEntries(PrintEntries(h, order)).None?
  {
    var tokens := PrintEntries(h, order);
    HostReadsBack(h, order, k);
    PrefixStep(tokens, k);
    assert tokens[k] == PrintEntry(order[k], h[order[k]]);
    assert ReadEntries(tokens[..k + 1]).None? by {
      hide ReadEntry;
    }
    hide *;
    ReadEntriesStop(tokens, k + 1);
  }

  lemma HostsRead(h: HostMapPorts, order: seq<string>)
    requires Enumerates(h, order) && Clean(h)
    ensures ReadEntries(PrintEntries(h, order)) == if Readable(h) then Some(h) else None
  {
    OrderCovers(h, order);
    var tokens := PrintEntries(h, order);
    hide PrintEntries, ReadEntries, ReadsFirst, FitInt64, Clean;
    if k :| 0 <= k < |order| && !(h[order[k]] != [] && FitInt64(h[order[k]])) {
      HostUnread(h, order, k);
    } else {
      FirstHostsRead(h, order, |order|);
      WholePrefix(tokens);
      ReadsAll(h, order, ReadEntries(tokens));
    }
  }

  lemma PrintedNotEmpty(h: HostMapPorts, order: seq<string>)
    requires forall x | x in order :: x in h
    ensures order == [] <==> Join(PrintEntries(h, order), ',') == []
  {
    if order != [] {
      assert PrintEntries(h, order)[0] == PrintEntry(order[0], h[order[0]]);
      assert PrintEntry(order[0], h[order[0]]) != [];
    }
  }

  /** FromString(String(h)) is h exactly if every host has a port, all of them Go ints; otherwise it is refused. */
  lemma LauncherReadsBack(h: HostMapPorts, order: seq<string>)
    requires Enumerates(h, order) && Clean(h)
    ensures Parsed(Join(PrintEntries(h, order), ',')) == if Readable(h) then Some(h) else None
  {
    OrderCovers(h, order);
    PrintedNotEmpty(h, order);
    HostsRead(h, order);
    if order != [] {
      PrintedSplits(h, order);
    }
    hide SplitBy, Join, PrintEntries, ReadEntries, Clean, FitInt64;
  }

  // ---------------------------------------------------------------- ranks

  ghost predicate DistinctPorts(h: HostMapPorts) {
    forall x | x in h :: NoRepeats(h[x])
  }

  lemma {:induction false} UnrankedHas(h: HostMapPorts, order: seq<string>, a: Address)
    requires forall x | x in order :: x in h
    ensures a in Unranked(h, order) <==> a.0 in order && a.1 in h[a.0]
  {
    if order != [] {
      var init, last := order[..|order| - 1], order[|order| - 1];
      assert order == init + [last] && last in order && forall x | x in init :: x in order;
      UnrankedHas(h, init, a);
      var b := AddressesOf(Entry(last, h[last]));
      assert a in b <==> a.0 == last && a.1 in h[last] by {
        if a.0 == last && a.1 in h[last] {
          var i :| 0 <= i < |h[last]| && h[last][i] == a.1;
          assert b[i] == a;
        }
      }
    }
  }

  lemma JoinNoRepeats(a: seq<Address>, b: seq<Address>)
    ensures NoRepeats(a + b) <==> NoRepeats(a) && NoRepeats(b) && forall x | x in a :: x !in b
  {
    var c := a + b;
    if NoRepeats(c) {
      forall i, j | 0 <= i < j < |a| ensures a[i] != a[j] {
        assert c[i] != c[j];
      }
      forall i, j | 0 <= i < j < |b| ensures b[i] != b[j] {
        assert c[|a| + i] != c[|a| + j];
      }
      forall x | x in a ensures x !in b {
        var i :| 0 <= i < |a| && a[i] == x;
        forall j | 0 <= j < |b| ensures b[j] != x {
          assert c[i] != c[|a| + j];
        }
      }
    }
    if NoRepeats(a) && NoRepeats(b) && forall x | x in a :: x !in b {
      forall i, j | 0 <= i < j < |c| ensures c[i] != c[j] {
        if i < |a| <= j {
          assert a[i] in a && b[j - |a|] in b;
        }
      }
    }
  }

  lemma AddressesRepeat(e: Entry)
    ensures NoRepeats(AddressesOf(e)) <==> NoRepeats(e.ports)
  {
    var b := AddressesOf(e);
    if NoRepeats(b) {
      forall i, j | 0 <= i < j < |e.ports| ensures e.ports[i] != e.ports[j] {
        assert b[i] != b[j];
      }
    }
  }

  /** An address comes up twice exactly if some host has a port twice. */
  lemma {:induction false} UnrankedRepeats(h: HostMapPorts, order: seq<string>)
    requires NoRepeats(order) && forall x | x in order :: x in h
    ensures NoRepeats(Unranked(h, order)) <==> forall x | x in order :: NoRepeats(h[x])
  {
    if order != [] {
      var init, last := order[..|order| - 1], order[|order| - 1];
      assert order == init + [last] && last in order && forall x | x in init :: x in order;
      UnrankedRepeats(h, init);
      var a, b := Unranked(h, init), AddressesOf(Entry(last, h[last]));
      forall x | x in a ensures x !in b {
        UnrankedHas(h, init, x);
      }
      JoinNoRepeats(a, b);
      AddressesRepeat(Entry(last, h[last]));
      hide NoRepeats;
    }
  }

  lemma MapAddresses(h: HostMapPorts, m: HostPortsMap, a: Address)
    requires Represents(m, h)
    ensures a in Addresses(m) <==> a.0 in h && a.1 in h[a.0]
  {
    AddressesAscend(m);
    hide PortSet, GoodMap, Addresses, Ascending;
    if a in Addresses(m) {
      var e :| e in m && a.0 == e.host && a.1 in e.ports;
      PortSetIs(h[e.host]);
    }
    if a.0 in h && a.1 in h[a.0] {
      var host, port := a.0, a.1;
      PortSetIs(h[host]);
      assert port in h[host];
      assert port in PortSet(h[host]);
      assert Entry(host, PortSet(h[host])) in m;
    }
  }

  /** The addresses of the decoded map are those of the printed one. */
  lemma AddressesAgree(h: HostMapPorts, order: seq<string>, m: HostPortsMap, a: Address)
    requires Enumerates(h, order) && Represents(m, h)
    ensures a in Addresses(m) <==> a in Unranked(h, order)
  {
    MapAddresses(h, m, a);
    UnrankedHas(h, order, a);
    hide Addresses, Unranked, Represents, NoRepeats;
  }

  /** The library's list, from the sorted map of sets, and the launcher's, from any order of the map
      and any sort by Less, are the same exactly if no host has a port twice. */
  lemma RanksAgree(h: HostMapPorts, order: seq<string>, sort: AddressSort, m: HostPortsMap)
    requires Enumerates(h, order) && Represents(m, h) && SortsByLess(sort)
    ensures sort(Unranked(h, order)) == Addresses(m) <==> DistinctPorts(h)
  {
    var a, b := Addresses(m), Unranked(h, order);
    AddressesAscend(m);
    AscendingIsSorted(a);
    UnrankedRepeats(h, order);
    forall x ensures x in a <==> x in b {
      AddressesAgree(h, order, m, x);
    }
    assert multiset(sort(b)) == multiset(b) && Sorted(sort(b));
    assert DistinctPorts(h) <==> NoRepeats(b);
    assert NoRepeats(a);
    hide *;
    if NoRepeats(b) {
      SameElements(a, b);
      SortedIsUnique(sort(b), a);
    }
    if sort(b) == a {
      RepeatsStay(a, b);
    }
  }

  /** Whoever has the smaller rank has the smaller host, or the same host and the smaller port: smaller
      in the sense of the first difference. */
  ghost predicate HostsThenPorts(list: seq<ProcessInfo>, once: bool) {
    forall i: nat, j: nat | i < j < |list| ::
      || SmallerText(list[i].ip, list[j].ip)
      || (list[i].ip == list[j].ip && if once then list[i].port < list[j].port else list[i].port <= list[j].port)
  }

  /** The ranks the library gives: host by host in the order of the text, the ports of a host rising. */
  lemma LibraryOrder(m: HostPortsMap, lib: seq<ProcessInfo>)
    requires GoodMap(m) && Ranked(Addresses(m), lib)
    ensures HostsThenPorts(lib, true) && forall i: nat | i < |lib| :: lib[i].rank == i
  {
    AddressesAscend(m);
    hide Addresses, GoodMap, Before, SmallerText;
    forall i: nat, j: nat | i < j < |lib|
      ensures SmallerText(lib[i].ip, lib[j].ip) || (lib[i].ip == lib[j].ip && lib[i].port < lib[j].port)
    {
      assert Less(Addresses(m)[i], Addresses(m)[j]);
      BeforeIs(lib[i].ip, lib[j].ip);
    }
  }

  /** Those the launcher gives: the same, a port that is listed twice having two ranks. */
  lemma LauncherOrder(h: HostMapPorts, order: seq<string>, sort: AddressSort, launcher: seq<ProcessInfo>)
    requires Enumerates(h, order) && SortsByLess(sort) && Ranked(sort(Unranked(h, order)), launcher)
    ensures HostsThenPorts(launcher, false) && forall i: nat | i < |launcher| :: launcher[i].rank == i
  {
    var a := sort(Unranked(h, order));
    assert Sorted(a);
    hide SortsByLess, Unranked, Enumerates, Before, SmallerText;
    forall i: nat, j: nat | i < j < |launcher|
      ensures SmallerText(a[i].0, a[j].0) || (a[i].0 == a[j].0 && a[i].1 <= a[j].1)
    {
      BeforeIs(a[i].0, a[j].0);
      BeforeIsStrict(a[i].0, a[j].0);
    }
  }

  /** Two lists of ranked addresses are the same exactly if the addresses are. */
  lemma RankedIsUnique(a: seq<Address>, b: seq<Address>, la: seq<ProcessInfo>, lb: seq<ProcessInfo>)
    requires Ranked(a, la) && Ranked(b, lb)
    ensures la == lb <==> a == b
  {
    if la == lb {
      forall i | 0 <= i < |a| ensures a[i] == b[i] {
        assert la[i] == ProcessInfo(i, a[i].0, a[i].1) && lb[i] == ProcessInfo(i, b[i].0, b[i].1);
      }
    }
  }

  /** From the map to the ranks, on both sides: the process list that the library computes from the
      launcher's printed text, if it can read it, is the one that the launcher computes itself, exactly
      if no host has a port twice. */
  lemma SameProcessList(h: HostMapPorts, printed: seq<string>, ranged: seq<string>, sort: AddressSort,
                        lib: seq<ProcessInfo>, launcher: seq<ProcessInfo>)
    requires Enumerates(h, printed) && Enumerates(h, ranged) && SortsByLess(sort) && Clean(h)
    requires var r := DecodeEntries(SplitBy(Join(PrintEntries(h, printed), ','), ','));
      r.Ok? && Ranked(Addresses(r.value), lib)
    requires Ranked(sort(Unranked(h, ranged)), launcher)
    ensures lib == launcher <==> DistinctPorts(h)
  {
    DecodeReadsBack(h, printed);
    var m := DecodeEntries(SplitBy(Join(PrintEntries(h, printed), ','), ',')).value;
    hide DecodeEntries, SplitBy, Join, PrintEntries, SortsByLess, Represents, Clean, DistinctPorts, Enumerates;
    RanksAgree(h, ranged, sort, m);
    RankedIsUnique(Addresses(m), sort(Unranked(h, ranged)), lib, launcher);
  }
}
