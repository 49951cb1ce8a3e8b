/** The Go side: printing and reading a host map, and computing ranks from it. */
module Launcher {
  import opened Sequences
  import opened Wrappers
  import opened Counting
  import opened Texts
  import opened Orders
  import opened Hosts

  type HostMapPorts = map<string, seq<int>>

  /** An order in which range may go through the map. */
  ghost predicate Enumerates(h: HostMapPorts, order: seq<string>) {
    NoRepeats(order) && forall x :: x in order <==> x in h
  }

  // ---------------------------------------------------------------- printing

  function IntsToStrings(ports: seq<int>): (r: seq<string>)
    ensures |r| == |ports| && forall i | 0 <= i < |r| :: r[i] == IntToString(ports[i])
  {
    seq(|ports|, i requires 0 <= i < |ports| => IntToString(ports[i]))
  }

  function PrintEntry(host: string, ports: seq<int>): string {
    host + [':'] + Join(IntsToStrings(ports), '+')
  }

  function PrintEntries(h: HostMapPorts, order: seq<string>): (r: seq<string>)
    requires forall x | x in order :: x in h
    ensures |r| == |order| && forall i | 0 <= i < |r| :: r[i] == PrintEntry(order[i], h[order[i]])
  {
    seq(|order|, i requires 0 <= i < |order| => PrintEntry(order[i], h[order[i]]))
  }

  /** String. */
  method Print(h: HostMapPorts, order: seq<string>) returns (s: string)
    requires Enumerates(h, order)
    ensures s == Join(PrintEntries(h, order), ',')
  {
    hide PrintEntry, Join;
    var hs: seq<string> := [];
    for i := 0 to |order|
      invariant hs == PrintEntries(h, order)[..i]
    {
      PrefixGrows(PrintEntries(h, order), i);
      hs := hs + [PrintEntry(order[i], h[order[i]])];
    }
    s := Join(hs, ',');
    WholePrefix(PrintEntries(h, order));
  }

  // ---------------------------------------------------------------- reading

  function ReadPorts(tokens: seq<string>): Option<seq<int>> {
    if tokens == [] then Some([])
    else
      match (ReadPorts(tokens[..|tokens| - 1]), Atoi(tokens[|tokens| - 1]))
      case (Some(ports), Ok(port)) => Some(ports + [port])
      case _ => None
  }

  function ReadEntry(text: string): Option<(string, seq<int>)> {
    var parts := SplitBy(text, ':');
    if |parts| != 2 then None
    else
      match ReadPorts(SplitBy(parts[1], '+'))
      case None => None
      case Some(ports) => Some((parts[0], ports))
  }

  function ReadEntries(tokens: seq<string>): Option<HostMapPorts> {
    if tokens == [] then Some(map[])
    else
      match (ReadEntries(tokens[..|tokens| - 1]), ReadEntry(tokens[|tokens| - 1]))
      case (Some(h), Some(e)) => Some(h[e.0 := e.1])
      case _ => None
  }

  lemma {:induction false} ReadPortsStop(tokens: seq<string>, k: nat)
    requires k <= |tokens| && ReadPorts(tokens[..k]).None?
    ensures ReadPorts(tokens).None?
    decreases |tokens| - k
  {
    if k < |tokens| {
      PrefixStep(tokens, k);
      ReadPortsStop(tokens, k + 1);
    } else {
      assert tokens[..k] == tokens;
    }
  }

  lemma {:induction false} ReadEntriesStop(tokens: seq<string>, k: nat)
    requires k <= |tokens| && ReadEntries(tokens[..k]).None?
    ensures ReadEntries(tokens).None?
    decreases |tokens| - k
  {
    if k < |tokens| {
      PrefixStep(tokens, k);
      ReadEntriesStop(tokens, k + 1);
    } else {
      assert tokens[..k] == tokens;
    }
  }

  /** Reading a host takes exactly one colon, and numbers for all its ports. */
  lemma {:induction false} PortsRead(tokens: seq<string>)
    ensures match ReadPorts(tokens)
      case Some(ports) => |ports| == |tokens| && forall i | 0 <= i < |tokens| :: Atoi(tokens[i]) == Ok(ports[i])
      case None => exists i :: 0 <= i < |tokens| && Atoi(tokens[i]).Err?
  {
    hide Atoi;
    if tokens != [] {
      var init := tokens[..|tokens| - 1];
      PortsRead(init);
      if ReadPorts(init).None? {
        var i :| 0 <= i < |init| && Atoi(init[i]).Err?;
        assert tokens[i] == init[i];
      }
    }
  }

  /** The ports of host x are those of the last of the first k texts that names it. */
  ghost predicate LastOf(tokens: seq<string>, k: nat, x: string, ports: seq<int>) {
    exists i :: 0 <= i < k <= |tokens| && ReadEntry(tokens[i]) == Some((x, ports)) &&
      forall j | i < j < k :: ReadEntry(tokens[j]).Some? && ReadEntry(tokens[j]).value.0 != x
  }

  lemma EntriesReadStep(tokens: seq<string>, k: nat)
    requires k < |tokens|
    ensures ReadEntries(tokens[..k + 1]) ==
      match (ReadEntries(tokens[..k]), ReadEntry(tokens[k]))
      case (Some(h), Some(e)) => Some(h[e.0 := e.1])
      case _ => None
  {
    PrefixStep(tokens, k);
    hide ReadEntry;
  }

  lemma LastStays(tokens: seq<string>, k: nat, x: string, ports: seq<int>)
    requires k < |tokens| && ReadEntry(tokens[k]).Some?
    ensures LastOf(tokens, k + 1, x, ports) <==>
            ReadEntry(tokens[k]) == Some((x, ports)) ||
            (ReadEntry(tokens[k]).value.0 != x && LastOf(tokens, k, x, ports))
  {
    hide ReadEntry;
    if LastOf(tokens, k, x, ports) && ReadEntry(tokens[k]).value.0 != x {
      var i :| 0 <= i < k && ReadEntry(tokens[i]) == Some((x, ports)) &&
        forall j | i < j < k :: ReadEntry(tokens[j]).Some? && ReadEntry(tokens[j]).value.0 != x;
      assert forall j | i < j < k + 1 :: ReadEntry(tokens[j]).Some? && ReadEntry(tokens[j]).value.0 != x;
    }
  }

  /** The result is nothing if one of the first k texts is malformed; otherwise each host has the ports of the
      last text that names it. */
  ghost predicate ReadTo(tokens: seq<string>, k: nat, r: Option<HostMapPorts>)
    requires k <= |tokens|
  {
    && (r.None? <==> exists i :: 0 <= i < k && ReadEntry(tokens[i]).None?)
    && (r.Some? ==> forall x, ports :: Gives(r.value, x, ports) <==> LastOf(tokens, k, x, ports))
  }

  ghost predicate Gives(h: HostMapPorts, x: string, ports: seq<int>) {
    x in h && h[x] == ports
  }

  lemma ReadOneMore(tokens: seq<string>, k: nat, h: HostMapPorts, e: (string, seq<int>))
    requires k < |tokens| && ReadTo(tokens, k, Some(h)) && ReadEntry(tokens[k]) == Some(e)
    ensures ReadTo(tokens, k + 1, Some(h[e.0 := e.1]))
  {
    var h' := h[e.0 := e.1];
    hide ReadEntry, LastOf;
    forall x, ports ensures Gives(h', x, ports) <==> LastOf(tokens, k + 1, x, ports) {
      LastStays(tokens, k, x, ports);
    }
  }

  lemma UnreadBefore(tokens: seq<string>, k: nat, r: Option<HostMapPorts>)
    requires k < |tokens| && ReadTo(tokens, k, r) && (r.None? || ReadEntry(tokens[k]).None?)
    ensures ReadTo(tokens, k + 1, None)
  {
    hide ReadEntry, LastOf;
  }

  lemma NothingRead(tokens: seq<string>)
    ensures ReadTo(tokens, 0, ReadEntries(tokens[..0]))
  {
    assert tokens[..0] == [];
    hide ReadEntry;
  }

  /** What FromString makes of any list of texts. */
  lemma {:induction false} EntriesRead(tokens: seq<string>, k: nat)
    requires k <= |tokens|
    ensures ReadTo(tokens, k, ReadEntries(tokens[..k]))
  {
    hide *;
    if k == 0 {
      NothingRead(tokens);
    } else {
      EntriesReadStep(tokens, k - 1);
      EntriesRead(tokens, k - 1);
      var r := ReadEntries(tokens[..k - 1]);
      if r.Some? && ReadEntry(tokens[k - 1]).Some? {
        ReadOneMore(tokens, k - 1, r.value, ReadEntry(tokens[k - 1]).value);
      } else {
        UnreadBefore(tokens, k - 1, r);
      }
    }
  }

  /** None for a malformed text; the empty text gives a nil map. */
  function Parsed(str: string): Option<HostMapPorts> {
    if str == [] then Some(map[]) else ReadEntries(SplitBy(str, ','))
  }

  /** FromString. */
  method FromString(str: string) returns (r: Option<HostMapPorts>)
    ensures r == Parsed(str)
  {
    if str == "" {
      return Some(map[]);
    }
    var res: HostMapPorts := map[];
    var list := SplitBy(str, ',');
    for i := 0 to |list|
      invariant ReadEntries(list[..i]) == Some(res)
    {
      PrefixStep(list, i);
      var sHostPorts := SplitBy(list[i], ':');
      if |sHostPorts| != 2 {
        ReadEntriesStop(list, i + 1);
        return None;
      }
      var ports := ReadPortList(sHostPorts[1]);
      if ports.None? {
        ReadEntriesStop(list, i + 1);
        return None;
      }
      res := res[sHostPorts[0] := ports.value];
    }
    assert list[..|list|] == list;
    return Some(res);
  }

  method ReadPortList(text: string) returns (r: Option<seq<int>>)
    ensures r == ReadPorts(SplitBy(text, '+'))
  {
    var tokens := SplitBy(text, '+');
    var ports: seq<int> := [];
    for k := 0 to |tokens|
      invariant ReadPorts(tokens[..k]) == Some(ports)
    {
      PrefixStep(tokens, k);
      match Atoi(tokens[k]) {
        case Err(_) =>
          ReadPortsStop(tokens, k + 1);
          return None;
        case Ok(port) => ports := ports + [port];
      }
    }
    assert tokens[..|tokens|] == tokens;
    return Some(ports);
  }

  // ---------------------------------------------------------------- ranks

  type AddressSort = seq<Address> -> seq<Address>

  /** sort.Sort with Less. */
  ghost predicate SortsByLess(sort: AddressSort) {
    forall s :: multiset(sort(s)) == multiset(s) && Sorted(sort(s))
  }

  /** All hosts' ports, in the order in which range comes to the hosts. */
  function Unranked(h: HostMapPorts, order: seq<string>): seq<Address>
    requires forall x | x in order :: x in h
  {
    if order == [] then []
    else
      var last := order[|order| - 1];
      Unranked(h, order[..|order| - 1]) + AddressesOf(Entry(last, h[last]))
  }

  /** CalculateRank. */
  method CalculateRank(h: HostMapPorts, order: seq<string>, sort: AddressSort) returns (arr: seq<ProcessInfo>)
    requires Enumerates(h, order)
    ensures Ranked(sort(Unranked(h, order)), arr)
  {
    var piSlice: seq<Address> := [];
    for i := 0 to |order|
      invariant piSlice == Unranked(h, order[..i])
    {
      PrefixStep(order, i);
      var ports := h[order[i]];
      ghost var before := piSlice;
      for k := 0 to |ports|
        invariant piSlice == before + AddressesOf(Entry(order[i], ports))[..k]
      {
        piSlice := piSlice + [(order[i], ports[k])];
      }
      assert AddressesOf(Entry(order[i], ports))[..|ports|] == AddressesOf(Entry(order[i], ports));
    }
    assert order[..|order|] == order;
    piSlice := sort(piSlice);
    arr := [];
    for i := 0 to |piSlice|
      invariant Ranked(piSlice[..i], arr)
    {
      arr := arr + [ProcessInfo(i, piSlice[i].0, piSlice[i].1)];
    }
  }
}
