/** The order of hosts and of (host, port) pairs, and what sorting by it determines. */
module Orders {

  /** Text is compared character by character. */
  predicate Before(a: string, b: string) {
    if b == [] then false
    else if a == [] then true
    else a[0] < b[0] || (a[0] == b[0] && Before(a[1..], b[1..]))
  }

  /** The texts are equal up to place k, where the one has the smaller character. */
  ghost predicate DifferAt(a: string, b: string, k: nat) {
    k < |a| && k < |b| && a[..k] == b[..k] && a[k] < b[k]
  }

  /** The one text is the front of the other, or it is smaller at the first difference. */
  ghost predicate SmallerText(a: string, b: string) {
    (|a| < |b| && a == b[..|a|]) || exists k: nat :: DifferAt(a, b, k)
  }

  lemma FrontsOfRest(a: string, b: string, k: nat)
    requires a != [] && b != [] && a[0] == b[0] && k < |a| && k < |b|
    ensures a[..k + 1] == b[..k + 1] <==> a[1..][..k] == b[1..][..k]
  {
    assert a[..k + 1] == [a[0]] + a[1..][..k] && b[..k + 1] == [b[0]] + b[1..][..k];
    assert a[1..][..k] == a[..k + 1][1..] && b[1..][..k] == b[..k + 1][1..];
  }

  lemma DifferLater(a: string, b: string, k: nat)
    requires a != [] && b != [] && a[0] == b[0] && k + 1 < |a| && k + 1 < |b|
    ensures DifferAt(a, b, k + 1) <==> DifferAt(a[1..], b[1..], k)
  {
    FrontsOfRest(a, b, k);
  }

  lemma SmallerFromHere(a: string, b: string)
    requires a != [] && b != [] && a[0] == b[0]
    ensures SmallerText(a, b) <==> SmallerText(a[1..], b[1..])
  {
    if |a| < |b| {
      FrontsOfRest(a, b, |a| - 1);
      assert a[..|a|] == a && a[1..][..|a| - 1] == a[1..];
    }
    if k: nat :| DifferAt(a, b, k) {
      assert k > 0;
      DifferLater(a, b, k - 1);
    }
    if k: nat :| DifferAt(a[1..], b[1..], k) {
      DifferLater(a, b, k);
    }
    hide DifferAt;
  }

  lemma DifferHere(a: string, b: string)
    requires a != [] && b != [] && a[0] != b[0]
    ensures SmallerText(a, b) <==> a[0] < b[0]
  {
    if a[0] < b[0] {
      assert DifferAt(a, b, 0);
    }
    assert forall k: nat | 0 < k < |a| && k < |b| :: a[..k][0] == a[0] && b[..k][0] == b[0];
    if |a| < |b| {
      assert b[..|a|][0] == b[0];
    }
  }

  /** Comparing character by character is comparing at the first difference. */
  lemma {:induction false} BeforeIs(a: string, b: string)
    ensures Before(a, b) <==> SmallerText(a, b)
    decreases |a|
  {
    if a != [] && b != [] {
      if a[0] == b[0] {
        SmallerFromHere(a, b);
        BeforeIs(a[1..], b[1..]);
      } else {
        DifferHere(a, b);
      }
      hide SmallerText;
    }
  }

  lemma {:induction false} BeforeIsStrict(a: string, b: string)
    ensures !(Before(a, b) && Before(b, a)) && (a == b ==> !Before(a, b))
    ensures Before(a, b) || Before(b, a) || a == b
    decreases |a|
  {
    if a != [] && b != [] {
      BeforeIsStrict(a[1..], b[1..]);
      assert a == [a[0]] + a[1..] && b == [b[0]] + b[1..];
    }
  }

  lemma {:induction false} BeforeChains(a: string, b: string, c: string)
    requires Before(a, b) && Before(b, c)
    ensures Before(a, c)
    decreases |a|
  {
    if a != [] && a[0] == b[0] == c[0] {
      BeforeChains(a[1..], b[1..], c[1..]);
    }
  }

  type Address = (string, int)

  /** By host, then by port. */
  predicate Less(a: Address, b: Address) {
    Before(a.0, b.0) || (a.0 == b.0 && a.1 < b.1)
  }

  lemma LessIsStrict(a: Address, b: Address)
    ensures !(Less(a, b) && Less(b, a)) && (a == b ==> !Less(a, b))
    ensures Less(a, b) || Less(b, a) || a == b
  {
    BeforeIsStrict(a.0, b.0);
  }

  ghost predicate Ascending(s: seq<Address>) {
    forall i, j | 0 <= i < j < |s| :: Less(s[i], s[j])
  }

  /** What a sort by Less gives: no element is less than one in front of it. */
  ghost predicate Sorted(s: seq<Address>) {
    forall i, j | 0 <= i < j < |s| :: !Less(s[j], s[i])
  }

  lemma AscendingIsSorted(s: seq<Address>)
    requires Ascending(s)
    ensures Sorted(s) && forall i, j | 0 <= i < j < |s| :: s[i] != s[j]
  {
    forall i, j | 0 <= i < j < |s| ensures !Less(s[j], s[i]) && s[i] != s[j] {
      LessIsStrict(s[i], s[j]);
    }
  }

  lemma FirstIsLeast(s: seq<Address>, x: Address)
    requires Sorted(s) && x in s
    ensures !Less(x, s[0])
  {
    LessIsStrict(s[0], s[0]);
  }

  lemma SameFirst(a: seq<Address>, b: seq<Address>)
    requires Sorted(a) && Sorted(b) && multiset(a) == multiset(b) && a != [] && b != []
    ensures a[0] == b[0]
  {
    assert a[0] in multiset(b) && b[0] in multiset(a);
    FirstIsLeast(b, a[0]);
    FirstIsLeast(a, b[0]);
    LessIsStrict(a[0], b[0]);
    hide *;
  }

  lemma SortedRest(a: seq<Address>)
    requires Sorted(a) && a != []
    ensures Sorted(a[1..]) && a == [a[0]] + a[1..] && multiset(a[1..]) == multiset(a) - multiset{a[0]}
  {
    assert a == [a[0]] + a[1..];
  }

  lemma SameSize(a: seq<Address>, b: seq<Address>)
    requires multiset(a) == multiset(b)
    ensures |a| == |b|
  {
    assert |a| == |multiset(a)| == |multiset(b)| == |b|;
  }

  /** A sorted sequence is determined by what is in it, how often. */
  lemma {:induction false} SortedIsUnique(a: seq<Address>, b: seq<Address>)
    requires Sorted(a) && Sorted(b) && multiset(a) == multiset(b)
    ensures a == b
    decreases |a|
  {
    hide *;
    SameSize(a, b);
    if a != [] {
      SameFirst(a, b);
      SortedRest(a);
      SortedRest(b);
      SortedIsUnique(a[1..], b[1..]);
    }
  }
}
