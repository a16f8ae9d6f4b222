/**
 Matching RDMA endpoints of two hosts by subnet: 32-bit mask arithmetic (section 3.1 of RFC 4632), the join,
 the fastest links and the summary of all of them.
 */
module Fabric {
  import opened Wrappers
  import opened Text
  import HostFile

  datatype Endpoint = Endpoint(
    device: string, interface: string, address: u32, prefix: nat, rate: nat, numaNode: int, cpuList: string,
        binder: string)

  datatype Pair = Pair(source: Endpoint, peer: Endpoint)

  // ---------------------------------------------------------------- Bits

  function Pow2(n: nat): (p: nat)
    ensures p > 0
  {
    if n == 0 then 1 else 2 * Pow2(n - 1)
  }

  /** Bitwise and. */
  function And(a: nat, b: nat): nat {
    if a == 0 || b == 0 then 0 else 2 * And(a / 2, b / 2) + (a % 2) * (b % 2)
  }

  /** `<<` on 32 bits: what is shifted out is lost. */
  function ShiftLeft(a: nat, n: nat): nat {
    a * Pow2(n) % 0x1_0000_0000
  }

  function Mask(prefix: nat): nat
    requires prefix <= 32
  {
    if prefix == 0 then 0 else ShiftLeft(0xFFFF_FFFF, 32 - prefix)
  }

  /** `same_subnet`. */
  predicate SameSubnet(left: Endpoint, right: Endpoint) {
    if left.prefix != right.prefix || left.prefix > 32 then false
    else And(left.address, Mask(left.prefix)) == And(right.address, Mask(left.prefix))
  }

  lemma HalfMod(a: nat, m: nat)
    requires m > 0
    ensures a % (2 * m) == 2 * ((a / 2) % m) + a % 2
  {
    var q, r := (a / 2) / m, (a / 2) % m;
    assert a == (2 * m) * q + (2 * r + a % 2) by {
      assert a / 2 == m * q + r;
      assert 2 * (m * q) == (2 * m) * q;
    }
    ModUnique(a, 2 * m, q, 2 * r + a % 2);
  }

  lemma ModUnique(a: nat, m: nat, q: nat, r: nat)
    requires m > 0 && a == m * q + r && r < m
    ensures a % m == r && a / m == q
  {
    var d, e := a / m, a % m;
    assert m * (q - d) == e - r;
    AtLeast(m, q - d);
  }

  lemma AtLeast(m: int, k: int)
    requires m >= 0
    ensures k >= 1 ==> m * k >= m
    ensures k <= -1 ==> m * k <= -m
  {
  }

  lemma {:induction false} PowersGrow(s: nat, w: nat)
    requires s <= w
    ensures Pow2(s) <= Pow2(w)
    decreases w
  {
    if s < w { PowersGrow(s, w - 1); }
  }

  /** Masking with the bits from s up to w keeps exactly the multiple of a power of two below. */
  lemma {:induction false} AndHighBits(a: nat, s: nat, w: nat)
    requires s <= w && a < Pow2(w)
    ensures Pow2(s) <= Pow2(w) && And(a, Pow2(w) - Pow2(s)) == a - a % Pow2(s)
    decreases w
  {
    PowersGrow(s, w);
    if w > 0 {
      var mask := Pow2(w) - Pow2(s);
      if s == 0 {
        AndHighBits(a / 2, 0, w - 1);
        assert mask / 2 == Pow2(w - 1) - 1 && mask % 2 == 1;
      } else {
        AndHighBits(a / 2, s - 1, w - 1);
        assert mask == 2 * (Pow2(w - 1) - Pow2(s - 1));
        HalfMod(a, Pow2(s - 1));
      }
      AndHalves(a, mask);
    }
  }

  lemma AndHalves(a: nat, b: nat)
    ensures And(a, b) == 2 * And(a / 2, b / 2) + (a % 2) * (b % 2)
  {
  }

  lemma MaskExact(prefix: nat)
    requires 0 < prefix <= 32
    ensures Pow2(32) == 0x1_0000_0000 && Pow2(32 - prefix) <= Pow2(32)
    ensures Mask(prefix) == Pow2(32) - Pow2(32 - prefix)
  {
    var m := Pow2(32 - prefix);
    assert Pow2(32) == 0x1_0000_0000 by {
      assert Pow2(8) == 256;
      assert Pow2(16) == 0x1_0000;
      assert Pow2(24) == 0x100_0000;
    }
    PowersGrow(32 - prefix, 32);
    assert 0xFFFF_FFFF * m == 0x1_0000_0000 * (m - 1) + (0x1_0000_0000 - m);
    ModUnique(0xFFFF_FFFF * m, 0x1_0000_0000, m - 1, 0x1_0000_0000 - m);
  }

  lemma SameQuotient(a: nat, b: nat, m: nat)
    requires m > 0
    ensures a - a % m == b - b % m <==> a / m == b / m
  {
    assert a - a % m == m * (a / m) && b - b % m == m * (b / m);
    if a / m < b / m { assert m * (b / m) >= m * (a / m + 1); }
    if b / m < a / m { assert m * (a / m) >= m * (b / m + 1); }
  }

  /** Two endpoints are in one subnet exactly when their prefixes are equal and their leading bits agree. */
  lemma SubnetIsQuotient(left: Endpoint, right: Endpoint)
    ensures SameSubnet(left, right)
       <==> left.prefix == right.prefix && left.prefix <= 32
            && left.address as nat / Pow2(32 - left.prefix) == right.address as nat / Pow2(32 - right.prefix)
  {
    if left.prefix == right.prefix && left.prefix <= 32 {
      var p := left.prefix;
      if p == 0 {
        MaskExact(1);
      } else {
        MaskExact(p);
        AndHighBits(left.address, 32 - p, 32);
        AndHighBits(right.address, 32 - p, 32);
        SameQuotient(left.address, right.address, Pow2(32 - p));
      }
    }
  }

  /** Being in one subnet is an equivalence among endpoints with a prefix of at most 32. */
  lemma SubnetsPartition(a: Endpoint, b: Endpoint, c: Endpoint)
    ensures SameSubnet(a, a) <==> a.prefix <= 32
    ensures SameSubnet(a, b) <==> SameSubnet(b, a)
    ensures SameSubnet(a, b) && SameSubnet(b, c) ==> SameSubnet(a, c)
  {
    hide And, Mask;
  }

  // ---------------------------------------------------------------- The join

  function Partners(left: Endpoint, peer: seq<Endpoint>): seq<Pair> {
    if peer == [] then []
    else (if SameSubnet(left, peer[0]) then [Pair(left, peer[0])] else []) + Partners(left, peer[1..])
  }

  /** Every pair in one subnet, source by source. */
  function Product(source: seq<Endpoint>, peer: seq<Endpoint>): seq<Pair> {
    if source == [] then [] else Partners(source[0], peer) + Product(source[1..], peer)
  }

  lemma {:induction false} PartnersCount(left: Endpoint, peer: seq<Endpoint>, p: Pair)
    ensures multiset(Partners(left, peer))[p]
         == if p.source == left && SameSubnet(left, p.peer) then multiset(peer)[p.peer] else 0
  {
    hide SameSubnet;
    if peer != [] {
      PartnersCount(left, peer[1..], p);
      assert peer == [peer[0]] + peer[1..];
    }
  }

  lemma CountCons(s: seq<Endpoint>, e: Endpoint)
    requires s != []
    ensures multiset(s)[e] == multiset(s[1..])[e] + if s[0] == e then 1 else 0
  {
    assert s == [s[0]] + s[1..];
  }

  lemma OneMore(n: nat, k: nat)
    ensures (n + 1) * k == n * k + k
  {
  }

  /** The join has each pair of one subnet as often as its two ends occur, and no other pair. */
  lemma {:induction false} ProductCount(source: seq<Endpoint>, peer: seq<Endpoint>, p: Pair)
    ensures multiset(Product(source, peer))[p]
         == if SameSubnet(p.source, p.peer) then multiset(source)[p.source] * multiset(peer)[p.peer] else 0
  {
    hide SameSubnet;
    if source != [] {
      PartnersCount(source[0], peer, p);
      ProductCount(source[1..], peer, p);
      CountCons(source, p.source);
      OneMore(multiset(source[1..])[p.source], multiset(peer)[p.peer]);
      assert Product(source, peer) == Partners(source[0], peer) + Product(source[1..], peer);
      hide Partners, Product;
    }
  }

  // ---------------------------------------------------------------- The stable sort

  predicate AtMost(a: Pair, b: Pair) {
    a.source.interface == b.source.interface || HostFile.Less(a.source.interface, b.source.interface)
  }

  predicate Sorted(pairs: seq<Pair>) {
    forall i, j :: 0 <= i < j < |pairs| ==> AtMost(pairs[i], pairs[j])
  }

  /** The pairs of one interface, in their order. */
  function Of(pairs: seq<Pair>, interface: string): seq<Pair> {
    if pairs == [] then [] else IfOn(pairs[0], interface) + Of(pairs[1..], interface)
  }

  function IfOn(p: Pair, interface: string): seq<Pair> {
    if p.source.interface == interface then [p] else []
  }

  /** A stable rearrangement: for every interface the same pairs in the same order. */
  ghost predicate Stable(a: seq<Pair>, b: seq<Pair>) {
    forall interface: string :: Of(a, interface) == Of(b, interface)
  }

  lemma OfCons(pairs: seq<Pair>, interface: string)
    requires pairs != []
    ensures Of(pairs, interface) == IfOn(pairs[0], interface) + Of(pairs[1..], interface)
  {
  }

  lemma Regroup(a: seq<Pair>, b: seq<Pair>, c: seq<Pair>)
    ensures a + (b + c) == a + b + c
  {
  }

  lemma {:induction false} OfAppend(a: seq<Pair>, b: seq<Pair>, interface: string)
    ensures Of(a + b, interface) == Of(a, interface) + Of(b, interface)
  {
    if a == [] {
      assert a + b == b;
      assert Of(a, interface) == [];
    } else {
      hide Of, IfOn;
      OfAppend(a[1..], b, interface);
      OfCons(a, interface);
      OfCons(a + b, interface);
      assert (a + b)[1..] == a[1..] + b;
      Regroup(IfOn(a[0], interface), Of(a[1..], interface), Of(b, interface));
    }
  }

  lemma {:induction false} OfCount(pairs: seq<Pair>, p: Pair)
    ensures multiset(Of(pairs, p.source.interface))[p] == multiset(pairs)[p]
  {
    if pairs != [] {
      OfCount(pairs[1..], p);
      assert pairs == [pairs[0]] + pairs[1..];
    }
  }

  /** A stable rearrangement is a permutation. */
  lemma StableCount(a: seq<Pair>, b: seq<Pair>, p: Pair)
    requires Stable(a, b)
    ensures multiset(a)[p] == multiset(b)[p]
  {
    OfCount(a, p);
    OfCount(b, p);
    assert Of(a, p.source.interface) == Of(b, p.source.interface);
  }

  lemma StableSize(a: seq<Pair>, b: seq<Pair>)
    requires Stable(a, b)
    ensures |a| == |b|
  {
    hide Stable;
    forall p: Pair ensures multiset(a)[p] == multiset(b)[p] { StableCount(a, b, p); }
    assert multiset(a) == multiset(b);
    assert |multiset(a)| == |a| && |multiset(b)| == |b|;
  }

  lemma {:induction false} OfOther(pairs: seq<Pair>, interface: string)
    requires forall i :: 0 <= i < |pairs| ==> pairs[i].source.interface != interface
    ensures Of(pairs, interface) == []
  {
    if pairs != [] { OfOther(pairs[1..], interface); }
  }

  /** Insertion behind everything that is not greater. */
  method Place(sorted: seq<Pair>, p: Pair) returns (r: seq<Pair>)
    requires Sorted(sorted)
    ensures Sorted(r) && Stable(r, sorted + [p])
  {
    var at: nat := |sorted|;
    while at > 0 && HostFile.Less(p.source.interface, sorted[at - 1].source.interface)
      invariant at <= |sorted|
      invariant forall i :: at <= i < |sorted| ==> HostFile.Less(p.source.interface, sorted[i].source.interface)
    {
      at := at - 1;
    }
    r := sorted[..at] + [p] + sorted[at..];
    PlacedSorted(sorted, p, at);
    PlacedStable(sorted, p, at);
  }

  lemma PlacedSorted(sorted: seq<Pair>, p: Pair, at: nat)
    requires Sorted(sorted) && at <= |sorted|
    requires forall i :: at <= i < |sorted| ==> HostFile.Less(p.source.interface, sorted[i].source.interface)
    requires at > 0 ==> !HostFile.Less(p.source.interface, sorted[at - 1].source.interface)
    ensures Sorted(sorted[..at] + [p] + sorted[at..])
  {
    var r := sorted[..at] + [p] + sorted[at..];
    forall i | 0 <= i < at ensures AtMost(sorted[i], p) {
      HostFile.LessTotal(sorted[at - 1].source.interface, p.source.interface);
      assert i < at - 1 ==> AtMost(sorted[i], sorted[at - 1]);
      if HostFile.Less(sorted[i].source.interface, sorted[at - 1].source.interface)
         && HostFile.Less(sorted[at - 1].source.interface, p.source.interface) {
        HostFile.LessTransitive(sorted[i].source.interface, sorted[at - 1].source.interface, p.source.interface);
      }
    }
    hide HostFile.Less;
    forall i, j | 0 <= i < j < |r| ensures AtMost(r[i], r[j]) {
      if i < at && j > at { assert AtMost(sorted[i], sorted[j - 1]); }
      else if i > at { assert AtMost(sorted[i - 1], sorted[j - 1]); }
    }
  }

  /** Moving a pair past pairs of other interfaces does not show. */
  lemma PassedOver(a: seq<Pair>, p: Pair, b: seq<Pair>, interface: string)
    requires forall i :: 0 <= i < |b| ==> b[i].source.interface != p.source.interface
    ensures Of(a + [p] + b, interface) == Of(a + b + [p], interface)
  {
    hide Of, IfOn;
    if interface == p.source.interface { OfOther(b, interface); } else { OfOther([p], interface); }
    OfAppend(a + [p], b, interface);
    OfAppend(a, [p], interface);
    OfAppend(a + b, [p], interface);
    OfAppend(a, b, interface);
    SwapEmpty(Of(a, interface), Of([p], interface), Of(b, interface));
  }

  lemma SwapEmpty(a: seq<Pair>, b: seq<Pair>, c: seq<Pair>)
    requires b == [] || c == []
    ensures a + b + c == a + c + b
  {
  }

  lemma PlacedStable(sorted: seq<Pair>, p: Pair, at: nat)
    requires at <= |sorted|
    requires forall i :: at <= i < |sorted| ==> HostFile.Less(p.source.interface, sorted[i].source.interface)
    ensures Stable(sorted[..at] + [p] + sorted[at..], sorted + [p])
  {
    var a, b := sorted[..at], sorted[at..];
    assert sorted == a + b;
    HostFile.LessTotal(p.source.interface, p.source.interface);
    hide Of, HostFile.Less;
    forall i | 0 <= i < |b| ensures b[i].source.interface != p.source.interface {
      assert b[i] == sorted[at + i];
    }
    forall interface: string ensures Of(a + [p] + b, interface) == Of(sorted + [p], interface) {
      PassedOver(a, p, b, interface);
    }
  }

  /** `sort_by` on the source interface. */
  method SortByInterface(pairs: seq<Pair>) returns (r: seq<Pair>)
    ensures Sorted(r) && Stable(r, pairs)
  {
    r := [];
    var k := 0;
    while k < |pairs|
      invariant k <= |pairs| && Sorted(r) && Stable(r, pairs[..k])
    {
      var before := r;
      r := Place(r, pairs[k]);
      assert pairs[..k + 1] == pairs[..k] + [pairs[k]];
      forall interface: string ensures Of(r, interface) == Of(pairs[..k + 1], interface) {
        OfAppend(before, [pairs[k]], interface);
        OfAppend(pairs[..k], [pairs[k]], interface);
      }
      k := k + 1;
    }
    assert pairs[..k] == pairs;
  }

  /** `pair_fabrics`. */
  method PairFabrics(source: seq<Endpoint>, peer: seq<Endpoint>) returns (pairs: seq<Pair>)
    ensures Sorted(pairs) && Stable(pairs, Product(source, peer))
    ensures forall p ::
      multiset(pairs)[p]
        == if SameSubnet(p.source, p.peer) then multiset(source)[p.source] * multiset(peer)[p.peer] else 0
  {
    pairs := SortByInterface(Product(source, peer));
    forall p: Pair
      ensures multiset(pairs)[p] == if SameSubnet(p.source, p.peer)
          then multiset(source)[p.source] * multiset(peer)[p.peer] else 0
    {
      ProductCount(source, peer, p);
      StableCount(pairs, Product(source, peer), p);
    }
  }

  // ---------------------------------------------------------------- The fastest links

  function Rate(p: Pair): nat {
    if p.source.rate <= p.peer.rate then p.source.rate else p.peer.rate
  }

  /** The largest rate among some pairs, and 0 for none. */
  ghost predicate IsFastest(rate: nat, pairs: seq<Pair>) {
    && (forall p :: p in pairs ==> Rate(p) <= rate)
    && if pairs == [] then rate == 0 else exists p :: p in pairs && Rate(p) == rate
  }

  /** `fastest_fabric`: all the pairs of the largest rate, as often as they were there, and nothing else. */
  method FastestFabric(pairs: seq<Pair>) returns (kept: seq<Pair>, ghost fastest: nat)
    ensures IsFastest(fastest, pairs) && Sorted(kept)
    ensures forall p: Pair :: multiset(kept)[p] == if Rate(p) == fastest then multiset(pairs)[p] else 0
    ensures Sorted(pairs) ==> kept == Retained(pairs, fastest)
    ensures |kept| == |Retained(pairs, fastest)|
  {
    var best, k := 0, 0;
    while k < |pairs|
      invariant k <= |pairs| && IsFastest(best, pairs[..k])
    {
      assert pairs[..k + 1] == pairs[..k] + [pairs[k]];
      if k == 0 || Rate(pairs[k]) > best {
        best := Rate(pairs[k]);
        assert pairs[k] in pairs[..k + 1];
      } else {
        var p :| p in pairs[..k] && Rate(p) == best;
        assert p in pairs[..k + 1];
      }
      k := k + 1;
    }
    assert pairs[..k] == pairs;
    fastest := best;
    kept := SortByInterface(Retained(pairs, best));
    forall p: Pair ensures multiset(kept)[p] == if Rate(p) == best then multiset(pairs)[p] else 0 {
      StableCount(kept, Retained(pairs, best), p);
      RetainedCount(pairs, best, p);
    }
    StableSize(kept, Retained(pairs, best));
    if Sorted(pairs) {
      RetainedSorted(pairs, best);
      StableUnique(kept, Retained(pairs, best));
    }
  }

  /** `Vec::retain`. */
  function Retained(pairs: seq<Pair>, rate: nat): (r: seq<Pair>)
    ensures forall p :: p in r <==> p in pairs && Rate(p) == rate
  {
    if pairs == [] then []
    else if Rate(pairs[0]) == rate then [pairs[0]] + Retained(pairs[1..], rate)
    else Retained(pairs[1..], rate)
  }

  lemma {:induction false} RetainedCount(pairs: seq<Pair>, rate: nat, p: Pair)
    ensures multiset(Retained(pairs, rate))[p] == if Rate(p) == rate then multiset(pairs)[p] else 0
  {
    if pairs != [] {
      RetainedCount(pairs[1..], rate, p);
      assert pairs == [pairs[0]] + pairs[1..];
    }
  }

  lemma {:induction false} RetainedSorted(pairs: seq<Pair>, rate: nat)
    requires Sorted(pairs)
    ensures Sorted(Retained(pairs, rate))
  {
    if pairs != [] {
      RetainedSorted(pairs[1..], rate);
      var r := Retained(pairs[1..], rate);
      hide AtMost, Rate;
      forall i | 0 <= i < |r| ensures AtMost(pairs[0], r[i]) {
        assert r[i] in r;
        var k :| 0 <= k < |pairs| - 1 && pairs[1..][k] == r[i];
        assert AtMost(pairs[0], pairs[k + 1]);
      }
    }
  }

  /** A sorted list has one stable rearrangement that is sorted: itself. */
  lemma {:induction false} StableUnique(a: seq<Pair>, b: seq<Pair>)
    requires Sorted(a) && Sorted(b) && Stable(a, b)
    ensures a == b
  {
    if a == [] {
      OnlyEmpty(b);
    } else if b == [] {
      OnlyEmpty(a);
    } else {
      FirstOfBoth(a, b);
      hide AtMost, Of;
      TailStable(a, b);
      assert Sorted(a[1..]) && Sorted(b[1..]);
      StableUnique(a[1..], b[1..]);
      assert a == [a[0]] + a[1..] && b == [b[0]] + b[1..];
    }
  }

  lemma OnlyEmpty(s: seq<Pair>)
    requires Stable(s, []) || Stable([], s)
    ensures s == []
  {
    if s != [] {
      OfHead(s);
      hide IfOn;
    }
  }

  lemma OfHead(s: seq<Pair>)
    requires s != []
    ensures Of(s, s[0].source.interface) == [s[0]] + Of(s[1..], s[0].source.interface)
  {
  }

  lemma {:induction false} OfMember(s: seq<Pair>, interface: string)
    requires Of(s, interface) != []
    ensures exists k :: 0 <= k < |s| && s[k].source.interface == interface
  {
    if s != [] && s[0].source.interface != interface {
      OfMember(s[1..], interface);
      var k :| 0 <= k < |s| - 1 && s[1..][k].source.interface == interface;
      assert s[k + 1].source.interface == interface;
    }
  }

  lemma FirstOfBoth(a: seq<Pair>, b: seq<Pair>)
    requires a != [] && b != [] && Sorted(a) && Sorted(b) && Stable(a, b)
    ensures a[0] == b[0]
  {
    var i, j := a[0].source.interface, b[0].source.interface;
    OfHead(a);
    OfHead(b);
    assert Of(b, i) == Of(a, i) && Of(a, j) == Of(b, j);
    OfMember(b, i);
    OfMember(a, j);
    var x :| 0 <= x < |b| && b[x].source.interface == i;
    var y :| 0 <= y < |a| && a[y].source.interface == j;
    hide Of;
    assert x > 0 ==> AtMost(b[0], b[x]);
    assert y > 0 ==> AtMost(a[0], a[y]);
    HostFile.LessTotal(i, j);
    assert Of(a, i)[0] == a[0] && Of(b, j)[0] == b[0];
  }

  lemma TailStable(a: seq<Pair>, b: seq<Pair>)
    requires a != [] && b != [] && a[0] == b[0] && Stable(a, b)
    ensures Stable(a[1..], b[1..])
  {
    forall interface: string ensures Of(a[1..], interface) == Of(b[1..], interface) {
      OfCons(a, interface);
      OfCons(b, interface);
      assert Of(a, interface) == Of(b, interface);
      hide Of;
      var h := IfOn(a[0], interface);
      assert (h + Of(a[1..], interface))[|h|..] == Of(a[1..], interface);
      assert (h + Of(b[1..], interface))[|h|..] == Of(b[1..], interface);
    }
  }

  // ---------------------------------------------------------------- The summary

  /** A map from rates to counts, by ascending rate. */
  type Rates = seq<(nat, nat)>

  predicate Ascending(rates: Rates) {
    forall i, j :: 0 <= i < j < |rates| ==> rates[i].0 < rates[j].0
  }

  /** Every rate that occurs, with how often. */
  ghost predicate IsHistogram(rates: Rates, pairs: seq<Pair>) {
    && Ascending(rates)
    && (forall i :: 0 <= i < |rates| ==> rates[i].1 > 0 && rates[i].1 == |Retained(pairs, rates[i].0)|)
    && (forall p :: p in pairs ==> exists i :: 0 <= i < |rates| && rates[i].0 == Rate(p))
  }

  lemma {:induction false} RetainedSnoc(pairs: seq<Pair>, p: Pair, rate: nat)
    ensures |Retained(pairs + [p], rate)| == |Retained(pairs, rate)| + if Rate(p) == rate then 1 else 0
  {
    if pairs == [] {
      assert Retained([p], rate) == if Rate(p) == rate then [p] else [];
      assert pairs + [p] == [p];
    } else {
      hide Rate;
      RetainedSnoc(pairs[1..], p, rate);
      assert (pairs + [p])[1..] == pairs[1..] + [p];
    }
  }

  /** A rate that is there is counted once more. */
  predicate CountedMore(rates: Rates, r: Rates, rate: nat, at: nat) {
    at < |rates| && rates[at].0 == rate && r == rates[at := (rate, rates[at].1 + 1)]
  }

  /** A rate that is not there is put in its place with a count of one. */
  predicate CountedFirst(rates: Rates, r: Rates, rate: nat, at: nat) {
    && at <= |rates| && r == rates[..at] + [(rate, 1)] + rates[at..]
    && forall i :: 0 <= i < |rates| ==> rates[i].0 != rate
  }

  /** `*entry(rate).or_default() += 1`. */
  method Bump(rates: Rates, rate: nat) returns (r: Rates, ghost at: nat)
    requires Ascending(rates)
    ensures Ascending(r) && (CountedMore(rates, r, rate, at) || CountedFirst(rates, r, rate, at))
  {
    var k := 0;
    while k < |rates| && rates[k].0 < rate
      invariant k <= |rates| && forall i :: 0 <= i < k ==> rates[i].0 < rate
    {
      k := k + 1;
    }
    at := k;
    if k < |rates| && rates[k].0 == rate {
      r := rates[k := (rate, rates[k].1 + 1)];
    } else {
      r := rates[..k] + [(rate, 1)] + rates[k..];
    }
  }

  lemma HistogramAscends(rates: Rates, pairs: seq<Pair>)
    requires IsHistogram(rates, pairs)
    ensures Ascending(rates)
  {
  }

  lemma NothingToSay()
    ensures Summary([]) == ""
  {
  }

  lemma RetainedWitness(pairs: seq<Pair>, rate: nat)
    requires Retained(pairs, rate) != []
    ensures exists p :: p in pairs && Rate(p) == rate
  {
    var p := Retained(pairs, rate)[0];
    assert p in Retained(pairs, rate);
  }

  lemma CountedMoreNext(rates: Rates, pairs: seq<Pair>, p: Pair, r: Rates, at: nat)
    requires IsHistogram(rates, pairs) && Ascending(r) && CountedMore(rates, r, Rate(p), at)
    ensures IsHistogram(r, pairs + [p])
  {
    hide Rate, Retained;
    forall i | 0 <= i < |r| ensures r[i].1 > 0 && r[i].1 == |Retained(pairs + [p], r[i].0)| {
      RetainedSnoc(pairs, p, r[i].0);
      assert r[i].0 == rates[i].0;
    }
    forall q | q in pairs + [p] ensures exists i :: 0 <= i < |r| && r[i].0 == Rate(q) {
      if q in pairs {
        var i :| 0 <= i < |rates| && rates[i].0 == Rate(q);
        assert r[i].0 == Rate(q);
      } else {
        assert r[at].0 == Rate(q);
      }
    }
  }

  lemma CountedFirstNext(rates: Rates, pairs: seq<Pair>, p: Pair, r: Rates, at: nat)
    requires IsHistogram(rates, pairs) && Ascending(r) && CountedFirst(rates, r, Rate(p), at)
    ensures IsHistogram(r, pairs + [p])
  {
    assert Retained(pairs, Rate(p)) == [] by {
      if Retained(pairs, Rate(p)) != [] { RetainedWitness(pairs, Rate(p)); }
    }
    hide Rate, Retained;
    forall i | 0 <= i < |r| ensures r[i].1 > 0 && r[i].1 == |Retained(pairs + [p], r[i].0)| {
      RetainedSnoc(pairs, p, r[i].0);
      assert i < at ==> r[i] == rates[i];
      assert i > at ==> r[i] == rates[i - 1];
    }
    forall q | q in pairs + [p] ensures exists i :: 0 <= i < |r| && r[i].0 == Rate(q) {
      if q in pairs {
        var i :| 0 <= i < |rates| && rates[i].0 == Rate(q);
        assert r[if i >= at then i + 1 else i].0 == Rate(q);
      } else {
        assert r[at].0 == Rate(q);
      }
    }
  }

  function Item(entry: (nat, nat)): string {
    Decimal(entry.1) + " x " + Decimal(entry.0) + " Gbps"
  }

  /** The entries from the largest rate down, joined. */
  function Summary(rates: Rates): string {
    if rates == [] then ""
    else if |rates| == 1 then Item(rates[0])
    else Item(rates[|rates| - 1]) + ", " + Summary(rates[..|rates| - 1])
  }

  /** `summarize_fabrics`. */
  method SummarizeFabrics(pairs: seq<Pair>) returns (text: string, ghost rates: Rates)
    ensures IsHistogram(rates, pairs) && text == Summary(rates)
  {
    var counts: Rates := [];
    var k := 0;
    while k < |pairs|
      invariant k <= |pairs| && IsHistogram(counts, pairs[..k])
    {
      var before := counts;
      ghost var at;
      hide IsHistogram;
      HistogramAscends(counts, pairs[..k]);
      counts, at := Bump(counts, Rate(pairs[k]));
      if CountedMore(before, counts, Rate(pairs[k]), at) {
        CountedMoreNext(before, pairs[..k], pairs[k], counts, at);
      } else {
        CountedFirstNext(before, pairs[..k], pairs[k], counts, at);
      }
      assert pairs[..k + 1] == pairs[..k] + [pairs[k]];
      k := k + 1;
    }
    assert pairs[..k] == pairs;
    rates := counts;
    text := Render(counts);
  }

  method Render(rates: Rates) returns (text: string)
    ensures text == Summary(rates)
  {
    text := "";
    var k := 0;
    while k < |rates|
      invariant k <= |rates|
      invariant text == Summary(rates[..k])
    {
      assert rates[..k + 1][..k] == rates[..k];
      text := if k == 0 then Item(rates[0]) else Item(rates[k]) + ", " + text;
      k := k + 1;
    }
    assert rates[..k] == rates;
  }

  /** The first thing the summary says of any links at all is the fastest selection: its size, then its rate. */
  lemma SummaryLeads(pairs: seq<Pair>, rates: Rates, fastest: nat)
    requires pairs != [] && IsHistogram(rates, pairs) && IsFastest(fastest, pairs)
    ensures rates != [] && rates[|rates| - 1] == (fastest, |Retained(pairs, fastest)|)
    ensures Item((fastest, |Retained(pairs, fastest)|)) <= Summary(rates)
  {
    hide Item, Retained;
    var p :| p in pairs && Rate(p) == fastest;
    var i :| 0 <= i < |rates| && rates[i].0 == fastest;
    var last := rates[|rates| - 1];
    assert last.1 == |Retained(pairs, last.0)| && last.1 > 0;
    RetainedWitness(pairs, last.0);
    var q :| q in pairs && Rate(q) == last.0;
    hide Rate;
    assert last.0 <= fastest;
    SummaryHead(rates);
    hide Summary;
  }

  lemma SummaryHead(rates: Rates)
    requires rates != []
    ensures Item(rates[|rates| - 1]) <= Summary(rates)
  {
    hide Item;
  }

  /** Join, select and summarize: the selection is what the summary counts first. */
  method Discover(source: seq<Endpoint>, peer: seq<Endpoint>) returns (pairs: seq<Pair>, kept: seq<Pair>, text: string)
    ensures Sorted(pairs) && Stable(pairs, Product(source, peer)) && Sorted(kept)
    ensures pairs != [] ==> kept != [] && Item((Rate(kept[0]), |kept|)) <= text
    ensures pairs == [] ==> kept == [] && text == ""
  {
    pairs := PairFabrics(source, peer);
    ghost var fastest, rates;
    kept, fastest := FastestFabric(pairs);
    text, rates := SummarizeFabrics(pairs);
    hide Item, Summary;
    if pairs != [] {
      SummaryLeads(pairs, rates, fastest);
      assert kept[0] in kept;
    } else {
      assert rates == [] by { EmptyHistogram(rates); }
      NothingToSay();
    }
  }

  lemma NothingRetained(rate: nat)
    ensures |Retained([], rate)| == 0
  {
  }

  lemma EmptyHistogram(rates: Rates)
    requires IsHistogram(rates, [])
    ensures rates == []
  {
    if rates != [] { NothingRetained(rates[0].0); }
  }
}
