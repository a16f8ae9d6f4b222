/** Resolving an exec-hop host to its route, and the label that shows it. */
module Route {
  import opened Wrappers
  import opened Text
  import opened Hosts

  const MAX_EXEC_HOPS: nat := 4

  datatype RouteHop = RouteHop(target: string, port: u16, password: Option<string>)

  datatype RouteError = Cycle(name: string) | TooManyHops | NoEntryHost(name: string)

  /** The managed hosts as `find` sees them. */
  type HostMap = map<string, HostEntry>

  ghost predicate Consistent(hosts: HostMap) {
    forall n :: n in hosts ==> hosts[n].name == n
  }

  // ---------------------------------------------------------------- The parent walk

  /** The next exec-hop host towards the entry, if the jump names one. */
  function Parent(hosts: HostMap, e: HostEntry): Option<HostEntry> {
    if e.proxyJump.Some? && e.proxyJump.value in hosts && IsExecHop(hosts[e.proxyJump.value])
    then Some(hosts[e.proxyJump.value]) else None
  }

  function Ancestor(hosts: HostMap, e: HostEntry, n: nat): Option<HostEntry> {
    if n == 0 then Some(e)
    else
      var previous :- Ancestor(hosts, e, n - 1);
      Parent(hosts, previous)
  }

  /** The walk meets exactly `k` exec-hop hosts and then leaves them through a declared jump. */
  predicate Leaves(hosts: HostMap, e: HostEntry, k: nat) {
    k > 0 && Ancestor(hosts, e, k) == None &&
    Ancestor(hosts, e, k - 1).Some? && Ancestor(hosts, e, k - 1).value.proxyJump.Some?
  }

  /** The first `k` hosts of the walk exist and no two share a name. */
  ghost predicate Acyclic(hosts: HostMap, e: HostEntry, k: nat) {
    && (forall i :: 0 <= i < k ==> Ancestor(hosts, e, i).Some?)
    && forall i, j :: 0 <= i < j < k ==> Ancestor(hosts, e, i).value.name != Ancestor(hosts, e, j).value.name
  }

  function HopOf(e: HostEntry, passwords: map<string, string>): RouteHop {
    RouteHop(e.user + "@" + e.hostname, e.port, if e.name in passwords then Some(passwords[e.name]) else None)
  }

  lemma {:induction false} EarlierAncestors(hosts: HostMap, e: HostEntry, i: nat, n: nat)
    requires i <= n && Ancestor(hosts, e, n).Some?
    ensures Ancestor(hosts, e, i).Some?
  {
    if i < n { EarlierAncestors(hosts, e, i, n - 1); }
  }

  lemma {:induction false} LaterAncestors(hosts: HostMap, e: HostEntry, n: nat, m: nat)
    requires n <= m && Ancestor(hosts, e, n) == None
    ensures Ancestor(hosts, e, m) == None
  {
    if n < m { LaterAncestors(hosts, e, n, m - 1); }
  }

  lemma {:induction false} LeavesOnce(hosts: HostMap, e: HostEntry, k: nat, m: nat)
    requires Leaves(hosts, e, k) && Leaves(hosts, e, m)
    ensures k == m
  {
    if k < m { LaterAncestors(hosts, e, k, m - 1); }
    if m < k { LaterAncestors(hosts, e, m, k - 1); }
  }

  // ---------------------------------------------------------------- resolve_host_chain

  /** The route is accepted: the walk leaves after at most four distinct exec-hop hosts. */
  ghost predicate Accepted(hosts: HostMap, e: HostEntry, k: nat) {
    1 <= k <= MAX_EXEC_HOPS && Leaves(hosts, e, k) && Acyclic(hosts, e, k)
  }

  /** What each error says about the walk. */
  ghost predicate Rejected(hosts: HostMap, e: HostEntry, error: RouteError) {
    match error
    case Cycle(name) =>
      exists i, j :: 0 <= i < j <= MAX_EXEC_HOPS && Acyclic(hosts, e, j) && Ancestor(hosts, e, j).Some?
        && Ancestor(hosts, e, j).value.name == name && Ancestor(hosts, e, i).value.name == name
    case TooManyHops => Acyclic(hosts, e, MAX_EXEC_HOPS + 1)
    case NoEntryHost(name) =>
      exists k :: 0 <= k < MAX_EXEC_HOPS && Acyclic(hosts, e, k + 1)
        && Ancestor(hosts, e, k).value.name == name && Ancestor(hosts, e, k).value.proxyJump == None
  }

  lemma RejectedIsNotAccepted(hosts: HostMap, e: HostEntry, error: RouteError, k: nat)
    requires Rejected(hosts, e, error)
    ensures !Accepted(hosts, e, k)
  {
    match error {
      case Cycle(name) =>
        var i: nat, j: nat :| i < j <= MAX_EXEC_HOPS && Acyclic(hosts, e, j) && Ancestor(hosts, e, j).Some?
          && Ancestor(hosts, e, j).value.name == name && Ancestor(hosts, e, i).value.name == name;
        StillWalking(hosts, e, j);
      case TooManyHops =>
        StillWalking(hosts, e, MAX_EXEC_HOPS);
      case NoEntryHost(name) =>
        var k: nat :| k < MAX_EXEC_HOPS && Acyclic(hosts, e, k + 1)
          && Ancestor(hosts, e, k).value.name == name && Ancestor(hosts, e, k).value.proxyJump == None;
        StillWalking(hosts, e, k);
    }
  }

  lemma AcyclicStep(hosts: HostMap, e: HostEntry, n: nat, visited: set<string>, current: HostEntry)
    requires Acyclic(hosts, e, n) && Ancestor(hosts, e, n) == Some(current) && current.name !in visited
    requires forall i :: 0 <= i < n ==> Ancestor(hosts, e, i).value.name in visited
    ensures Acyclic(hosts, e, n + 1)
  {
  }

  method ResolveHostChain(hosts: HostMap, passwords: map<string, string>, finalEntry: HostEntry)
    returns (r: Result<(string, seq<RouteHop>), RouteError>)
    ensures r.Ok? ==>
      var (entry, route) := r.value;
      && Accepted(hosts, finalEntry, |route|)
      && entry == Ancestor(hosts, finalEntry, |route| - 1).value.proxyJump.value
      && forall i :: 0 <= i < |route| ==>
          route[i] == HopOf(Ancestor(hosts, finalEntry, |route| - 1 - i).value, passwords)
    ensures r.Err? ==> Rejected(hosts, finalEntry, r.error) && forall k: nat :: !Accepted(hosts, finalEntry, k)
  {
    hide Ancestor, HopOf, Rejected;
    var route: seq<RouteHop> := [];
    var current := finalEntry;
    var visited: set<string> := {};
    assert Ancestor(hosts, finalEntry, 0) == Some(current) by { FirstAncestor(hosts, finalEntry); }
    while true
      invariant |route| <= MAX_EXEC_HOPS
      invariant Ancestor(hosts, finalEntry, |route|) == Some(current)
      invariant Acyclic(hosts, finalEntry, |route|)
      invariant forall i :: 0 <= i < |route| ==> route[i] == HopOf(Ancestor(hosts, finalEntry, i).value, passwords)
      invariant forall i :: 0 <= i < |route| ==> Ancestor(hosts, finalEntry, i).value.name in visited
      invariant forall n :: n in visited ==>
          exists i :: 0 <= i < |route| && Ancestor(hosts, finalEntry, i).value.name == n
      decreases MAX_EXEC_HOPS - |route|
    {
      ghost var n := |route|;
      if current.name in visited {
        ghost var i :| 0 <= i < n && Ancestor(hosts, finalEntry, i).value.name == current.name;
        CycleFound(hosts, finalEntry, i, n);
        return Err(Cycle(current.name));
      }
      AcyclicStep(hosts, finalEntry, n, visited, current);
      NextAncestor(hosts, finalEntry, n);
      visited := visited + {current.name};
      route := route + [HopOf(current, passwords)];
      if |route| > MAX_EXEC_HOPS {
        TooMany(hosts, finalEntry);
        return Err(TooManyHops);
      }
      if current.proxyJump == None {
        NoEntry(hosts, finalEntry, n);
        return Err(NoEntryHost(current.name));
      }
      var parent := current.proxyJump.value;
      if parent in hosts && IsExecHop(hosts[parent]) {
        current := hosts[parent];
      } else {
        var reversed := seq(|route|, i requires 0 <= i < |route| => route[|route| - 1 - i]);
        return Ok((parent, reversed));
      }
    }
  }

  lemma FirstAncestor(hosts: HostMap, e: HostEntry)
    ensures Ancestor(hosts, e, 0) == Some(e)
  {
  }

  lemma NextAncestor(hosts: HostMap, e: HostEntry, n: nat)
    requires Ancestor(hosts, e, n).Some?
    ensures Ancestor(hosts, e, n + 1) == Parent(hosts, Ancestor(hosts, e, n).value)
  {
  }

  lemma CycleFound(hosts: HostMap, e: HostEntry, i: nat, n: nat)
    requires i < n <= MAX_EXEC_HOPS && Acyclic(hosts, e, n) && Ancestor(hosts, e, n).Some?
    requires Ancestor(hosts, e, i).value.name == Ancestor(hosts, e, n).value.name
    ensures var error := Cycle(Ancestor(hosts, e, n).value.name);
            Rejected(hosts, e, error) && forall k: nat :: !Accepted(hosts, e, k)
  {
    hide Ancestor, Acyclic;
    var error := Cycle(Ancestor(hosts, e, n).value.name);
    assert Rejected(hosts, e, error);
    forall k: nat ensures !Accepted(hosts, e, k) { RejectedIsNotAccepted(hosts, e, error, k); }
  }

  lemma TooMany(hosts: HostMap, e: HostEntry)
    requires Acyclic(hosts, e, MAX_EXEC_HOPS + 1)
    ensures Rejected(hosts, e, TooManyHops) && forall k: nat :: !Accepted(hosts, e, k)
  {
    hide Ancestor, Acyclic;
    forall k: nat ensures !Accepted(hosts, e, k) { RejectedIsNotAccepted(hosts, e, TooManyHops, k); }
  }

  lemma NoEntry(hosts: HostMap, e: HostEntry, n: nat)
    requires n < MAX_EXEC_HOPS && Acyclic(hosts, e, n + 1) && Ancestor(hosts, e, n).value.proxyJump == None
    ensures var error := NoEntryHost(Ancestor(hosts, e, n).value.name);
            Rejected(hosts, e, error) && forall k: nat :: !Accepted(hosts, e, k)
  {
    hide Ancestor;
    var error := NoEntryHost(Ancestor(hosts, e, n).value.name);
    assert Rejected(hosts, e, error);
    forall k: nat ensures !Accepted(hosts, e, k) { RejectedIsNotAccepted(hosts, e, error, k); }
  }

  /** Where the walk still has a host, it has not left, and an earlier departure is impossible. */
  lemma StillWalking(hosts: HostMap, e: HostEntry, n: nat)
    requires Ancestor(hosts, e, n).Some?
    ensures forall k :: 0 <= k <= n ==> !Leaves(hosts, e, k)
    ensures Ancestor(hosts, e, n).value.proxyJump == None ==> forall k :: n < k ==> !Leaves(hosts, e, k)
    ensures forall k :: k > n && Acyclic(hosts, e, k) ==>
              forall i :: 0 <= i < n ==> Ancestor(hosts, e, i).value.name != Ancestor(hosts, e, n).value.name
  {
    forall k: nat | k <= n ensures !Leaves(hosts, e, k) {
      EarlierAncestors(hosts, e, k, n);
    }
    if Ancestor(hosts, e, n).value.proxyJump == None {
      assert Ancestor(hosts, e, n + 1) == None;
      forall k: nat | n < k ensures !Leaves(hosts, e, k) {
        if k > n + 1 { LaterAncestors(hosts, e, n + 1, k - 1); }
      }
    }
  }

  // ---------------------------------------------------------------- Stored entries

  lemma {:induction false} StoredAncestor(hosts: HostMap, e: HostEntry, n: nat)
    requires Consistent(hosts) && e.name in hosts && hosts[e.name] == e && Ancestor(hosts, e, n).Some?
    ensures var a := Ancestor(hosts, e, n).value; a.name in hosts && hosts[a.name] == a
  {
    if n > 0 { EarlierAncestors(hosts, e, n - 1, n); StoredAncestor(hosts, e, n - 1); }
  }

  lemma {:induction false} Shift(hosts: HostMap, e: HostEntry, i: nat, j: nat, m: nat)
    requires Ancestor(hosts, e, i) == Ancestor(hosts, e, j)
    ensures Ancestor(hosts, e, i + m) == Ancestor(hosts, e, j + m)
  {
    if m > 0 { Shift(hosts, e, i, j, m - 1); }
  }

  /** A walk from a stored host that leaves the exec-hop hosts never visits one twice. */
  lemma LeavingIsAcyclic(hosts: HostMap, e: HostEntry, k: nat)
    requires Consistent(hosts) && e.name in hosts && hosts[e.name] == e && Leaves(hosts, e, k)
    ensures Acyclic(hosts, e, k) && (k <= MAX_EXEC_HOPS ==> Accepted(hosts, e, k))
  {
    forall i: nat | i < k ensures Ancestor(hosts, e, i).Some? {
      EarlierAncestors(hosts, e, i, k - 1);
    }
    forall i: nat, j: nat | i < j < k
      ensures Ancestor(hosts, e, i).value.name != Ancestor(hosts, e, j).value.name
    {
      if Ancestor(hosts, e, i).value.name == Ancestor(hosts, e, j).value.name {
        StoredAncestor(hosts, e, i);
        StoredAncestor(hosts, e, j);
        Shift(hosts, e, i, j, k - j);
      }
    }
  }

  /**
   For a stored host, resolving succeeds exactly when the parent walk leaves the exec-hop hosts after at
   most four of them; on every host map, cyclic ones included, it terminates.
   */
  method ResolveStored(hosts: HostMap, passwords: map<string, string>, name: string)
    returns (r: Result<(string, seq<RouteHop>), RouteError>)
    requires Consistent(hosts) && name in hosts
    ensures r.Ok? <==> exists k :: 1 <= k <= MAX_EXEC_HOPS && Leaves(hosts, hosts[name], k)
    ensures r.Ok? ==> r.value.1 != [] && r.value.1[|r.value.1| - 1] == HopOf(hosts[name], passwords)
  {
    r := ResolveHostChain(hosts, passwords, hosts[name]);
    if r.Err? {
      forall k | 1 <= k <= MAX_EXEC_HOPS ensures !Leaves(hosts, hosts[name], k) {
        if Leaves(hosts, hosts[name], k) {
          LeavingIsAcyclic(hosts, hosts[name], k);
        }
      }
    }
  }

  // ---------------------------------------------------------------- route_label

  function Join(parts: seq<string>, separator: string): string {
    if parts == [] then ""
    else if |parts| == 1 then parts[0]
    else parts[0] + separator + Join(parts[1..], separator)
  }

  /** Aliases on the way to `e`, entry host first: the entry, then every hop but `e` itself. */
  ghost function Aliases(hosts: HostMap, e: HostEntry, k: nat): seq<string>
    requires Accepted(hosts, e, k)
  {
    [Ancestor(hosts, e, k - 1).value.proxyJump.value]
    + seq(k - 1, i requires 0 <= i < k - 1 => Ancestor(hosts, e, k - 1 - i).value.name)
  }

  /** A chain of `n` jumps is as long as the route of any accepted host. */
  ghost predicate Exact(hosts: HostMap, e: HostEntry, n: nat) {
    forall k :: Accepted(hosts, e, k) ==> k == n
  }

  lemma LeftIsExact(hosts: HostMap, e: HostEntry, n: nat)
    requires Leaves(hosts, e, n)
    ensures Exact(hosts, e, n)
  {
    forall k | Accepted(hosts, e, k) ensures k == n {
      LeavesOnce(hosts, e, k, n);
    }
  }

  lemma RepeatedJumpIsExact(hosts: HostMap, e: HostEntry, i: nat, n: nat)
    requires i < n && Ancestor(hosts, e, n).Some? && Ancestor(hosts, e, i).Some?
    requires Ancestor(hosts, e, n).value.proxyJump == Ancestor(hosts, e, i).value.proxyJump
    ensures Exact(hosts, e, n)
  {
    StillWalking(hosts, e, n);
    EarlierAncestors(hosts, e, i + 1, n);
    assert Ancestor(hosts, e, n + 1) == Ancestor(hosts, e, i + 1);
    StillWalking(hosts, e, n + 1);
  }

  method RouteLabel(hosts: HostMap, e: HostEntry) returns (text: string)
    requires Consistent(hosts)
    ensures e.proxyJump == None && e.bastionProxy == None ==> text == "direct"
    ensures e.proxyJump == None && e.bastionProxy.Some? ==> text == "bastion:" + e.bastionProxy.value
    ensures e.proxyJump.Some? && !IsExecHop(e) ==> text == "jump:" + e.proxyJump.value
    ensures e.proxyJump.Some? && IsExecHop(e) ==>
      forall k :: Accepted(hosts, e, k) ==>
        text == "exec-hop:" + Join(Aliases(hosts, e, k), " -> ")
  {
    if e.proxyJump.Some? {
      var jump := e.proxyJump.value;
      if !IsExecHop(e) {
        return "jump:" + jump;
      }
      var chain := [jump];
      var cursor := jump;
      while |chain| < 4
        invariant 1 <= |chain| <= 4 && cursor == chain[|chain| - 1]
        invariant forall i :: 0 <= i < |chain| ==>
          Ancestor(hosts, e, i).Some? && Ancestor(hosts, e, i).value.proxyJump == Some(chain[i])
        decreases 4 - |chain|
      {
        ghost var n := |chain|;
        assert Ancestor(hosts, e, n) == Parent(hosts, Ancestor(hosts, e, n - 1).value);
        if cursor !in hosts || !IsExecHop(hosts[cursor]) {
          LeftIsExact(hosts, e, n);
          break;
        }
        var parent := hosts[cursor];
        if parent.proxyJump == None {
          StillWalking(hosts, e, n);
          assert Exact(hosts, e, n);
          break;
        }
        var next := parent.proxyJump.value;
        if next in chain {
          ghost var i :| 0 <= i < n && chain[i] == next;
          RepeatedJumpIsExact(hosts, e, i, n);
          break;
        }
        cursor := next;
        chain := chain + [next];
      }
      if |chain| == 4 {
        StillWalking(hosts, e, 3);
      }
      assert Exact(hosts, e, |chain|);
      var reversed := seq(|chain|, i requires 0 <= i < |chain| => chain[|chain| - 1 - i]);
      forall k | Accepted(hosts, e, k)
        ensures reversed == Aliases(hosts, e, k)
      {
        ReversedChain(hosts, e, chain, k, reversed);
      }
      return "exec-hop:" + Join(reversed, " -> ");
    }
    if e.bastionProxy.Some? {
      return "bastion:" + e.bastionProxy.value;
    }
    return "direct";
  }

  lemma ReversedChain(hosts: HostMap, e: HostEntry, chain: seq<string>, k: nat, reversed: seq<string>)
    requires Consistent(hosts) && Accepted(hosts, e, k) && |chain| == k == |reversed|
    requires forall i :: 0 <= i < k ==>
      Ancestor(hosts, e, i).Some? && Ancestor(hosts, e, i).value.proxyJump == Some(chain[i])
    requires forall i :: 0 <= i < k ==> reversed[i] == chain[k - 1 - i]
    ensures reversed == Aliases(hosts, e, k)
  {
    forall j | 1 <= j < k ensures reversed[j] == Ancestor(hosts, e, k - j).value.name {
      assert Ancestor(hosts, e, k - j) == Parent(hosts, Ancestor(hosts, e, k - j - 1).value);
    }
  }
}
