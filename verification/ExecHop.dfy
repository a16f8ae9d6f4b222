/**
 The client's side of an exec-hop run: the route of a stored host becomes one request, and the helpers
 carry the command along exactly that route.
 */
module ExecHop {
  import opened Wrappers
  import opened Text
  import opened Json
  import opened Fields
  import opened Hosts
  import opened Wire
  import opened Delivery
  import opened DeliveryRuns
  import R = Route

  datatype RequestError = BadTarget | BadPort | BadCommand

  /** `u8::is_ascii_control`. */
  predicate IsControl(c: char) {
    c < ' ' || c == 0x7F as char
  }

  /** `ExecRequest::new`. */
  function NewRequest(target: Utf8, port: u16, command: Utf8, stdinBytes: u64): Result<ExecRequest, RequestError> {
    if target == "" || exists i :: 0 <= i < |target| && IsControl(target[i]) then Err(BadTarget)
    else if port == 0 then Err(BadPort)
    else if command == "" || |command| > MAX_HEADER_BYTES / 2 then Err(BadCommand)
    else Ok(ExecRequest(PROTOCOL_VERSION, target, port, command, stdinBytes, None, false, []))
  }

  /** Host names and passwords are Rust strings. */
  predicate TextHop(h: R.RouteHop) {
    ValidUtf8(h.target) && (h.password.Some? ==> ValidUtf8(h.password.value))
  }

  /** Every host the route can go through has text for its address and password. */
  ghost predicate TextWalk(hosts: R.HostMap, passwords: map<string, string>, e: HostEntry) {
    forall n: nat :: R.Ancestor(hosts, e, n).Some? ==> TextHop(R.HopOf(R.Ancestor(hosts, e, n).value, passwords))
  }

  /** A resolved hop as it travels. */
  function AsTarget(h: R.RouteHop): HopTarget
    requires TextHop(h)
  {
    HopTarget(h.target, h.port, if h.password.Some? then Some(h.password.value) else None)
  }

  predicate TextRoute(route: seq<R.RouteHop>) {
    forall i :: 0 <= i < |route| ==> TextHop(route[i])
  }

  function AsTargets(route: seq<R.RouteHop>): (r: seq<HopTarget>)
    requires TextRoute(route)
    ensures |r| == |route| && forall i :: 0 <= i < |r| ==> r[i] == AsTarget(route[i])
  {
    seq(|route|, i requires 0 <= i < |route| => AsTarget(route[i]))
  }

  /** The first hop is addressed, the others stay to be peeled off. */
  function ClientRequest(route: seq<HopTarget>, command: Utf8, input: Bytes): Result<ExecRequest, RequestError>
    requires route != [] && |input| < 0x1_0000_0000_0000_0000
  {
    var r :- NewRequest(route[0].target, route[0].port, command, |input|);
    Ok(r.(password := route[0].password, remaining := route[1..]))
  }

  lemma ClientRoute(route: seq<HopTarget>, command: Utf8, input: Bytes)
    requires route != [] && |input| < 0x1_0000_0000_0000_0000 && ClientRequest(route, command, input).Ok?
    ensures var r := ClientRequest(route, command, input).value;
            Delivery.Route(r) == route && r.command == command && r.stdinBytes == |input| && !r.tty
  {
    assert [route[0]] + route[1..] == route;
  }

  /** The request a route and a command make, when nothing is wrong with them. */
  function RequestFor(route: seq<HopTarget>, command: Utf8, input: Bytes): ExecRequest
    requires route != [] && |input| < 0x1_0000_0000_0000_0000
  {
    ExecRequest(PROTOCOL_VERSION, route[0].target, route[0].port, command, |input|, route[0].password, false,
        route[1..])
  }

  /** A first hop and a command that a request takes, and a header that fits its frame. */
  predicate Sendable(route: seq<HopTarget>, command: Utf8, input: Bytes)
    requires |input| < 0x1_0000_0000_0000_0000
  {
    && route != [] && route[0].target != "" &&
        (forall i :: 0 <= i < |route[0].target| ==> !IsControl(route[0].target[i]))
    && route[0].port != 0 && command != "" && |command| <= MAX_HEADER_BYTES / 2
    && |HeaderText(RequestFor(route, command, input))| <= MAX_HEADER_BYTES
  }

  lemma SendableExactly(route: seq<HopTarget>, command: Utf8, input: Bytes)
    requires route != [] && |input| < 0x1_0000_0000_0000_0000
    ensures Sendable(route, command, input) <==>
      && ClientRequest(route, command, input).Ok? &&
          EncodeRequest(ClientRequest(route, command, input).value, input).Ok?
  {
    hide HeaderText;
    var r := ClientRequest(route, command, input);
    assert r.Ok? ==> r.value == RequestFor(route, command, input);
  }

  /** A host has one route. */
  lemma OneRoute(
    hosts: R.HostMap, passwords: map<string, string>, e: HostEntry, a: string, route: seq<HopTarget>, b: string,
        other: seq<HopTarget>)
    requires FollowsParents(hosts, passwords, e, a, route) && FollowsParents(hosts, passwords, e, b, other)
    ensures route == other
  {
    R.LeavesOnce(hosts, e, |route|, |other|);
    hide R.Ancestor;
    forall i | 0 <= i < |route| ensures route[i] == other[i] {
      assert R.Ancestor(hosts, e, |route| - 1 - i).Some?;
    }
  }

  /**
   `resolve_host_chain`, `connect_host` and `execute_capture_with_input` up to the bytes sent to the entry
   host. Nothing is sent exactly when the parent walk is refused or what it leads to cannot be sent.
   */
  method PreparePayload(hosts: R.HostMap, passwords: map<string, string>, e: HostEntry, command: Utf8, input: Bytes)
    returns (r: Option<(string, ExecRequest, Bytes)>)
    requires |input| < 0x1_0000_0000_0000_0000
    requires TextWalk(hosts, passwords, e)
    ensures r.Some? ==>
      var (entry, request, payload) := r.value;
      && Accepts(request, input) && payload == Payload(request, input)
      && request.command == command
      && FollowsParents(hosts, passwords, e, entry, Delivery.Route(request)) &&
          Sendable(Delivery.Route(request), command, input)
    ensures r.None? ==>
      forall entry: string, route: seq<HopTarget> :: FollowsParents(hosts, passwords, e, entry, route) ==>
          !Sendable(route, command, input)
  {
    hide ClientRequest, Accepts, Payload, EncodeRequest, FollowsParents, TextWalk, R.Accepted, R.Rejected, R.Ancestor,
        R.HopOf, Delivery.Route,
      Sendable;
    var resolved := R.ResolveHostChain(hosts, passwords, e);
    if resolved.Err? {
      NotAccepted(hosts, passwords, e);
      return None;
    }
    var (entry, route) := resolved.value;
    ResolvedFollows(hosts, passwords, e, entry, route);
    hide TextRoute;
    var targets := AsTargets(route);
    SendableExactly(targets, command, input);
    if !Sendable(targets, command, input) { OnlyThis(hosts, passwords, e, entry, targets, command, input); }
    var request := ClientRequest(targets, command, input);
    if request.Err? { return None; }
    ClientRoute(targets, command, input);
    var payload := EncodeRequest(request.value, input);
    if payload.Err? { return None; }
    PayloadIsRequest(request.value, input);
    r := Some((entry, request.value, payload.value));
  }

  lemma NotAccepted(hosts: R.HostMap, passwords: map<string, string>, e: HostEntry)
    requires forall k: nat :: !R.Accepted(hosts, e, k)
    ensures forall entry: string, route: seq<HopTarget> :: !FollowsParents(hosts, passwords, e, entry, route)
  {
    hide R.Accepted, R.Ancestor;
  }

  lemma OnlyThis(
    hosts: R.HostMap, passwords: map<string, string>, e: HostEntry, a: string, targets: seq<HopTarget>, command: Utf8,
        input: Bytes)
    requires |input| < 0x1_0000_0000_0000_0000
    requires FollowsParents(hosts, passwords, e, a, targets) && !Sendable(targets, command, input)
    ensures forall entry: string, route: seq<HopTarget> :: FollowsParents(hosts, passwords, e, entry, route) ==>
        !Sendable(route, command, input)
  {
    forall entry: string, route: seq<HopTarget> | FollowsParents(hosts, passwords, e, entry, route)
        ensures !Sendable(route, command, input) {
      OneRoute(hosts, passwords, e, a, targets, entry, route);
    }
  }

  lemma ResolvedFollows(hosts: R.HostMap, passwords: map<string, string>, e: HostEntry, entry: string,
      route: seq<R.RouteHop>)
    requires TextWalk(hosts, passwords, e) && R.Accepted(hosts, e, |route|)
    requires entry == R.Ancestor(hosts, e, |route| - 1).value.proxyJump.value
    requires forall i :: 0 <= i < |route| ==>
        route[i] == R.HopOf(R.Ancestor(hosts, e, |route| - 1 - i).value, passwords)
    ensures route != [] && TextRoute(route) && FollowsParents(hosts, passwords, e, entry, AsTargets(route))
  {
    hide R.Ancestor, ValidUtf8;
    forall i | 0 <= i < |route| ensures TextHop(route[i]) {
      assert R.Ancestor(hosts, e, |route| - 1 - i).Some?;
    }
  }

  /** A route is the parent walk of a host, read backwards, each hop with its own address, port and password. */
  ghost predicate FollowsParents(
    hosts: R.HostMap, passwords: map<string, string>, e: HostEntry, entry: string, route: seq<HopTarget>)
  {
    && R.Accepted(hosts, e, |route|)
    && forall i :: 0 <= i < |route| ==>
         var host := R.Ancestor(hosts, e, |route| - 1 - i);
         && host.Some?
         && route[i].target == host.value.user + "@" + host.value.hostname && route[i].port == host.value.port
         && route[i].password == (if host.value.name in passwords then Some(passwords[host.value.name]) else None)
         && (i == 0 ==> host.value.proxyJump == Some(entry))
  }

  /**
   The whole exec-hop law. The helpers of any complete run without aborts connect to exactly the hosts between
   the entry host and the one asked for, each on its own port with its own password, and start the command
   there with the client's input, byte for byte, as its standard input.
   */
  lemma DeliveredToHost(
    hosts: R.HostMap, passwords: map<string, string>, e: HostEntry, entry: string, request: ExecRequest, input: Bytes,
    actions: seq<Action>)
    requires Accepts(request, input) && FollowsParents(hosts, passwords, e, entry, Delivery.Route(request))
    requires Runs(Init(Payload(request, input)), actions) && Steady(actions)
    requires Quiet(Final(Init(Payload(request, input)), actions))
    ensures var s := Final(Init(Payload(request, input)), actions);
            && FollowsParents(hosts, passwords, e, entry, s.connections)
            && s.connections[|s.connections| - 1].target == e.user + "@" + e.hostname
            && s.command == Some(request.command)
            && Shape(s) && CommandInput(s) == Pipe(input, true)
  {
    hide Quiet, Runs, Final, Payload, Accepts, Shape, CommandInput, Steady, Over;
    EndToEnd(request, input, actions);
    var route := Delivery.Route(request);
    assert R.Ancestor(hosts, e, |route| - 1 - (|route| - 1)) == Some(e);
  }
}
