/**
 The exec-hop run as a distributed state machine. Every helper reads its own standard input, connects to
 the target named by the header it finds there, and feeds the next process through a channel of eight
 slots. Steps interleave freely and move chunks of any size. Any process may die at any time: what it still
 holds is lost, and the next process finds the end of its input.
 */
module Delivery {
  import opened Wrappers
  import opened Text
  import opened Fields
  import opened Json
  import opened Wire
  import opened Streams

  const SLOTS: nat := 8

  /** Standard input of one process: delivered but unread bytes, and whether its end was delivered. */
  datatype Pipe = Pipe(inbox: Bytes, closed: bool)

  /** Feeder task: bytes it may still take (None: until end of file), the chunk in hand, the channel. */
  datatype Feeder = Feeder(left: Option<nat>, hand: Option<Bytes>, ending: bool, queue: seq<Bytes>)

  datatype Stage = Reading(got: Bytes) | Feeding(feeder: Feeder)

  /**
   Helper `i` reads `pipes[i]` and feeds `pipes[i + 1]`; the pipe after the last helper of the route is the
   standard input of the command itself. A helper that has failed is a process that is gone. One that is
   halted has lost its feeder only: it waits for its command, whose input it will never end.
   */
  datatype State = State(
    source: Bytes,
    pipes: seq<Pipe>,
    stages: seq<Stage>,
    failed: set<nat>,
    halted: set<nat>,
    connections: seq<HopTarget>,
    command: Option<string>)

  datatype Action =
    | ClientSend(k: nat)
    | ClientClose
    | ClientDies
    | Absorb(i: nat, k: nat)
    | ShortHeader(i: nat)
    | Take(i: nat, k: nat)
    | Finish(i: nat)
    | ShortInput(i: nat)
    | Send(i: nat)
    | Deliver(i: nat)
    | Abort(i: nat)
    | Hangup(i: nat)

  function Init(source: Bytes): State {
    State(source, [Pipe("", false)], [Reading("")], {}, {}, [], None)
  }

  // ---------------------------------------------------------------- Steps

  predicate IsFeeding(s: State, i: nat) {
    i < |s.stages| && i + 1 < |s.pipes| && s.stages[i].Feeding? && i !in s.failed
  }

  /** The end of the input has been read up to. */
  predicate Dry(p: Pipe) {
    p.inbox == "" && p.closed
  }

  /** The feeder is about to read. */
  predicate Idle(s: State, i: nat)
    requires IsFeeding(s, i)
  {
    s.stages[i].feeder.hand == None && !s.stages[i].feeder.ending && i !in s.halted
  }

  /** Bytes the header reader has asked for, given what it has got. */
  function Need(got: Bytes): nat {
    if |got| < 4 then 4 else 4 + FromBe32(got[..4])
  }

  predicate Enabled(s: State, a: Action) {
    match a
    case ClientSend(k) => 1 <= k <= |s.source| && 0 < |s.pipes| && !s.pipes[0].closed
    case ClientClose => s.source == "" && 0 < |s.pipes| && !s.pipes[0].closed
    case ClientDies => 0 < |s.pipes| && !s.pipes[0].closed
    case Absorb(i, k) =>
      i < |s.stages| && i < |s.pipes| && i !in s.failed && s.stages[i].Reading? &&
      1 <= k <= |s.pipes[i].inbox| && |s.stages[i].got| + k <= Need(s.stages[i].got)
    case ShortHeader(i) =>
      i < |s.stages| && i < |s.pipes| && i !in s.failed && s.stages[i].Reading? && Dry(s.pipes[i])
    case Take(i, k) =>
      IsFeeding(s, i) &&
      var f := s.stages[i].feeder;
      Idle(s, i) && 1 <= k <= |s.pipes[i].inbox| && k <= BUFFER_BYTES &&
      (f.left.Some? ==> k <= f.left.value)
    case Finish(i) =>
      IsFeeding(s, i) &&
      var f := s.stages[i].feeder;
      Idle(s, i) &&
      if f.left.Some? then f.left.value == 0 else Dry(s.pipes[i])
    case ShortInput(i) =>
      IsFeeding(s, i) && s.stages[i].feeder.left.Some? && s.stages[i].feeder.left.value > 0 && Idle(s, i) &&
          Dry(s.pipes[i])
    case Send(i) =>
      IsFeeding(s, i) && s.stages[i].feeder.hand.Some? && |s.stages[i].feeder.queue| < SLOTS
    case Deliver(i) =>
      IsFeeding(s, i) && s.stages[i].feeder.queue != []
    case Abort(i) =>
      i < |s.stages| && i !in s.failed
    case Hangup(i) =>
      i in s.failed && i < |s.stages| && i + 1 < |s.pipes| && !s.pipes[i + 1].closed
  }

  /** A helper whose header is complete: connect, then feed the next helper or the command. */
  function StartHelper(s: State, i: nat, r: ExecRequest): State
    requires i < |s.stages|
  {
    var c := s.(connections := s.connections + [HopTarget(r.target, r.targetPort, r.password)]);
    if r.remaining != [] then
      match EncodeRequestHeader(Peel(r))
      case Err(_) => c.(failed := c.failed + {i})
      case Ok(header) =>
        c.(pipes := c.pipes + [Pipe("", false)],
           stages := c.stages[i := Feeding(Feeder(None, Some(header), false, []))] + [Reading("")])
    else if r.tty && r.stdinBytes != 0 then
      c.(failed := c.failed + {i})
    else
      c.(pipes := c.pipes + [Pipe("", false)],
         stages := c.stages[i := Feeding(Feeder(if r.tty then None else Some(r.stdinBytes), None, false, []))],
         command := Some(r.command))
  }

  function Absorbed(s: State, i: nat, got: Bytes): State
    requires i < |s.stages|
  {
    var t := s.(stages := s.stages[i := Reading(got)]);
    if |got| < 4 then t
    else if FromBe32(got[..4]) == 0 || FromBe32(got[..4]) > MAX_HEADER_BYTES then t.(failed := t.failed + {i})
    else if |got| < Need(got) then t
    else
      match ParseHeader(got[4..])
      case Err(_) => t.(failed := t.failed + {i})
      case Ok(r) => StartHelper(t, i, r)
  }

  function WithFeeder(s: State, i: nat, f: Feeder): State
    requires i < |s.stages|
  {
    s.(stages := s.stages[i := Feeding(f)])
  }

  function WithPipe(s: State, i: nat, p: Pipe): State
    requires i < |s.pipes|
  {
    s.(pipes := s.pipes[i := p])
  }

  function Apply(s: State, a: Action): State
    requires Enabled(s, a)
  {
    match a
    case ClientSend(k) =>
      WithPipe(s, 0, s.pipes[0].(inbox := s.pipes[0].inbox + s.source[..k])).(source := s.source[k..])
    case ClientClose =>
      WithPipe(s, 0, s.pipes[0].(closed := true))
    case ClientDies =>
      WithPipe(s, 0, s.pipes[0].(closed := true))
    case ShortHeader(i) =>
      s.(failed := s.failed + {i})
    case Absorb(i, k) =>
      var p := s.pipes[i];
      Absorbed(WithPipe(s, i, p.(inbox := p.inbox[k..])), i, s.stages[i].got + p.inbox[..k])
    case Take(i, k) =>
      var p, f := s.pipes[i], s.stages[i].feeder;
      var left := if f.left.Some? then Some(f.left.value - k) else None;
      WithFeeder(WithPipe(s, i, p.(inbox := p.inbox[k..])), i, f.(hand := Some(p.inbox[..k]), left := left))
    case Finish(i) =>
      WithFeeder(s, i, s.stages[i].feeder.(hand := Some(""), ending := true))
    case ShortInput(i) =>
      s.(halted := s.halted + {i})
    case Send(i) =>
      var f := s.stages[i].feeder;
      WithFeeder(s, i, f.(queue := f.queue + [f.hand.value], hand := None))
    case Deliver(i) =>
      var p, f := s.pipes[i + 1], s.stages[i].feeder;
      var p' := if f.queue[0] == "" then p.(closed := true) else p.(inbox := p.inbox + f.queue[0]);
      WithFeeder(WithPipe(s, i + 1, p'), i, f.(queue := f.queue[1..]))
    case Abort(i) =>
      s.(failed := s.failed + {i})
    case Hangup(i) =>
      WithPipe(s, i + 1, s.pipes[i + 1].(closed := true))
  }

  predicate Runs(s: State, actions: seq<Action>)
    decreases |actions|
  {
    actions == [] || (Enabled(s, actions[0]) && Runs(Apply(s, actions[0]), actions[1..]))
  }

  function Final(s: State, actions: seq<Action>): State
    requires Runs(s, actions)
    decreases |actions|
  {
    if actions == [] then s else Final(Apply(s, actions[0]), actions[1..])
  }

  // ---------------------------------------------------------------- Conservation

  /** Chunks between the feeder's read and the next process. */
  function InFlight(f: Feeder): seq<Bytes> {
    f.queue + if f.hand.Some? then [f.hand.value] else []
  }

  function Limit(left: Option<nat>, b: Bytes): Bytes {
    if left.Some? && left.value < |b| then b[..left.value] else b
  }

  function Outflow(stage: Stage, available: Bytes): Bytes {
    match stage
    case Reading(_) => ""
    case Feeding(f) => Flatten(InFlight(f)) + Limit(f.left, available)
  }

  predicate Shape(s: State) {
    0 < |s.stages| <= |s.pipes| <= |s.stages| + 1
  }

  /** Everything process `j` has still to read: its inbox, then what the processes before it hold, dead or alive. */
  function Coming(s: State, j: nat): Bytes
    requires Shape(s) && j < |s.pipes|
  {
    s.pipes[j].inbox + Upstream(s, j)
  }

  function Upstream(s: State, j: nat): Bytes
    requires Shape(s) && j < |s.pipes|
    decreases j, 0
  {
    if j == 0 then s.source else Outflow(s.stages[j - 1], s.pipes[j - 1].inbox + Upstream(s, j - 1))
  }

  /** What holds of a channel whoever has died: its size, and the remaining count. */
  predicate LinkHeld(f: Feeder, rest: Bytes) {
    |f.queue| <= SLOTS && (f.left.Some? ==> f.left.value == |rest|)
  }

  /** A channel at work: a counted feeder ends at its count, any other where its input does; one end marker. */
  predicate LinkOk(f: Feeder, closed: bool, rest: Bytes, dry: bool) {
    && LinkHeld(f, rest)
    && (f.ending ==> rest == "" || (dry && f.left == None))
    && if f.ending && !closed
       then WellMarked(InFlight(f))
       else (closed ==> f.ending && InFlight(f) == []) &&
            (forall c :: 0 <= c < |InFlight(f)| ==> InFlight(f)[c] != "")
  }

  /** What a whole run should do: the frame each helper reads, the hop it then connects to, the command. */
  datatype Plan = Plan(frames: seq<Bytes>, route: seq<HopTarget>, command: string, left: Option<nat>)

  ghost predicate PlanOk(p: Plan, input: Bytes) {
    && 0 < |p.frames| == |p.route|
    && (forall i :: 0 <= i < |p.frames| ==> |p.frames[i]| > 4)
    && (p.left.Some? ==> p.left.value == |input|)
  }

  /** Helpers that have read their header. */
  function Started(s: State): nat
    requires Shape(s)
  {
    |s.pipes| - 1
  }

  ghost predicate Links(s: State)
    requires Shape(s)
  {
    forall i :: 0 <= i < Started(s) ==> LinkAt(s, i)
  }

  predicate LinkAt(s: State, i: nat)
    requires Shape(s) && i < Started(s)
  {
    && s.stages[i].Feeding? && LinkHeld(s.stages[i].feeder, Coming(s, i))
    && (i !in s.failed ==> LinkOk(s.stages[i].feeder, s.pipes[i + 1].closed, Coming(s, i), Dry(s.pipes[i])))
  }

  /** Helpers feed the next process in route order; only the newest may still be reading its header. */
  ghost predicate Ordered(s: State, helpers: nat) {
    && Shape(s)
    && |s.stages| <= helpers
    && (forall i :: 0 <= i < |s.stages| ==> (s.stages[i].Feeding? <==> i < Started(s)))
    && (forall i :: 0 <= i < Started(s) && i + 1 < helpers ==> s.stages[i].feeder.left == None)
    && (Started(s) == helpers || Started(s) == |s.stages| - 1)
  }

  /** Connections so far are the first ones of the route; the command, and a counted feeder, only behind the last. */
  ghost predicate Log(s: State, p: Plan)
    requires Ordered(s, |p.route|)
  {
    && s.connections == p.route[..Started(s)]
    && s.command == (if Started(s) == |p.route| then Some(p.command) else None)
    && (Started(s) == |p.route| > 0 ==> s.stages[|p.route| - 1].feeder.left.Some? == p.left.Some?)
    && (forall i :: i in s.halted ==> i + 1 == |p.route| == Started(s))
  }

  /** The newest helper has got part of its frame, and the rest of the frame and the input are coming. */
  ghost predicate HeaderOk(s: State, frame: Bytes, input: Bytes)
    requires Shape(s) && |s.stages| == |s.pipes|
  {
    var m := |s.stages| - 1;
    && s.stages[m].Reading?
    && |s.stages[m].got| < |frame|
    && s.stages[m].got + Coming(s, m) == frame + input
  }

  /** The front of the run: a header on its way to the newest helper, or the input on its way to the command. */
  ghost predicate Tip(s: State, p: Plan, input: Bytes)
    requires Ordered(s, |p.frames|)
  {
    if Started(s) == |p.frames| then Coming(s, Started(s)) == input
    else HeaderOk(s, p.frames[Started(s)], input)
  }

  ghost predicate Inv(s: State, p: Plan, input: Bytes) {
    PlanOk(p, input) && Ordered(s, |p.frames|) && Links(s) && Log(s, p) && Tip(s, p, input)
  }

  // ---------------------------------------------------------------- What one step changes

  /** If two states agree on what reaches process `a` and on all that lies between, they agree on `j`. */
  lemma {:induction false} Propagate(s: State, t: State, a: nat, j: nat)
    requires Shape(s) && Shape(t) && a <= j < |s.pipes| && j < |t.pipes|
    requires Coming(s, a) == Coming(t, a)
    requires forall i :: a <= i < j ==> s.stages[i] == t.stages[i]
    requires forall i :: a < i <= j ==> s.pipes[i].inbox == t.pipes[i].inbox
    ensures Coming(s, j) == Coming(t, j)
    ensures a < j ==> Upstream(s, j) == Upstream(t, j)
  {
    hide Outflow;
    if a < j { Propagate(s, t, a, j - 1); }
  }

  /** The upstream of process `i` depends only on the processes before it. */
  lemma SameUpstream(s: State, t: State, i: nat)
    requires Shape(s) && Shape(t) && i < |s.pipes| && i < |t.pipes|
    requires s.source == t.source
    requires s.stages[..i] == t.stages[..i] && s.pipes[..i] == t.pipes[..i]
    ensures Upstream(s, i) == Upstream(t, i)
    ensures forall j :: 0 <= j < i ==> Coming(s, j) == Coming(t, j) && Upstream(s, j) == Upstream(t, j)
  {
    forall j | 0 <= j < i ensures Coming(s, j) == Coming(t, j) && Upstream(s, j) == Upstream(t, j) {
      hide Outflow;
      assert s.pipes[0] == s.pipes[..i][0] == t.pipes[0];
      forall k | 0 <= k <= j ensures s.pipes[k] == t.pipes[k] && s.stages[k] == t.stages[k] {
        assert s.pipes[..i][k] == t.pipes[..i][k] && s.stages[..i][k] == t.stages[..i][k];
      }
      Propagate(s, t, 0, j);
    }
    if i > 0 {
      assert s.pipes[..i][i - 1] == t.pipes[..i][i - 1] && s.stages[..i][i - 1] == t.stages[..i][i - 1];
    }
  }

  /** `t` is `s` with helper `i`'s feeder, its unread inbox and the next pipe replaced. */
  ghost predicate LinkChange(s: State, t: State, i: nat, inbox: Bytes, f: Feeder, next: Pipe)
    requires Shape(s) && i + 1 < |s.pipes|
  {
    && t == WithFeeder(WithPipe(WithPipe(s, i, s.pipes[i].(inbox := inbox)), i + 1, next), i, f)
    && s.stages[i].Feeding? && i !in s.failed
    && LinkOk(f, next.closed, inbox + Upstream(s, i), Dry(s.pipes[i].(inbox := inbox)))
    && (s.pipes[i + 1].closed ==> next == s.pipes[i + 1])
    && f.left.Some? == s.stages[i].feeder.left.Some?
    && next.inbox + Outflow(Feeding(f), inbox + Upstream(s, i)) == Coming(s, i + 1)
  }

  lemma LinkChangeParts(s: State, t: State, i: nat, inbox: Bytes, f: Feeder, next: Pipe)
    requires Shape(s) && i + 1 < |s.pipes| && LinkChange(s, t, i, inbox, f, next)
    ensures t.stages == s.stages[i := Feeding(f)] && |t.stages| == |s.stages|
    ensures t.pipes == s.pipes[i := s.pipes[i].(inbox := inbox)][i + 1 := next] && |t.pipes| == |s.pipes|
    ensures t.source == s.source && t.connections == s.connections && t.command == s.command
    ensures t.failed == s.failed && t.halted == s.halted
    ensures s.stages[i].Feeding? && f.left.Some? == s.stages[i].feeder.left.Some?
    ensures LinkOk(f, next.closed, inbox + Upstream(s, i), Dry(s.pipes[i].(inbox := inbox))) &&
        LinkHeld(f, inbox + Upstream(s, i))
    ensures s.pipes[i + 1].closed ==> next == s.pipes[i + 1]
    ensures next.inbox + Outflow(Feeding(f), inbox + Upstream(s, i)) == Coming(s, i + 1)
  {
    OkIsHeld(f, next.closed, inbox + Upstream(s, i), Dry(s.pipes[i].(inbox := inbox)));
    hide LinkOk, LinkHeld, Coming, Upstream, Outflow, Dry;
  }

  lemma OkIsHeld(f: Feeder, closed: bool, rest: Bytes, dry: bool)
    ensures LinkOk(f, closed, rest, dry) ==> LinkHeld(f, rest)
  {
  }

  lemma LinkChangeFlow(s: State, t: State, i: nat, inbox: Bytes, f: Feeder, next: Pipe)
    requires Shape(s) && i + 1 < |s.pipes| && LinkChange(s, t, i, inbox, f, next)
    ensures Shape(t) && |t.pipes| == |s.pipes|
    ensures Coming(t, i) == inbox + Upstream(s, i)
    ensures forall j :: 0 <= j < |s.pipes| && j != i ==> Coming(t, j) == Coming(s, j)
    ensures forall j :: 0 <= j < |s.pipes| && j != i + 1 ==> Upstream(t, j) == Upstream(s, j)
  {
    hide LinkOk, LinkChange, Outflow;
    LinkChangeParts(s, t, i, inbox, f, next);
    SameUpstream(s, t, i);
    assert Coming(t, i + 1) == Coming(s, i + 1);
    forall j | i + 1 <= j < |s.pipes|
      ensures Coming(t, j) == Coming(s, j) && (i + 1 < j ==> Upstream(t, j) == Upstream(s, j))
    {
      Propagate(s, t, i + 1, j);
    }
  }

  lemma StaysDry(p: Pipe, q: Pipe)
    requires p.closed ==> q == p
    ensures Dry(p) ==> Dry(q)
  {
  }

  /** A channel at work stays one when the input before it ends. */
  lemma Drier(f: Feeder, closed: bool, rest: Bytes, dry: bool, drier: bool)
    requires LinkOk(f, closed, rest, dry) && (dry ==> drier)
    ensures LinkOk(f, closed, rest, drier)
  {
  }

  lemma LinkChangeLinks(s: State, t: State, i: nat, inbox: Bytes, f: Feeder, next: Pipe)
    requires Shape(s) && i + 1 < |s.pipes| && LinkChange(s, t, i, inbox, f, next) && Links(s)
    ensures Shape(t) && Links(t)
  {
    hide LinkOk, LinkHeld, LinkChange, Coming, Upstream, Dry;
    LinkChangeParts(s, t, i, inbox, f, next);
    LinkChangeFlow(s, t, i, inbox, f, next);
    forall k | 0 <= k < Started(t) ensures LinkAt(t, k) {
      if k != i {
        assert LinkAt(s, k);
        assert t.stages[k] == s.stages[k] && t.pipes[k + 1].closed == s.pipes[k + 1].closed;
        assert Coming(t, k) == Coming(s, k);
        StaysDry(s.pipes[k], t.pipes[k]);
        if k !in s.failed {
          Drier(s.stages[k].feeder, s.pipes[k + 1].closed, Coming(s, k), Dry(s.pipes[k]), Dry(t.pipes[k]));
        }
      }
    }
  }

  lemma LinkChangeTip(s: State, t: State, i: nat, inbox: Bytes, f: Feeder, next: Pipe, p: Plan, input: Bytes)
    requires Ordered(s, |p.frames|) && Ordered(t, |p.frames|) && Tip(s, p, input)
    requires i + 1 < |s.pipes| && LinkChange(s, t, i, inbox, f, next)
    ensures Tip(t, p, input)
  {
    hide LinkChange, Coming, Upstream, LinkOk;
    LinkChangeParts(s, t, i, inbox, f, next);
    LinkChangeFlow(s, t, i, inbox, f, next);
  }

  lemma LinkChangeInv(s: State, t: State, i: nat, inbox: Bytes, f: Feeder, next: Pipe, p: Plan, input: Bytes)
    requires Inv(s, p, input) && i + 1 < |s.pipes| && LinkChange(s, t, i, inbox, f, next)
    ensures Inv(t, p, input)
  {
    hide LinkChange, Coming, Upstream, LinkOk, Links, PlanOk, Tip;
    LinkChangeParts(s, t, i, inbox, f, next);
    LinkChangeLinks(s, t, i, inbox, f, next);
    assert Ordered(t, |p.frames|);
    LinkChangeTip(s, t, i, inbox, f, next, p, input);
  }

  // ---------------------------------------------------------------- Feeder steps as link changes

  lemma SplitFront(b: Bytes, rest: Bytes, k: nat)
    requires k <= |b|
    ensures b[..k] + (b[k..] + rest) == b + rest
    ensures (b + rest)[k..] == b[k..] + rest
  {
  }

  ghost predicate FeederStep(s: State, i: nat)
    requires Shape(s)
  {
    IsFeeding(s, i) && LinkOk(s.stages[i].feeder, s.pipes[i + 1].closed, Coming(s, i), Dry(s.pipes[i]))
  }

  lemma FeedsAt(s: State, i: nat, p: Plan, input: Bytes)
    requires Inv(s, p, input) && IsFeeding(s, i)
    ensures Shape(s) && FeederStep(s, i) && i < |p.frames|
  {
    hide LinkOk, LinkHeld, Coming, Upstream, Log, Tip, Dry;
    assert LinkAt(s, i);
  }

  lemma TakeLink(f: Feeder, closed: bool, inbox: Bytes, rest: Bytes, k: nat, dry: bool, drier: bool)
    requires LinkOk(f, closed, inbox + rest, dry) && f.hand == None && !f.ending && 1 <= k <= |inbox|
    ensures var left := if f.left.Some? then Some(f.left.value - k) else None;
            && (f.left.Some? ==> k <= f.left.value)
            && var g := Feeder(left, Some(inbox[..k]), f.ending, f.queue);
            && LinkOk(g, closed, inbox[k..] + rest, drier)
            && Outflow(Feeding(g), inbox[k..] + rest) == Outflow(Feeding(f), inbox + rest)
  {
    var left := if f.left.Some? then Some(f.left.value - k) else None;
    var g := Feeder(left, Some(inbox[..k]), f.ending, f.queue);
    SplitFront(inbox, rest, k);
    assert InFlight(g) == InFlight(f) + [inbox[..k]];
    FlattenSnoc(InFlight(f), inbox[..k]);
    var a, b, c := Flatten(InFlight(f)), inbox[..k], inbox[k..] + rest;
    assert (a + b) + c == a + (b + c);
  }

  lemma TakeChange(s: State, i: nat, k: nat)
    requires Shape(s) && FeederStep(s, i) && Enabled(s, Take(i, k))
    ensures var p, f := s.pipes[i], s.stages[i].feeder;
            var left := if f.left.Some? then Some(f.left.value - k) else None;
            LinkChange(s, Apply(s, Take(i, k)), i, p.inbox[k..], f.(hand := Some(p.inbox[..k]), left := left),
                       s.pipes[i + 1])
  {
    hide LinkOk, Outflow;
    var p, f, q := s.pipes[i], s.stages[i].feeder, s.pipes[i + 1];
    TakeLink(f, q.closed, p.inbox, Upstream(s, i), k, Dry(p), Dry(p.(inbox := p.inbox[k..])));
    assert s.pipes[i + 1 := q] == s.pipes;
  }

  lemma FinishChange(s: State, i: nat)
    requires Shape(s) && FeederStep(s, i) && Enabled(s, Finish(i))
    ensures LinkChange(s, Apply(s, Finish(i)), i, s.pipes[i].inbox,
                       s.stages[i].feeder.(hand := Some(""), ending := true), s.pipes[i + 1])
  {
    var p, f, q := s.pipes[i], s.stages[i].feeder, s.pipes[i + 1];
    var g := f.(hand := Some(""), ending := true);
    FlattenSnoc(InFlight(f), "");
    assert InFlight(g) == InFlight(f) + [""];
    assert Flatten(InFlight(g)) == Flatten(InFlight(f));
    assert s.pipes[i := p.(inbox := p.inbox)] == s.pipes;
    assert s.pipes[i + 1 := q] == s.pipes;
  }

  lemma SendChange(s: State, i: nat)
    requires Shape(s) && FeederStep(s, i) && Enabled(s, Send(i))
    ensures var f := s.stages[i].feeder;
            LinkChange(s, Apply(s, Send(i)), i, s.pipes[i].inbox,
                       f.(queue := f.queue + [f.hand.value], hand := None), s.pipes[i + 1])
  {
    var p, f, q := s.pipes[i], s.stages[i].feeder, s.pipes[i + 1];
    var g := f.(queue := f.queue + [f.hand.value], hand := None);
    assert InFlight(g) == InFlight(f);
    assert s.pipes[i := p.(inbox := p.inbox)] == s.pipes;
    assert s.pipes[i + 1 := q] == s.pipes;
  }

  lemma DeliverChange(s: State, i: nat)
    requires Shape(s) && FeederStep(s, i) && Enabled(s, Deliver(i))
    ensures var q, f := s.pipes[i + 1], s.stages[i].feeder;
            var q' := if f.queue[0] == "" then q.(closed := true) else q.(inbox := q.inbox + f.queue[0]);
            LinkChange(s, Apply(s, Deliver(i)), i, s.pipes[i].inbox, f.(queue := f.queue[1..]), q')
  {
    hide LinkOk, Outflow, Upstream, Dry, Apply;
    var p, f, q := s.pipes[i], s.stages[i].feeder, s.pipes[i + 1];
    UpstreamStep(s, i + 1);
    DeliverLink(f, q.closed, Coming(s, i), Dry(p));
    DeliverFlow(q.inbox, f, Coming(s, i));
    Delivered(s, i);
  }

  lemma Delivered(s: State, i: nat)
    requires Enabled(s, Deliver(i))
    ensures var q, f := s.pipes[i + 1], s.stages[i].feeder;
            var q' := if f.queue[0] == "" then q.(closed := true) else q.(inbox := q.inbox + f.queue[0]);
            Apply(s, Deliver(i)) == WithFeeder(WithPipe(WithPipe(s, i, s.pipes[i]), i + 1, q'), i,
                f.(queue := f.queue[1..]))
  {
    assert s.pipes[i := s.pipes[i]] == s.pipes;
  }

  lemma DeliverFlow(inbox: Bytes, f: Feeder, rest: Bytes)
    requires f.queue != []
    ensures inbox + Outflow(Feeding(f), rest)
        == (inbox + f.queue[0]) + Outflow(Feeding(f.(queue := f.queue[1..])), rest)
    ensures f.queue[0] == "" ==> inbox + f.queue[0] == inbox
  {
    var g := f.(queue := f.queue[1..]);
    assert InFlight(f)[0] == f.queue[0] && InFlight(g) == InFlight(f)[1..];
    var a, b := Flatten(InFlight(g)), Limit(f.left, rest);
    assert inbox + ((f.queue[0] + a) + b) == (inbox + f.queue[0]) + (a + b);
  }

  lemma DeliverLink(f: Feeder, closed: bool, rest: Bytes, dry: bool)
    requires LinkOk(f, closed, rest, dry) && f.queue != []
    ensures LinkOk(f.(queue := f.queue[1..]), f.queue[0] == "", rest, dry)
    ensures !closed
  {
    var g := f.(queue := f.queue[1..]);
    var a, b := InFlight(f), InFlight(g);
    assert a[0] == f.queue[0];
    assert b == a[1..];
    forall c | 0 <= c < |b| ensures b[c] == a[c + 1] {}
  }

  // ---------------------------------------------------------------- Client and header steps

  /** Only the first pipe and the source change, and together they still hold the same bytes. */
  ghost predicate SourceStep(s: State, t: State)
    requires Shape(s)
  {
    && t == s.(source := t.source, pipes := t.pipes) && |t.pipes| == |s.pipes|
    && (forall j :: 1 <= j < |s.pipes| ==> t.pipes[j] == s.pipes[j])
    && t.pipes[0].inbox + t.source == s.pipes[0].inbox + s.source
    && (s.pipes[0].closed ==> t.pipes[0] == s.pipes[0])
  }

  lemma SourceFlow(s: State, t: State)
    requires Shape(s) && SourceStep(s, t)
    ensures Shape(t)
    ensures forall j :: 0 <= j < |s.pipes| ==> Coming(t, j) == Coming(s, j)
    ensures forall j :: 1 <= j < |s.pipes| ==> Upstream(t, j) == Upstream(s, j)
  {
    assert Coming(t, 0) == Coming(s, 0);
    forall j | 0 <= j < |s.pipes|
      ensures Coming(t, j) == Coming(s, j) && (j > 0 ==> Upstream(t, j) == Upstream(s, j))
    {
      hide Outflow;
      Propagate(s, t, 0, j);
    }
  }

  lemma SourceInv(s: State, t: State, p: Plan, input: Bytes)
    requires Inv(s, p, input) && SourceStep(s, t)
    ensures Inv(t, p, input)
  {
    hide LinkOk, LinkHeld, Coming, Upstream, PlanOk, Dry;
    SourceFlow(s, t);
    forall k | 0 <= k < Started(t) ensures LinkAt(t, k) {
      assert LinkAt(s, k);
      StaysDry(s.pipes[k], t.pipes[k]);
      if k !in s.failed {
        Drier(s.stages[k].feeder, s.pipes[k + 1].closed, Coming(s, k), Dry(s.pipes[k]), Dry(t.pipes[k]));
      }
    }
  }

  /** What the header reader holds after `k` more bytes is still a prefix of the frame it expects. */
  lemma HeaderPrefix(q: ExecRequest, got: Bytes, more: Bytes, input: Bytes, k: nat)
    requires EncodeRequestHeader(q).Ok?
    requires var frame := EncodeRequestHeader(q).value;
             |got| < |frame| && got + more == frame + input && k <= |more| && |got| + k <= Need(got)
    ensures var frame := EncodeRequestHeader(q).value; var next := got + more[..k];
            && next + more[k..] == frame + input
            && |next| <= |frame| && next == frame[..|next|]
            && (|next| >= 4 ==> Need(next) == |frame| && 0 < FromBe32(next[..4]) <= MAX_HEADER_BYTES)
            && (|next| == |frame| ==>
                  next == frame && more[k..] == input && |next| > 4 && ParseHeader(next[4..]) == Ok(q))
  {
    hide EncodeRequestHeader, FromBe32, ParseHeader;
    FrameRoundTrip(q, "");
    assert ParseHeader(HeaderText(q))
        == Ok(q) by { assert q.version == PROTOCOL_VERSION by { EncodedVersion(q); } HeaderRoundTrip(q); }
    var frame := EncodeRequestHeader(q).value;
    hide HeaderText;
    var next := got + more[..k];
    assert next + more[k..] == got + more;
    assert got == (frame + input)[..|got|] == frame[..|got|];
    if |got| >= 4 {
      assert got[..4] == frame[..4];
    }
    assert |next| <= |frame|;
    assert next == (got + more)[..|next|] == frame[..|next|];
    if |next| >= 4 {
      assert next[..4] == frame[..4];
    }
    if |next| == |frame| {
      assert more[k..] == (got + more)[|next|..] == (frame + input)[|frame|..] == input;
      assert next[4..] == frame[4..];
    }
  }

  lemma EncodedVersion(q: ExecRequest)
    requires EncodeRequestHeader(q).Ok?
    ensures q.version == PROTOCOL_VERSION
  {
  }

  /** The feeder a helper starts with: the next frame in hand, or the payload of the command. */
  function OpeningFeeder(p: Plan, m: nat): Feeder {
    if m + 1 < |p.frames| then Feeder(None, Some(p.frames[m + 1]), false, [])
    else Feeder(p.left, None, false, [])
  }

  /** The state after the newest helper, `m`, has connected. */
  function Opened(s: State, p: Plan, m: nat): State
    requires m < |s.stages| && m < |p.route|
  {
    s.(connections := s.connections + [p.route[m]],
       pipes := s.pipes + [Pipe("", false)],
       stages := s.stages[m := Feeding(OpeningFeeder(p, m))] + (if m + 1 < |p.frames| then [Reading("")] else []),
       command := if m + 1 < |p.frames| then s.command else Some(p.command))
  }

  lemma OpeningLink(p: Plan, m: nat, input: Bytes)
    requires PlanOk(p, input) && m < |p.frames|
    ensures var f := OpeningFeeder(p, m);
            LinkOk(f, false, input, false) && LinkHeld(f, input) &&
            Outflow(Feeding(f), input) == if m + 1 < |p.frames| then p.frames[m + 1] + input else input
  {
    var f := OpeningFeeder(p, m);
    if m + 1 < |p.frames| {
      assert InFlight(f) == [p.frames[m + 1]];
      FlattenSnoc([], p.frames[m + 1]);
      assert Flatten([p.frames[m + 1]]) == p.frames[m + 1];
    } else {
      assert InFlight(f) == [];
    }
  }

  lemma StartFlow(s: State, t: State, f: Feeder, input: Bytes)
    requires Shape(s) && Shape(t) && |s.stages| == |s.pipes|
    requires var m := |s.stages| - 1;
             t.pipes == s.pipes + [Pipe("", false)] && t.stages[..m] == s.stages[..m] && |t.stages| > m
             && t.stages[m] == Feeding(f) && t.source == s.source && Coming(s, m) == input
    ensures forall j :: 0 <= j < |s.pipes| ==> Coming(t, j) == Coming(s, j)
    ensures forall j :: 0 <= j < |s.pipes| ==> Upstream(t, j) == Upstream(s, j)
    ensures Coming(t, |s.pipes|) == Upstream(t, |s.pipes|) == Outflow(Feeding(f), input)
  {
    hide Outflow;
    var m := |s.stages| - 1;
    assert t.pipes[..m] == s.pipes[..m];
    SameUpstream(s, t, m);
  }

  lemma StartLinks(s: State, t: State, f: Feeder, input: Bytes)
    requires Shape(s) && Shape(t) && |s.stages| == |s.pipes| && Links(s)
    requires LinkOk(f, false, input, false) && LinkHeld(f, input) && t.failed == s.failed
    requires var m := |s.stages| - 1;
             t.pipes == s.pipes + [Pipe("", false)] && t.stages[..m] == s.stages[..m] && |t.stages| > m
             && t.stages[m] == Feeding(f) && t.source == s.source && Coming(s, m) == input
    ensures Links(t)
  {
    hide LinkOk, LinkHeld, Outflow, Coming, Upstream, Dry;
    StartFlow(s, t, f, input);
    forall k | 0 <= k < Started(t) ensures LinkAt(t, k) {
      assert t.pipes[k] == s.pipes[k];
      if k < |s.stages| - 1 {
        assert LinkAt(s, k);
        assert t.stages[k] == t.stages[..|s.stages| - 1][k] == s.stages[k] && t.pipes[k + 1] == s.pipes[k + 1];
      } else {
        assert !t.pipes[k + 1].closed && Coming(t, k) == input;
        Drier(f, false, input, false, Dry(t.pipes[k]));
      }
    }
  }

  /** The newest helper has read its whole frame; everything else is as the invariant says. */
  ghost predicate Ready(s: State, p: Plan, input: Bytes) {
    && PlanOk(p, input) && Ordered(s, |p.frames|) && Started(s) == |s.stages| - 1
    && Links(s) && Log(s, p)
    && Coming(s, |s.stages| - 1) == input
  }

  lemma OpenedOrdered(s: State, p: Plan)
    requires 0 < |p.frames| == |p.route| && Ordered(s, |p.frames|) && Started(s) == |s.stages| - 1 && Log(s, p)
    ensures var t := Opened(s, p, |s.stages| - 1); Ordered(t, |p.frames|) && Log(t, p)
  {
    hide OpeningFeeder;
    var m := |s.stages| - 1;
    assert p.route[..m + 1] == p.route[..m] + [p.route[m]];
    assert OpeningFeeder(p, m).left == if m + 1 < |p.frames| then None else p.left by { OpeningLeft(p, m); }
  }

  lemma OpeningLeft(p: Plan, m: nat)
    ensures OpeningFeeder(p, m).left == if m + 1 < |p.frames| then None else p.left
  {
  }

  /** Starting the newest helper opens exactly the next link of the route. */
  lemma OpenedInv(s: State, p: Plan, input: Bytes)
    requires Ready(s, p, input)
    ensures Inv(Opened(s, p, |s.stages| - 1), p, input)
  {
    var m := |s.stages| - 1;
    var t := Opened(s, p, m);
    var f := OpeningFeeder(p, m);
    hide Outflow, LinkOk, OpeningFeeder, Coming, Upstream, Links, Log, PlanOk, Tip, Ordered, Ready, Opened;
    ReadyParts(s, p, input);
    PlanLengths(p, input);
    OpenedOrdered(s, p);
    OpeningLink(p, m, input);
    OpenedParts(s, p, m);
    StartFlow(s, t, f, input);
    StartLinks(s, t, f, input);
    OpenedTip(t, p, input, m, Outflow(Feeding(f), input));
  }

  lemma ReadyParts(s: State, p: Plan, input: Bytes)
    requires Ready(s, p, input)
    ensures PlanOk(p, input) && Ordered(s, |p.frames|) && Links(s) && Log(s, p)
    ensures Shape(s) && |s.stages| == |s.pipes| && |s.stages| <= |p.frames| && Started(s) == |s.stages| - 1
    ensures Coming(s, |s.stages| - 1) == input && |p.frames| == |p.route|
  {
    hide Coming, Upstream, Links, Log;
  }

  lemma OpenedParts(s: State, p: Plan, m: nat)
    requires Shape(s) && m == |s.stages| - 1 && m < |p.route| && |s.stages| == |s.pipes|
    ensures var t := Opened(s, p, m);
            && Shape(t) && t.pipes == s.pipes + [Pipe("", false)] && |t.stages| > m && t.stages[..m] == s.stages[..m]
            && t.stages[m] == Feeding(OpeningFeeder(p, m)) && t.source == s.source && t.failed == s.failed
            && (m + 1 < |p.frames| ==> |t.stages| == m + 2 && t.stages[m + 1] == Reading(""))
            && (m + 1 >= |p.frames| ==> |t.stages| == m + 1)
  {
    hide OpeningFeeder;
  }

  /** The next helper has everything of its header still to come; behind the last one the input comes. */
  lemma OpenedTip(t: State, p: Plan, input: Bytes, m: nat, coming: Bytes)
    requires PlanOk(p, input) && Ordered(t, |p.frames|) && |t.pipes| == m + 2 && m < |p.frames|
    requires Coming(t, m + 1) == coming == if m + 1 < |p.frames| then p.frames[m + 1] + input else input
    requires m + 1 < |p.frames| ==> |t.stages| == m + 2 && t.stages[m + 1] == Reading("")
    ensures Tip(t, p, input)
  {
    hide Coming, Upstream;
    if m + 1 < |p.frames| { assert "" + Coming(t, m + 1) == Coming(t, m + 1); }
  }

  /** The newest helper has taken `k` more header bytes, and nothing else has moved. */
  lemma AbsorbFlow(s: State, t: State, k: nat)
    requires Shape(s) && |s.stages| == |s.pipes|
    requires var m := |s.stages| - 1;
             && k <= |s.pipes[m].inbox|
             && t == WithPipe(s, m, s.pipes[m].(inbox := s.pipes[m].inbox[k..])).(stages := t.stages)
             && |t.stages| == |s.stages| && t.stages[..m] == s.stages[..m]
    ensures var m := |s.stages| - 1; Shape(t) && k <= |Coming(s, m)| && Coming(t, m) == Coming(s, m)[k..]
    ensures s.pipes[|s.stages| - 1].inbox[..k] == Coming(s, |s.stages| - 1)[..k]
    ensures forall j :: 0 <= j < |s.pipes| - 1 ==> Coming(t, j) == Coming(s, j)
    ensures forall j :: 0 <= j < |s.pipes| ==> Upstream(t, j) == Upstream(s, j)
  {
    hide Outflow;
    var m := |s.stages| - 1;
    assert t.pipes[..m] == s.pipes[..m];
    SameUpstream(s, t, m);
    SplitFront(s.pipes[m].inbox, Upstream(s, m), k);
  }

  lemma AbsorbLinks(s: State, t: State, k: nat)
    requires Shape(s) && |s.stages| == |s.pipes| && Links(s)
    requires var m := |s.stages| - 1; s.stages[m].Reading? && k <= |s.pipes[m].inbox| && t == Fed(s, m, k)
    ensures Shape(t) && Links(t)
  {
    hide LinkOk, LinkHeld, Outflow, Coming, Upstream, Dry;
    assert t.stages[..|s.stages| - 1] == s.stages[..|s.stages| - 1];
    AbsorbFlow(s, t, k);
    forall i | 0 <= i < Started(t) ensures LinkAt(t, i) {
      assert LinkAt(s, i);
      assert t.stages[i] == t.stages[..|s.stages| - 1][i] == s.stages[i];
      assert t.pipes[i + 1].closed == s.pipes[i + 1].closed && t.pipes[i] == s.pipes[i];
    }
  }

  /** The newest helper after one more read, before a complete frame is acted upon. */
  function Fed(s: State, i: nat, k: nat): State
    requires i < |s.stages| && i < |s.pipes| && s.stages[i].Reading? && k <= |s.pipes[i].inbox|
  {
    var p := s.pipes[i];
    WithPipe(s, i, p.(inbox := p.inbox[k..])).(stages := s.stages[i := Reading(s.stages[i].got + p.inbox[..k])])
  }

  lemma AbsorbParts(s: State, i: nat, k: nat, q: ExecRequest)
    requires Enabled(s, Absorb(i, k)) && EncodeRequestHeader(q).Ok?
    requires var next := s.stages[i].got + s.pipes[i].inbox[..k]; var frame := EncodeRequestHeader(q).value;
             && |next| <= |frame|
             && (|next| >= 4 ==> Need(next) == |frame| && 0 < FromBe32(next[..4]) <= MAX_HEADER_BYTES)
             && (|next| == |frame| ==> |next| > 4 && ParseHeader(next[4..]) == Ok(q))
             && |frame| > 4
    ensures Apply(s, Absorb(i, k)) ==
            if |s.stages[i].got| + k < |EncodeRequestHeader(q).value| then Fed(s, i, k)
            else StartHelper(Fed(s, i, k), i, q)
  {
    hide EncodeRequestHeader, ParseHeader, FromBe32, StartHelper;
  }

  lemma FedOrdered(s: State, k: nat, p: Plan)
    requires Ordered(s, |p.frames|) && |p.frames| == |p.route| && Log(s, p)
    requires Started(s) == |s.stages| - 1 && k <= |s.pipes[|s.stages| - 1].inbox|
    ensures var t := Fed(s, |s.stages| - 1, k); Ordered(t, |p.frames|) && Log(t, p)
  {
  }

  /** One more read keeps the header on its way, and completes it exactly at the end of the frame. */
  lemma FedInv(s: State, k: nat, p: Plan, input: Bytes)
    requires Inv(s, p, input) && Started(s) == |s.stages| - 1 && k <= |s.pipes[|s.stages| - 1].inbox|
    requires var m := |s.stages| - 1; |s.stages[m].got| + k <= |p.frames[m]|
    ensures var m := |s.stages| - 1; var t := Fed(s, m, k);
            if |s.stages[m].got| + k < |p.frames[m]| then Inv(t, p, input) else Ready(t, p, input)
  {
    hide LinkOk, Coming, Upstream, Links, Log, PlanOk;
    var m := |s.stages| - 1;
    var t := Fed(s, m, k);
    assert |p.frames| == |p.route| by { PlanLengths(p, input); }
    FedOrdered(s, k, p);
    assert t.stages[..m] == s.stages[..m];
    AbsorbFlow(s, t, k);
    AbsorbLinks(s, t, k);
    var got, coming := s.stages[m].got, Coming(s, m);
    assert (got + coming[..k]) + coming[k..] == got + coming;
    if |got| + k == |p.frames[m]| {
      assert coming[k..] == (got + coming)[|got| + k..] == (p.frames[m] + input)[|p.frames[m]|..] == input;
    }
  }

  lemma PlanLengths(p: Plan, input: Bytes)
    requires PlanOk(p, input)
    ensures 0 < |p.frames| == |p.route|
  {
  }

  // ---------------------------------------------------------------- The plan of a request

  /** Requests a client sends: a fixed payload of the declared length, or an interactive stream. */
  predicate Accepts(r: ExecRequest, input: Bytes) {
    EncodeRequestHeader(r).Ok? && r.stdinBytes == if r.tty then 0 else |input|
  }

  /** Connections a complete run makes, in order. */
  function Route(r: ExecRequest): seq<HopTarget> {
    [HopTarget(r.target, r.targetPort, r.password)] + r.remaining
  }

  function Frame(r: ExecRequest, i: nat): Bytes
    requires i <= |r.remaining| && EncodeRequestHeader(r).Ok?
  {
    LaterHopsFit(r, i);
    EncodeRequestHeader(HopRequest(r, i)).value
  }

  function PlanOf(r: ExecRequest): (p: Plan)
    requires EncodeRequestHeader(r).Ok?
    ensures |p.frames| == |p.route| == |r.remaining| + 1
    ensures forall i :: 0 <= i < |p.frames| ==> p.frames[i] == Frame(r, i)
  {
    Plan(seq(|r.remaining| + 1, i requires 0 <= i <= |r.remaining| => Frame(r, i)), Route(r), r.command,
         if r.tty then None else Some(r.stdinBytes))
  }

  lemma PlanOfOk(r: ExecRequest, input: Bytes)
    requires Accepts(r, input)
    ensures PlanOk(PlanOf(r), input)
  {
    hide EncodeRequestHeader;
    forall i | 0 <= i <= |r.remaining| ensures |Frame(r, i)| > 4 {
      LaterHopsFit(r, i);
      FrameRoundTrip(HopRequest(r, i), "");
    }
  }

  lemma StartIsOpened(s: State, m: nat, r: ExecRequest, input: Bytes)
    requires Accepts(r, input) && m < |s.stages| && m <= |r.remaining|
    ensures StartHelper(s, m, HopRequest(r, m)) == Opened(s, PlanOf(r), m)
  {
    hide EncodeRequestHeader;
    var p := PlanOf(r);
    assert p.route[m] == HopTarget(HopRequest(r, m).target, HopRequest(r, m).targetPort, HopRequest(r, m).password);
    if m < |r.remaining| {
      LaterHopsFit(r, m + 1);
      assert Peel(HopRequest(r, m)) == HopRequest(r, m + 1);
      assert p.frames[m + 1] == EncodeRequestHeader(Peel(HopRequest(r, m))).value;
    } else {
      assert s.stages[m := Feeding(OpeningFeeder(p, m))] + [] == s.stages[m := Feeding(OpeningFeeder(p, m))];
    }
  }

  /** What `Absorb` does: it stays within the expected frame, and a complete frame starts the helper. */
  lemma AbsorbIsFed(s: State, i: nat, k: nat, r: ExecRequest, input: Bytes)
    requires Accepts(r, input) && Inv(s, PlanOf(r), input) && Enabled(s, Absorb(i, k))
    ensures i == |s.stages| - 1 == Started(s) && |s.stages[i].got| + k <= |PlanOf(r).frames[i]|
    ensures Apply(s, Absorb(i, k)) ==
            if |s.stages[i].got| + k < |PlanOf(r).frames[i]| then Fed(s, i, k)
            else Opened(Fed(s, i, k), PlanOf(r), i)
  {
    var p := PlanOf(r);
    hide Inv, Coming, Upstream, EncodeRequestHeader, ParseHeader, FromBe32, HopRequest, StartHelper, Apply, Accepts,
        Opened, Enabled, PlanOf, Frame;
    AbsorbFront(s, i, k, p, input);
    var q := HopRequest(r, i);
    assert EncodeRequestHeader(r).Ok? by { AcceptedHeader(r, input); }
    LaterHopsFit(r, i);
    FrameOf(r, i);
    FrameRoundTrip(q, "");
    HeaderPrefix(q, s.stages[i].got, Coming(s, i), input, k);
    AbsorbParts(s, i, k, q);
    StartIsOpened(Fed(s, i, k), i, r, input);
  }

  lemma AcceptedHeader(r: ExecRequest, input: Bytes)
    requires Accepts(r, input)
    ensures EncodeRequestHeader(r).Ok?
  {
    hide EncodeRequestHeader;
  }

  lemma FrameOf(r: ExecRequest, i: nat)
    requires i <= |r.remaining| && EncodeRequestHeader(r).Ok?
    ensures EncodeRequestHeader(HopRequest(r, i)).Ok? &&
        PlanOf(r).frames[i] == EncodeRequestHeader(HopRequest(r, i)).value
  {
    LaterHopsFit(r, i);
    hide EncodeRequestHeader, HopRequest;
    assert PlanOf(r).frames[i] == Frame(r, i);
  }

  /** The helper that reads is the newest, and what it reads is the front of its frame. */
  lemma AbsorbFront(s: State, i: nat, k: nat, p: Plan, input: Bytes)
    requires Inv(s, p, input) && Enabled(s, Absorb(i, k))
    ensures Shape(s) && i == |s.stages| - 1 == Started(s) && i < |p.frames| && HeaderOk(s, p.frames[i], input)
    ensures i < |s.pipes| && k <= |s.pipes[i].inbox| && s.stages[i].Reading? && k <= |Coming(s, i)| &&
        s.pipes[i].inbox[..k] == Coming(s, i)[..k]
    ensures |s.stages[i].got| + k <= Need(s.stages[i].got)
  {
    hide Upstream, Links, Log, LinkOk, FromBe32;
    assert Coming(s, i) == s.pipes[i].inbox + Upstream(s, i);
  }

  // ---------------------------------------------------------------- Every step keeps the invariant

  lemma TakeInv(s: State, i: nat, k: nat, p: Plan, input: Bytes)
    requires Inv(s, p, input) && Enabled(s, Take(i, k))
    ensures Inv(Apply(s, Take(i, k)), p, input)
  {
    hide LinkOk, LinkHeld, LinkChange, Coming, Upstream, Log, Tip, Apply, Inv, Ordered, Dry, FeederStep;
    FeedsAt(s, i, p, input);
    var pipe, f := s.pipes[i], s.stages[i].feeder;
    var left := if f.left.Some? then Some(f.left.value - k) else None;
    TakeChange(s, i, k);
    LinkChangeInv(s, Apply(s, Take(i, k)), i, pipe.inbox[k..], f.(hand := Some(pipe.inbox[..k]), left := left),
                  s.pipes[i + 1], p, input);
  }

  lemma FinishInv(s: State, i: nat, p: Plan, input: Bytes)
    requires Inv(s, p, input) && Enabled(s, Finish(i))
    ensures Inv(Apply(s, Finish(i)), p, input)
  {
    hide LinkOk, LinkHeld, LinkChange, Coming, Upstream, Log, Tip, Apply, Inv, Ordered, Dry, FeederStep;
    FeedsAt(s, i, p, input);
    FinishChange(s, i);
    LinkChangeInv(s, Apply(s, Finish(i)), i, s.pipes[i].inbox, s.stages[i].feeder.(hand := Some(""), ending := true),
                  s.pipes[i + 1], p, input);
  }

  lemma SendInv(s: State, i: nat, p: Plan, input: Bytes)
    requires Inv(s, p, input) && Enabled(s, Send(i))
    ensures Inv(Apply(s, Send(i)), p, input)
  {
    hide LinkOk, LinkHeld, LinkChange, Coming, Upstream, Log, Tip, Apply, Inv, Ordered, Dry, FeederStep;
    FeedsAt(s, i, p, input);
    var f := s.stages[i].feeder;
    SendChange(s, i);
    LinkChangeInv(s, Apply(s, Send(i)), i, s.pipes[i].inbox, f.(queue := f.queue + [f.hand.value], hand := None),
                  s.pipes[i + 1], p, input);
  }

  lemma DeliverInv(s: State, i: nat, p: Plan, input: Bytes)
    requires Inv(s, p, input) && Enabled(s, Deliver(i))
    ensures Inv(Apply(s, Deliver(i)), p, input)
  {
    hide LinkOk, LinkHeld, LinkChange, Coming, Upstream, Log, Tip, Apply, Inv, Ordered, Dry, FeederStep;
    FeedsAt(s, i, p, input);
    var q, f := s.pipes[i + 1], s.stages[i].feeder;
    var q' := if f.queue[0] == "" then q.(closed := true) else q.(inbox := q.inbox + f.queue[0]);
    DeliverChange(s, i);
    LinkChangeInv(s, Apply(s, Deliver(i)), i, s.pipes[i].inbox, f.(queue := f.queue[1..]), q', p, input);
  }

  // ---------------------------------------------------------------- Deaths

  /** The client is gone and has not sent everything. */
  predicate ClientOwes(s: State)
    requires Shape(s)
  {
    s.pipes[0].closed && s.source != ""
  }

  /** Helper `k` is dead and holds bytes that it should have passed on, or that were on their way to it. */
  predicate HelperOwes(s: State, k: nat)
    requires Shape(s)
  {
    k in s.failed && k + 1 < |s.pipes| && Upstream(s, k + 1) != ""
  }

  /** Somebody before process `j` is dead and still owes bytes. */
  predicate Owed(s: State, j: nat)
    requires Shape(s)
  {
    ClientOwes(s) || exists k: nat :: k < j && HelperOwes(s, k)
  }

  /** Bytes that a process holds are on their way to all the processes behind it. */
  lemma {:induction false} HeldOn(s: State, p: Plan, input: Bytes, k: nat, j: nat)
    requires Inv(s, p, input) && Shape(s) && k <= j < |s.pipes| && Upstream(s, k) != ""
    ensures Upstream(s, j) != ""
    decreases j
  {
    hide Inv, Upstream, LinkAt;
    if k < j {
      HeldOn(s, p, input, k, j - 1);
      LinkOf(s, p, input, j - 1);
      HeldThrough(s, j);
    }
  }

  lemma LinkOf(s: State, p: Plan, input: Bytes, i: nat)
    requires Inv(s, p, input) && i + 1 < |s.pipes|
    ensures Shape(s) && LinkAt(s, i)
  {
    hide Coming, Upstream, LinkAt, Tip, Log;
  }

  lemma HeldThrough(s: State, j: nat)
    requires Shape(s) && 0 < j < |s.pipes| && LinkAt(s, j - 1) && Upstream(s, j - 1) != ""
    ensures Upstream(s, j) != ""
  {
    UpstreamStep(s, j);
    assert Coming(s, j - 1) == s.pipes[j - 1].inbox + Upstream(s, j - 1);
    hide Upstream, LinkOk;
  }

  lemma UpstreamStep(s: State, j: nat)
    requires Shape(s) && 0 < j < |s.pipes|
    ensures Upstream(s, j) == Outflow(s.stages[j - 1], Coming(s, j - 1))
  {
  }

  /** Behind a live helper whose channel is closed nothing is left but what its own input did not bring. */
  lemma ClosedLink(s: State, p: Plan, input: Bytes, j: nat)
    requires Inv(s, p, input) && 0 < j < |s.pipes| && s.pipes[j].closed && j - 1 !in s.failed && Upstream(s, j) != ""
    ensures s.pipes[j - 1].closed && Upstream(s, j - 1) != ""
    ensures s.stages[j - 1].Feeding? && s.stages[j - 1].feeder.left == None
  {
    hide Upstream, Tip, Log, PlanOk;
    assert LinkAt(s, j - 1);
    UpstreamStep(s, j);
    assert Coming(s, j - 1) == s.pipes[j - 1].inbox + Upstream(s, j - 1);
  }

  /** At the end of a process's input something is missing exactly when somebody before it died owing it. */
  lemma {:induction false} ClosedUpstream(s: State, j: nat, p: Plan, input: Bytes)
    requires Inv(s, p, input) && j < |s.pipes|
    ensures s.pipes[j].closed ==> (Upstream(s, j) != "" <==> Owed(s, j))
  {
    if s.pipes[j].closed {
      if Upstream(s, j) != "" { OwedAt(s, j, p, input); }
      if Owed(s, j) { OwedIsHeld(s, j, p, input); }
    }
  }

  lemma {:induction false} OwedAt(s: State, j: nat, p: Plan, input: Bytes)
    requires Inv(s, p, input) && j < |s.pipes| && s.pipes[j].closed && Upstream(s, j) != ""
    ensures Owed(s, j)
    decreases j
  {
    InvShape(s, p, input);
    hide Inv;
    if j > 0 {
      if j - 1 in s.failed {
        assert HelperOwes(s, j - 1);
      } else {
        ClosedLink(s, p, input, j);
        OwedAt(s, j - 1, p, input);
      }
    }
  }

  lemma OwedIsHeld(s: State, j: nat, p: Plan, input: Bytes)
    requires Inv(s, p, input) && Shape(s) && j < |s.pipes| && Owed(s, j)
    ensures Upstream(s, j) != ""
  {
    hide Inv;
    if ClientOwes(s) {
      assert Upstream(s, 0) == s.source;
      hide Upstream;
      HeldOn(s, p, input, 0, j);
    } else {
      hide Upstream;
      var k: nat :| k < j && HelperOwes(s, k);
      HeldOn(s, p, input, k + 1, j);
    }
  }

  /**
   What the counted feeder is for. It finds its input short exactly when it has read to the end of it and
   somebody before it died owing bytes.
   */
  lemma ShortInputExactly(s: State, i: nat, p: Plan, input: Bytes)
    requires Inv(s, p, input)
    ensures Enabled(s, ShortInput(i))
       <==> IsFeeding(s, i) && s.stages[i].feeder.left.Some? && Idle(s, i) && Dry(s.pipes[i]) && Owed(s, i)
  {
    if IsFeeding(s, i) && s.stages[i].feeder.left.Some? && Dry(s.pipes[i]) {
      assert LinkAt(s, i);
      assert Coming(s, i) == "" + Upstream(s, i);
      ClosedUpstream(s, i, p, input);
    }
  }

  /** A header is cut short only behind somebody who died owing bytes. */
  lemma ShortHeaderIsOwed(s: State, i: nat, p: Plan, input: Bytes)
    requires Inv(s, p, input) && Enabled(s, ShortHeader(i))
    ensures Owed(s, i)
  {
    hide Links, Log, Upstream;
    assert i == |s.stages| - 1 && HeaderOk(s, p.frames[i], input);
    assert Coming(s, i) == "" + Upstream(s, i);
    assert |s.stages[i].got + Coming(s, i)| == |p.frames[i] + input| > |s.stages[i].got|;
    hide Inv;
    ClosedUpstream(s, i, p, input);
  }

  /** Nothing moves when a process or a feeder stops. */
  lemma StopFlow(s: State, t: State)
    requires Shape(s) && t == s.(failed := t.failed, halted := t.halted)
    ensures Shape(t) && forall j :: 0 <= j < |s.pipes| ==>
        Coming(t, j) == Coming(s, j) && Upstream(t, j) == Upstream(s, j)
  {
    hide Outflow;
    forall j | 0 <= j < |s.pipes| ensures Coming(t, j) == Coming(s, j) && Upstream(t, j) == Upstream(s, j) {
      Propagate(s, t, 0, j);
    }
  }

  lemma StopInv(s: State, t: State, p: Plan, input: Bytes)
    requires Inv(s, p, input) && t == s.(failed := t.failed, halted := t.halted) && s.failed <= t.failed
    requires forall i :: i in t.halted ==> i in s.halted || i + 1 == |p.route| == |s.pipes| - 1
    ensures Inv(t, p, input)
  {
    hide LinkOk, LinkHeld, Coming, Upstream, PlanOk, Dry;
    StopFlow(s, t);
    forall k | 0 <= k < Started(t) ensures LinkAt(t, k) {
      assert LinkAt(s, k);
    }
  }

  /** The end of a dead helper's connection: only the pipe behind it is closed. */
  lemma HangupFlow(s: State, i: nat)
    requires Shape(s) && Enabled(s, Hangup(i))
    ensures var t := Apply(s, Hangup(i));
            && Shape(t) && |t.pipes| == |s.pipes| && t == s.(pipes := t.pipes)
            && (forall j :: 0 <= j < |s.pipes| && j != i + 1 ==> t.pipes[j] == s.pipes[j])
            && t.pipes[i + 1] == s.pipes[i + 1].(closed := true)
            && forall j :: 0 <= j < |s.pipes| ==> Coming(t, j) == Coming(s, j) && Upstream(t, j) == Upstream(s, j)
  {
    var t := Apply(s, Hangup(i));
    hide Outflow;
    forall j | 0 <= j < |s.pipes| ensures Coming(t, j) == Coming(s, j) && Upstream(t, j) == Upstream(s, j) {
      Propagate(s, t, 0, j);
    }
  }

  lemma HangupInv(s: State, i: nat, p: Plan, input: Bytes)
    requires Inv(s, p, input) && Enabled(s, Hangup(i))
    ensures Inv(Apply(s, Hangup(i)), p, input)
  {
    var t := Apply(s, Hangup(i));
    hide Coming, Upstream, PlanOk, Apply, Links, Log;
    HangupFlow(s, i);
    HangupLinks(s, t, i);
    assert Log(t, p) by { HangupLog(s, t, p); }
  }

  lemma HangupLog(s: State, t: State, p: Plan)
    requires Ordered(s, |p.route|) && Ordered(t, |p.route|) && Log(s, p) && |t.pipes| == |s.pipes| &&
        t == s.(pipes := t.pipes)
    ensures Log(t, p)
  {
  }

  lemma HangupLinks(s: State, t: State, i: nat)
    requires Shape(s) && Links(s) && Shape(t) && |t.pipes| == |s.pipes| && t == s.(pipes := t.pipes)
    requires i in s.failed && i + 1 < |s.pipes| && t.pipes[i + 1] == s.pipes[i + 1].(closed := true)
    requires forall j :: 0 <= j < |s.pipes| && j != i + 1 ==> t.pipes[j] == s.pipes[j]
    requires forall j :: 0 <= j < |s.pipes| ==> Coming(t, j) == Coming(s, j)
    ensures Links(t)
  {
    hide LinkOk, LinkHeld, Coming, Upstream, Dry;
    forall k | 0 <= k < Started(t) ensures LinkAt(t, k) {
      assert LinkAt(s, k) && Coming(t, k) == Coming(s, k);
      ClosedStaysDry(s.pipes[k], t.pipes[k]);
      if k !in s.failed {
        Drier(s.stages[k].feeder, s.pipes[k + 1].closed, Coming(s, k), Dry(s.pipes[k]), Dry(t.pipes[k]));
      }
    }
  }

  lemma ClosedStaysDry(p: Pipe, q: Pipe)
    requires q == p || q == p.(closed := true)
    ensures Dry(p) ==> Dry(q)
  {
  }

  lemma AbsorbInv(s: State, i: nat, k: nat, r: ExecRequest, input: Bytes)
    requires Accepts(r, input) && Inv(s, PlanOf(r), input) && Enabled(s, Absorb(i, k))
    ensures Inv(Apply(s, Absorb(i, k)), PlanOf(r), input)
    ensures Apply(s, Absorb(i, k)).failed == s.failed && Apply(s, Absorb(i, k)).halted == s.halted
  {
    AbsorbIsFed(s, i, k, r, input);
    hide Accepts, Inv, Ready, Enabled, Apply, PlanOf;
    FedInv(s, k, PlanOf(r), input);
    if |s.stages[i].got| + k == |PlanOf(r).frames[i]| {
      OpenedInv(Fed(s, i, k), PlanOf(r), input);
    }
  }

  predicate OfClient(a: Action) {
    a.ClientSend? || a.ClientClose? || a.ClientDies?
  }

  lemma ClientStep(s: State, a: Action, p: Plan, input: Bytes)
    requires Inv(s, p, input) && Enabled(s, a) && OfClient(a)
    ensures SourceStep(s, Apply(s, a))
    ensures var t := Apply(s, a);
            |t.pipes| > 0 && (a.ClientSend? ==> |t.source| < |s.source| && t.pipes[0].closed == s.pipes[0].closed)
            && (!a.ClientSend? ==> t.source == s.source && t.pipes[0].closed && !s.pipes[0].closed)
  {
    assert Shape(s);
    hide Inv;
    var pipe := s.pipes[0];
    if a.ClientSend? {
      assert (pipe.inbox + s.source[..a.k]) + s.source[a.k..] == pipe.inbox + s.source;
    }
  }

  lemma ClientInv(s: State, a: Action, p: Plan, input: Bytes)
    requires Inv(s, p, input) && Enabled(s, a) && OfClient(a)
    ensures Inv(Apply(s, a), p, input)
  {
    hide SourceStep, Apply;
    ClientStep(s, a, p, input);
    SourceInv(s, Apply(s, a), p, input);
  }

  /** The helper whose process goes in this step. */
  function Fails(a: Action): set<nat> {
    match a
    case Abort(i) => {i}
    case ShortHeader(i) => {i}
    case _ => {}
  }

  /** The helper whose feeder gives up in this step. */
  function Halts(a: Action): set<nat> {
    match a
    case ShortInput(i) => {i}
    case _ => {}
  }

  /** Steps that read no header stop nobody else. */
  lemma StoppedByStep(s: State, a: Action)
    requires Enabled(s, a) && !a.Absorb?
    ensures Apply(s, a).failed == s.failed + Fails(a) && Apply(s, a).halted == s.halted + Halts(a)
    ensures Fails(a) + Halts(a) != {} ==>
        Apply(s, a) == s.(failed := s.failed + Fails(a), halted := s.halted + Halts(a))
  {
  }

  /** The helper that takes a step, if it is not the client's. */
  function Actor(a: Action): Option<nat> {
    match a
    case ClientSend(_) => None
    case ClientClose => None
    case ClientDies => None
    case Absorb(i, _) => Some(i)
    case ShortHeader(i) => Some(i)
    case Take(i, _) => Some(i)
    case Finish(i) => Some(i)
    case ShortInput(i) => Some(i)
    case Send(i) => Some(i)
    case Deliver(i) => Some(i)
    case Abort(i) => Some(i)
    case Hangup(_) => None
  }

  /** A failed helper stays failed and does nothing more; a step fails at most the helper that takes it. */
  lemma FailedStep(s: State, a: Action)
    requires Enabled(s, a)
    ensures s.failed <= Apply(s, a).failed && s.halted <= Apply(s, a).halted
    ensures forall i :: i in Apply(s, a).failed ==> i in s.failed || Actor(a) == Some(i)
    ensures Actor(a).Some? ==> Actor(a).value !in s.failed
  {
    hide ParseHeader, EncodeRequestHeader, FromBe32, Peel;
  }

  lemma StopStep(s: State, a: Action, p: Plan, input: Bytes)
    requires Inv(s, p, input) && Enabled(s, a) && (a.Abort? || a.ShortHeader? || a.ShortInput?)
    ensures Inv(Apply(s, a), p, input)
    ensures Shape(s) && (a.ShortInput? || a.ShortHeader? ==> Owed(s, a.i))
  {
    InvShape(s, p, input);
    StoppedByStep(s, a);
    if a.ShortInput? {
      ShortInputExactly(s, a.i, p, input);
      CountedIsLast(s, a.i, p, input);
    }
    if a.ShortHeader? { ShortHeaderIsOwed(s, a.i, p, input); }
    hide Inv, Apply, Enabled, Owed;
    StopInv(s, Apply(s, a), p, input);
  }

  lemma CountedIsLast(s: State, i: nat, p: Plan, input: Bytes)
    requires Inv(s, p, input) && IsFeeding(s, i) && s.stages[i].feeder.left.Some?
    ensures i + 1 == |p.route| == |s.pipes| - 1
  {
    PlanLengths(p, input);
    hide Links, Log, Tip, Coming, Upstream, PlanOk;
  }

  lemma StepKeeps(s: State, a: Action, r: ExecRequest, input: Bytes)
    requires Accepts(r, input) && Inv(s, PlanOf(r), input) && Enabled(s, a)
    ensures Inv(Apply(s, a), PlanOf(r), input)
  {
    var p := PlanOf(r);
    hide Accepts, Inv, PlanOf, Apply, Enabled, Owed;
    match a {
      case ClientSend(_) => ClientInv(s, a, p, input);
      case ClientClose => ClientInv(s, a, p, input);
      case ClientDies => ClientInv(s, a, p, input);
      case Absorb(i, k) => AbsorbInv(s, i, k, r, input);
      case Take(i, k) => TakeInv(s, i, k, p, input);
      case Finish(i) => FinishInv(s, i, p, input);
      case Send(i) => SendInv(s, i, p, input);
      case Deliver(i) => DeliverInv(s, i, p, input);
      case Hangup(i) => HangupInv(s, i, p, input);
      case _ => StopStep(s, a, p, input);
    }
  }

  /**
   The invariant of every reachable state, whoever dies. A helper goes or halts only when it dies, or when its
   input was cut short by somebody before it.
   */
  lemma StepInv(s: State, a: Action, r: ExecRequest, input: Bytes)
    requires Accepts(r, input) && Inv(s, PlanOf(r), input) && Enabled(s, a)
    ensures Inv(Apply(s, a), PlanOf(r), input)
    ensures Apply(s, a).failed == s.failed + Fails(a) && Apply(s, a).halted == s.halted + Halts(a)
    ensures Shape(s) && (a.ShortInput? || a.ShortHeader? ==> Owed(s, a.i))
  {
    var p := PlanOf(r);
    hide Accepts, Inv, PlanOf, Apply, Enabled, Owed;
    StepKeeps(s, a, r, input);
    InvShape(s, p, input);
    if a.Absorb? {
      AbsorbInv(s, a.i, a.k, r, input);
    } else {
      StoppedByStep(s, a);
      if a.ShortInput? || a.ShortHeader? { StopStep(s, a, p, input); }
    }
  }

  lemma InvShape(s: State, p: Plan, input: Bytes)
    requires Inv(s, p, input)
    ensures Shape(s)
  {
  }
}
