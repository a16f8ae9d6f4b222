/** Whole runs of the hop protocol: what every run keeps, that runs end, and what a finished run has done. */
module DeliveryRuns {
  import opened Wrappers
  import opened Text
  import opened Fields
  import opened Json
  import opened Wire
  import opened Streams
  import opened Delivery

  /** What the client writes to the first helper. */
  function Payload(r: ExecRequest, input: Bytes): Bytes
    requires EncodeRequestHeader(r).Ok?
  {
    EncodeRequestHeader(r).value + input
  }

  lemma InitInv(r: ExecRequest, input: Bytes)
    requires Accepts(r, input)
    ensures Inv(Init(Payload(r, input)), PlanOf(r), input)
  {
    PlanOfOk(r, input);
    var p := PlanOf(r);
    assert EncodeRequestHeader(r).Ok?;
    assert HopRequest(r, 0) == r;
    hide EncodeRequestHeader, PlanOk, Accepts;
    var s := Init(Payload(r, input));
    assert p.frames[0] == Frame(r, 0) == EncodeRequestHeader(r).value;
    assert |p.frames[0]| > 4 by { PlanFrames(p, input); }
    hide PlanOf, Frame;
    assert Coming(s, 0) == "" + s.source == s.source;
    assert "" + Coming(s, 0) == p.frames[0] + input;
    assert s.connections == p.route[..0];
  }

  lemma PlanFrames(p: Plan, input: Bytes)
    requires PlanOk(p, input)
    ensures forall i :: 0 <= i < |p.frames| ==> |p.frames[i]| > 4
  {
  }

  /** Somebody dies of his own accord. */
  predicate Death(a: Action) {
    a.Abort? || a.ClientDies?
  }

  predicate Steady(actions: seq<Action>) {
    forall a :: a in actions ==> !Death(a)
  }

  function Aborted(actions: seq<Action>): set<nat> {
    if actions == [] then {}
    else (if actions[0].Abort? then {actions[0].i} else {}) + Aborted(actions[1..])
  }

  /** Every failure, and every feeder that gave up, goes back to a death no further along the route. */
  ghost predicate Caused(s: State, died: bool, dead: set<nat>) {
    && Shape(s) && (ClientOwes(s) ==> died) && dead <= s.failed
    && forall i :: i in s.failed + s.halted ==> died || exists k :: k in dead && k <= i
  }

  lemma StepCaused(s: State, a: Action, r: ExecRequest, input: Bytes, died: bool, dead: set<nat>)
    requires Accepts(r, input) && Inv(s, PlanOf(r), input) && Enabled(s, a) && Caused(s, died, dead)
    ensures Caused(Apply(s, a), died || a.ClientDies?, dead + if a.Abort? then {a.i} else {})
  {
    hide Accepts, Inv, PlanOf, Apply, Enabled, ClientOwes, Owed;
    AcceptedHeader(r, input);
    var t := Apply(s, a);
    var now := dead + if a.Abort? then {a.i} else {};
    StepInv(s, a, r, input);
    ClientOwesFrom(s, a, PlanOf(r), input);
    InvShape(t, PlanOf(r), input);
    assert dead <= now <= t.failed;
    forall i | i in t.failed + t.halted ensures died || a.ClientDies? || exists k :: k in now && k <= i {
      if i in s.failed + s.halted {
        if !died { CauseKept(dead, now, i); }
      } else if a.Abort? {
        assert i in now;
      } else if !died {
        CauseOf(s, i, died, dead, now);
      }
    }
  }

  lemma CauseKept(dead: set<nat>, now: set<nat>, i: nat)
    requires dead <= now && exists k :: k in dead && k <= i
    ensures exists k :: k in now && k <= i
  {
    var k :| k in dead && k <= i;
    assert k in now;
  }

  lemma CauseOf(s: State, i: nat, died: bool, dead: set<nat>, now: set<nat>)
    requires Caused(s, died, dead) && !died && dead <= now && Owed(s, i)
    ensures exists k :: k in now && k <= i
  {
    hide ClientOwes, Upstream;
    var k: nat :| k < i && HelperOwes(s, k);
    assert k in s.failed + s.halted;
    var first :| first in dead && first <= k;
    assert first in now && first <= i;
  }

  lemma ClientOwesFrom(s: State, a: Action, p: Plan, input: Bytes)
    requires Inv(s, p, input) && Enabled(s, a) && Inv(Apply(s, a), p, input)
    ensures Shape(s) && Shape(Apply(s, a)) && (ClientOwes(Apply(s, a)) ==> ClientOwes(s) || a.ClientDies?)
  {
    InvShape(s, p, input);
    InvShape(Apply(s, a), p, input);
    hide Inv, Apply, Enabled;
    match a {
      case ClientSend(k) => ClientKeeps(s, a);
      case ClientClose => ClientKeeps(s, a);
      case ClientDies =>
      case Absorb(i, k) => AbsorbKeeps(s, i, k);
      case _ => OthersKeep(s, a);
    }
  }

  lemma ClientKeeps(s: State, a: Action)
    requires Shape(s) && Enabled(s, a) && (a.ClientSend? || a.ClientClose?)
    ensures Shape(Apply(s, a)) && !ClientOwes(Apply(s, a))
  {
  }

  lemma AbsorbKeeps(s: State, i: nat, k: nat)
    requires Shape(s) && Enabled(s, Absorb(i, k))
    ensures var t := Apply(s, Absorb(i, k));
            0 < |t.pipes| && t.source == s.source && t.pipes[0].closed == s.pipes[0].closed
  {
    hide ParseHeader, EncodeRequestHeader, FromBe32, Peel;
  }

  lemma OthersKeep(s: State, a: Action)
    requires Shape(s) && Enabled(s, a) && !OfClient(a) && !a.Absorb?
    ensures var t := Apply(s, a); 0 < |t.pipes| && t.source == s.source && t.pipes[0].closed == s.pipes[0].closed
  {
    hide Absorbed, Need;
  }

  lemma {:induction false} RunCaused(s: State, actions: seq<Action>, r: ExecRequest, input: Bytes, died: bool,
      dead: set<nat>)
    requires Accepts(r, input) && Inv(s, PlanOf(r), input) && Runs(s, actions) && Caused(s, died, dead)
    ensures Caused(Final(s, actions), died || ClientDies in actions, dead + Aborted(actions))
    decreases |actions|
  {
    hide Accepts, Inv, PlanOf, Apply, Enabled, Caused;
    if actions != [] {
      var a := actions[0];
      StepInv(s, a, r, input);
      StepCaused(s, a, r, input, died, dead);
      var now := dead + if a.Abort? then {a.i} else {};
      RunCaused(Apply(s, a), actions[1..], r, input, died || a.ClientDies?, now);
      assert now + Aborted(actions[1..]) == dead + Aborted(actions);
      assert ClientDies in actions <==> a == ClientDies || ClientDies in actions[1..];
    } else {
      assert dead + Aborted(actions) == dead;
    }
  }

  lemma {:induction false} SteadyAborts(actions: seq<Action>)
    requires Steady(actions)
    ensures Aborted(actions) == {} && ClientDies !in actions
  {
    if actions != [] {
      assert actions[0] in actions && forall a :: a in actions[1..] ==> a in actions;
      SteadyAborts(actions[1..]);
    }
  }

  lemma {:induction false} RunInv(s: State, actions: seq<Action>, r: ExecRequest, input: Bytes)
    requires Accepts(r, input) && Inv(s, PlanOf(r), input) && Runs(s, actions)
    ensures Inv(Final(s, actions), PlanOf(r), input)
    decreases |actions|
  {
    hide Accepts, Inv, PlanOf, Apply, Enabled;
    if actions != [] {
      StepInv(s, actions[0], r, input);
      RunInv(Apply(s, actions[0]), actions[1..], r, input);
    }
  }

  /** In a run without deaths nobody fails, and nobody is owed anything. */
  lemma SteadyRun(r: ExecRequest, input: Bytes, actions: seq<Action>)
    requires Accepts(r, input) && Runs(Init(Payload(r, input)), actions) && Steady(actions)
    ensures var s := Final(Init(Payload(r, input)), actions);
            Shape(s) && s.failed == {} && s.halted == {} && !ClientOwes(s) && forall j: nat :: !Owed(s, j)
  {
    InitInv(r, input);
    var s := Init(Payload(r, input));
    InitCaused(Payload(r, input));
    RunCaused(s, actions, r, input, false, {});
    SteadyAborts(actions);
    hide Runs, Final, Accepts, Inv, Init, ClientOwes, Upstream;
    var t := Final(s, actions);
    assert t.failed + t.halted == {} by {
      if i :| i in t.failed + t.halted { assert false; }
    }
    assert t.failed <= t.failed + t.halted && t.halted <= t.failed + t.halted;
  }

  /** Over any run, from any state: who has failed stays failed, and only who took a step can have failed. */
  lemma {:induction false} FailedStays(s: State, actions: seq<Action>)
    requires Runs(s, actions)
    ensures s.failed <= Final(s, actions).failed
    ensures forall i :: i in Final(s, actions).failed ==>
        i in s.failed || exists a :: a in actions && Actor(a) == Some(i)
    decreases |actions|
  {
    hide Apply, Enabled, Actor;
    if actions != [] {
      var t := Apply(s, actions[0]);
      FailedStep(s, actions[0]);
      FailedStays(t, actions[1..]);
      assert actions[0] in actions && forall a :: a in actions[1..] ==> a in actions;
    }
  }

  /** Standard input of the command, once it runs. */
  function CommandInput(s: State): Pipe
    requires Shape(s)
  {
    s.pipes[|s.pipes| - 1]
  }

  /**
   Safety of every run, finished or not, whoever dies. Connections follow the route with each hop's own port
   and password, no channel exceeds its slots, every failure goes back to a death, and the command gets a
   prefix of the input. Once its end of file arrives that is all of the input exactly when nobody has died
   owing it bytes; unless the request is interactive, it is all of it whenever the command's own helper lives.
   */
  lemma EveryRunIsSafe(r: ExecRequest, input: Bytes, actions: seq<Action>)
    requires Accepts(r, input) && Runs(Init(Payload(r, input)), actions)
    ensures var s := Final(Init(Payload(r, input)), actions);
            && Shape(s)
            && s.connections <= Route(r)
            && Caused(s, ClientDies in actions, Aborted(actions))
            && (forall i :: 0 <= i < |s.stages| && s.stages[i].Feeding? ==> |s.stages[i].feeder.queue| <= SLOTS)
            && (s.command.Some? ==>
                  && s.command.value == r.command && s.connections == Route(r)
                  && CommandInput(s).inbox <= input
                  && (CommandInput(s).closed ==> (CommandInput(s).inbox == input <==> !Owed(s, |s.pipes| - 1)))
                  && (CommandInput(s).closed && !r.tty && |r.remaining| !in s.failed ==>
                      CommandInput(s).inbox == input))
  {
    hide PlanOf, Accepts, Final, Runs, Route, Payload, EncodeRequestHeader, Caused, Owed, Init, Inv, Shape,
        CommandInput;
    AcceptedHeader(r, input);
    var start := Init(Payload(r, input));
    InitInv(r, input);
    InitCaused(Payload(r, input));
    RunInv(start, actions, r, input);
    RunCaused(start, actions, r, input, false, {});
    assert {} + Aborted(actions) == Aborted(actions);
    PlanFacts(r);
    InvIsSafe(Final(start, actions), PlanOf(r), input);
  }

  lemma InitCaused(source: Bytes)
    ensures Caused(Init(source), false, {})
  {
  }

  lemma PlanFacts(r: ExecRequest)
    requires EncodeRequestHeader(r).Ok?
    ensures PlanOf(r).route == Route(r) && PlanOf(r).command == r.command && (PlanOf(r).left.Some? <==> !r.tty)
    ensures |Route(r)| == |r.remaining| + 1
  {
    hide EncodeRequestHeader;
  }

  lemma InvIsSafe(s: State, p: Plan, input: Bytes)
    requires Inv(s, p, input)
    ensures Shape(s) && s.connections <= p.route
    ensures forall i :: 0 <= i < |s.stages| && s.stages[i].Feeding? ==> |s.stages[i].feeder.queue| <= SLOTS
    ensures s.command.Some? ==> s.command.value == p.command && s.connections == p.route
                                && CommandInput(s).inbox <= input
                                && (CommandInput(s).closed ==>
                                    (CommandInput(s).inbox == input <==> !Owed(s, |s.pipes| - 1)))
                                && (CommandInput(s).closed && p.left.Some? && |p.route| - 1 !in s.failed ==>
                                    CommandInput(s).inbox == input)
  {
    hide Coming, Upstream, Owed;
    forall i | 0 <= i < |s.stages| && s.stages[i].Feeding? ensures |s.stages[i].feeder.queue| <= SLOTS {
      assert LinkAt(s, i);
    }
    if s.command.Some? {
      assert p.route[..|p.route|] == p.route;
      ClosedUpstream(s, Started(s), p, input);
      ComingSplit(s, Started(s));
      if CommandInput(s).closed && Upstream(s, Started(s)) != "" && |p.route| - 1 !in s.failed {
        ClosedLink(s, p, input, Started(s));
      }
    }
  }

  lemma ComingSplit(s: State, j: nat)
    requires Shape(s) && j < |s.pipes|
    ensures Coming(s, j) == s.pipes[j].inbox + Upstream(s, j)
  {
  }

  // ---------------------------------------------------------------- Progress

  /** No step is possible any more, deaths aside. */
  ghost predicate Quiet(s: State) {
    forall a :: Enabled(s, a) ==> Death(a)
  }

  /** The command has been given the end of its standard input. */
  ghost predicate Done(s: State) {
    Shape(s) && s.command.Some? && CommandInput(s).closed
  }

  /** Or there is no command to wait for: the newest helper died before it had its header. */
  ghost predicate Headless(s: State) {
    Shape(s) && |s.stages| == |s.pipes| && |s.stages| - 1 in s.failed
  }

  /** Or the command waits for the end of an input that was cut short: its feeder has given up. */
  ghost predicate Left(s: State) {
    && Shape(s) && s.command.Some? && !CommandInput(s).closed && 2 <= |s.pipes|
    && |s.pipes| - 2 in s.halted && !Moves(s, |s.pipes| - 2)
  }

  /** A helper that is dead, or has chunks in its channel, leaves something to happen. */
  predicate Moves(s: State, i: nat)
    requires i < |s.stages|
  {
    i in s.failed || (s.stages[i].Feeding? && s.stages[i].feeder.queue != [])
  }

  ghost predicate Over(s: State) {
    Done(s) || Headless(s) || Left(s)
  }

  lemma FeederFacts(s: State, p: Plan, input: Bytes, i: nat)
    requires Inv(s, p, input) && i + 1 < |s.pipes| && i !in s.failed && !s.pipes[i + 1].closed
    ensures IsFeeding(s, i)
    ensures var f := s.stages[i].feeder;
            f.queue == [] && f.hand == None ==>
              && !f.ending
              && (s.pipes[i].inbox != "" && f.left.Some? ==> f.left.value >= 1)
  {
    var f := s.stages[i].feeder;
    assert LinkAt(s, i);
    ComingSplit(s, i);
    hide Coming, Upstream, Inv;
    assert f.queue == [] && f.hand == None ==> InFlight(f) == [];
  }

  /** While a pipe is open, some step upstream of it is possible, whoever is dead, unless a feeder has halted there. */
  lemma {:induction false} LinkProgress(s: State, p: Plan, input: Bytes, j: nat) returns (a: Action)
    requires Inv(s, p, input) && j < |s.pipes| && !s.pipes[j].closed
    requires forall i :: 0 <= i < j && i in s.halted ==> i < |s.stages| && Moves(s, i)
    ensures Enabled(s, a) && !Death(a)
    decreases j
  {
    assert Shape(s) by { InvShape(s, p, input); }
    hide Inv;
    if j == 0 {
      a := if s.source != "" then ClientSend(1) else ClientClose;
    } else if j - 1 in s.failed {
      a := Hangup(j - 1);
    } else {
      FeederFacts(s, p, input, j - 1);
      var f := s.stages[j - 1].feeder;
      if f.queue == [] && f.hand == None && s.pipes[j - 1].inbox == "" && !s.pipes[j - 1].closed && f.left != Some(0) {
        a := LinkProgress(s, p, input, j - 1);
      } else {
        a := FeederProgress(s, j - 1);
      }
    }
  }

  lemma FeederProgress(s: State, i: nat) returns (a: Action)
    requires IsFeeding(s, i)
    requires var f, pipe := s.stages[i].feeder, s.pipes[i];
             f.queue == [] && f.hand == None ==>
               && Idle(s, i) && (pipe.inbox != "" && f.left.Some? ==> f.left.value >= 1)
               && (pipe.inbox != "" || pipe.closed || f.left == Some(0))
    ensures Enabled(s, a) && !Death(a)
  {
    var f, pipe := s.stages[i].feeder, s.pipes[i];
    if f.queue != [] {
      a := Deliver(i);
    } else if f.hand.Some? {
      a := Send(i);
    } else if pipe.inbox != "" {
      a := Take(i, 1);
    } else {
      a := if f.left == Some(0) || f.left == None then Finish(i) else ShortInput(i);
    }
  }

  /** A helper still reading its header asks for more. */
  lemma HeaderComing(s: State, r: ExecRequest, input: Bytes)
    requires Accepts(r, input) && Inv(s, PlanOf(r), input) && Started(s) < |PlanOf(r).frames|
    ensures var m := |s.stages| - 1;
            && m == Started(s) && s.stages[m].Reading?
            && |s.stages[m].got| < Need(s.stages[m].got)
  {
    var p := PlanOf(r);
    var m := |s.stages| - 1;
    assert HeaderOk(s, p.frames[m], input);
    LaterHopsFit(r, m);
    var q := HopRequest(r, m);
    assert p.frames[m] == EncodeRequestHeader(q).value;
    hide EncodeRequestHeader, FromBe32, HopRequest, PlanOf, Inv, Coming, Upstream, Accepts;
    NeedsMore(q, s.stages[m].got, Coming(s, m), input);
  }

  lemma HeaderProgress(s: State, r: ExecRequest, input: Bytes) returns (a: Action)
    requires Accepts(r, input) && Inv(s, PlanOf(r), input) && Started(s) < |PlanOf(r).frames| && !Over(s)
    requires s.halted == {}
    ensures Enabled(s, a) && !Death(a)
  {
    assert EncodeRequestHeader(r).Ok?;
    hide Accepts, Inv, PlanOf, Done, Left;
    HeaderComing(s, r, input);
    var m := |s.stages| - 1;
    if s.pipes[m].inbox != "" {
      a := Absorb(m, 1);
    } else if s.pipes[m].closed {
      a := ShortHeader(m);
    } else {
      a := LinkProgress(s, PlanOf(r), input, m);
    }
  }

  /** A reader that holds part of its frame asks for at least one more byte. */
  lemma NeedsMore(q: ExecRequest, got: Bytes, coming: Bytes, input: Bytes)
    requires EncodeRequestHeader(q).Ok?
    requires |got| < |EncodeRequestHeader(q).value| && got + coming == EncodeRequestHeader(q).value + input
    ensures |got| < Need(got)
  {
    FrameRoundTrip(q, "");
    var frame := EncodeRequestHeader(q).value;
    hide EncodeRequestHeader, FromBe32;
    if |got| >= 4 {
      assert got[..4] == (frame + input)[..4] == frame[..4];
    }
  }

  /**
   No deadlock, whoever is dead: a run can go on until the command has the end of its input, or the newest
   helper has died over its header, or the counted feeder has given up.
   */
  lemma Progress(s: State, r: ExecRequest, input: Bytes) returns (a: Action)
    requires Accepts(r, input) && Inv(s, PlanOf(r), input) && !Over(s)
    ensures Enabled(s, a) && !Death(a)
  {
    assert EncodeRequestHeader(r).Ok?;
    HaltedIsLast(s, PlanOf(r), input);
    hide Accepts, Enabled;
    if Started(s) < |PlanOf(r).frames| {
      assert s.halted == {} by {
        if i :| i in s.halted { assert false; }
      }
      a := HeaderProgress(s, r, input);
    } else {
      a := LinkProgress(s, PlanOf(r), input, Started(s));
    }
  }

  lemma HaltedIsLast(s: State, p: Plan, input: Bytes)
    requires Inv(s, p, input)
    ensures |p.frames| == |p.route| && Shape(s) && forall i :: i in s.halted ==> i + 1 == |p.route| == Started(s)
  {
    PlanLengths(p, input);
    hide Links, Tip, PlanOk;
  }

  // ---------------------------------------------------------------- Termination

  function Unsent(f: Feeder, rest: Bytes): nat {
    (if f.hand.Some? then |f.hand.value| else 0) + |Limit(f.left, rest)|
  }

  /** Moves the end marker of one link still has to make. */
  function Marker(f: Feeder, closed: bool): nat {
    if closed then 0 else if !f.ending then 3 else if f.hand.Some? then 2 else 1
  }

  function LinkWork(stage: Stage, closed: bool, rest: Bytes): nat {
    match stage
    case Reading(_) => 0
    case Feeding(f) => |Outflow(stage, rest)| + Unsent(f, rest) + Marker(f, closed)
  }

  /** Work left around process `j`: bytes it must read, bytes to be delivered and sent to it, its end marker. */
  function PipeWork(s: State, p: Plan, input: Bytes, j: nat): nat
    requires Shape(s) && j <= |p.frames|
  {
    if j < |s.pipes| then
      (if j < |p.frames| then |Coming(s, j)| else 0) +
      (if j == 0 then |s.source| + (if s.pipes[0].closed then 0 else 1)
       else LinkWork(s.stages[j - 1], s.pipes[j].closed, Coming(s, j - 1)))
    else if j < |p.frames| then 3 * |p.frames[j] + input| + 3
    else 2 * |input| + 3
  }

  function Work(s: State, p: Plan, input: Bytes, n: nat): nat
    requires Shape(s) && n <= |p.frames| + 1
  {
    if n == 0 then 0 else Work(s, p, input, n - 1) + PipeWork(s, p, input, n - 1)
  }

  lemma {:induction false} WorkLess(s: State, t: State, p: Plan, input: Bytes, n: nat, a: nat)
    requires Shape(s) && Shape(t) && a <= |p.frames| && n <= |p.frames| + 1
    requires forall j :: 0 <= j <= |p.frames| ==> PipeWork(t, p, input, j) <= PipeWork(s, p, input, j)
    requires PipeWork(t, p, input, a) < PipeWork(s, p, input, a)
    ensures Work(t, p, input, n) <= Work(s, p, input, n)
    ensures a < n ==> Work(t, p, input, n) < Work(s, p, input, n)
  {
    hide PipeWork;
    if n > 0 { WorkLess(s, t, p, input, n - 1, a); }
  }

  /** All of the work of a state. */
  function TotalWork(s: State, p: Plan, input: Bytes): nat
    requires Shape(s)
  {
    Work(s, p, input, |p.frames| + 1)
  }

  ghost predicate Progresses(s: State, t: State, p: Plan, input: Bytes) {
    && Shape(s) && Shape(t)
    && (forall j :: 0 <= j <= |p.frames| ==> PipeWork(t, p, input, j) <= PipeWork(s, p, input, j))
    && exists a :: 0 <= a <= |p.frames| && PipeWork(t, p, input, a) < PipeWork(s, p, input, a)
  }

  lemma ProgressesLess(s: State, t: State, p: Plan, input: Bytes)
    requires Progresses(s, t, p, input)
    ensures TotalWork(t, p, input) < TotalWork(s, p, input)
  {
    hide PipeWork;
    var a :| 0 <= a <= |p.frames| && PipeWork(t, p, input, a) < PipeWork(s, p, input, a);
    WorkLess(s, t, p, input, |p.frames| + 1, a);
  }

  lemma SameWork(s: State, t: State, p: Plan, input: Bytes, j: nat)
    requires Shape(s) && Shape(t) && |s.pipes| == |t.pipes| && j <= |p.frames|
    requires j < |s.pipes| ==> |Coming(t, j)| <= |Coming(s, j)| && t.pipes[j].closed == s.pipes[j].closed
    requires j == 0 ==> t.source == s.source
    requires 0 < j < |s.pipes| ==> t.stages[j - 1] == s.stages[j - 1] && Coming(t, j - 1) == Coming(s, j - 1)
    ensures PipeWork(t, p, input, j) <= PipeWork(s, p, input, j)
    ensures j < |s.pipes| && j < |p.frames| && |Coming(t, j)| < |Coming(s, j)| ==>
              PipeWork(t, p, input, j) < PipeWork(s, p, input, j)
  {
    hide Coming, LinkWork;
  }

  /** Only helper `i` and the pipe it feeds have changed. */
  ghost predicate LocalChange(s: State, t: State, i: nat) {
    && Shape(s) && Shape(t) && i + 1 < |s.pipes| == |t.pipes| && |s.stages| == |t.stages| && t.source == s.source
    && (forall j :: 0 <= j < |s.stages| && j != i ==> t.stages[j] == s.stages[j])
    && (forall j :: 0 <= j < |s.pipes| && j != i + 1 ==> t.pipes[j].closed == s.pipes[j].closed)
    && (forall j :: 0 <= j < |s.pipes| && j != i ==> Coming(t, j) == Coming(s, j))
    && |Coming(t, i)| <= |Coming(s, i)|
  }

  lemma LocalWork(s: State, t: State, i: nat, p: Plan, input: Bytes)
    requires LocalChange(s, t, i) && i < |p.frames|
    requires PipeWork(t, p, input, i + 1) <= PipeWork(s, p, input, i + 1)
    requires PipeWork(t, p, input, i + 1) < PipeWork(s, p, input, i + 1) || |Coming(t, i)| < |Coming(s, i)|
    ensures Progresses(s, t, p, input)
  {
    hide PipeWork, Coming;
    forall j | 0 <= j <= |p.frames| ensures PipeWork(t, p, input, j) <= PipeWork(s, p, input, j) {
      if j != i + 1 { SameWork(s, t, p, input, j); }
    }
    if |Coming(t, i)| < |Coming(s, i)| { SameWork(s, t, p, input, i); }
  }

  lemma LinkChangeLocal(s: State, t: State, i: nat, inbox: Bytes, f: Feeder, next: Pipe)
    requires Shape(s) && i + 1 < |s.pipes| && LinkChange(s, t, i, inbox, f, next) && |inbox| <= |s.pipes[i].inbox|
    ensures LocalChange(s, t, i)
    ensures |Coming(s, i)| - |Coming(t, i)| == |s.pipes[i].inbox| - |inbox|
  {
    hide LinkChange, LinkOk, Outflow;
    LinkChangeParts(s, t, i, inbox, f, next);
    LinkChangeFlow(s, t, i, inbox, f, next);
    ComingSplit(s, i);
    hide Coming, Upstream;
  }

  /** A step at one link that shrinks what is to be read, delivered, sent or marked. */
  lemma LinkChangeWork(s: State, t: State, i: nat, inbox: Bytes, f: Feeder, next: Pipe, p: Plan, input: Bytes)
    requires Shape(s) && i < |p.frames| && i + 1 < |s.pipes| && LinkChange(s, t, i, inbox, f, next)
    requires |inbox| <= |s.pipes[i].inbox|
    requires var before, after := LinkWork(s.stages[i], s.pipes[i + 1].closed, Coming(s, i)),
                                  LinkWork(Feeding(f), next.closed, inbox + Upstream(s, i));
             after <= before && (after < before || |inbox| < |s.pipes[i].inbox|)
    ensures Progresses(s, t, p, input)
  {
    hide LinkOk, Outflow, LinkWork, Coming, Upstream;
    LinkChangeParts(s, t, i, inbox, f, next);
    LinkChangeLocal(s, t, i, inbox, f, next);
    assert Coming(t, i) == inbox + Upstream(s, i) by { LinkChangeFlow(s, t, i, inbox, f, next); }
    hide LinkChange;
    assert t.stages[i] == Feeding(f) && t.pipes[i + 1] == next;
    assert Coming(t, i + 1) == Coming(s, i + 1);
    hide Progresses;
    LocalWork(s, t, i, p, input);
  }

  lemma TakeWork(s: State, i: nat, k: nat, p: Plan, input: Bytes)
    requires Inv(s, p, input) && Enabled(s, Take(i, k))
    ensures Progresses(s, Apply(s, Take(i, k)), p, input)
  {
    FeedsAt(s, i, p, input);
    hide Inv, LinkChange, LinkOk, Coming, Upstream, Progresses, Apply, Outflow;
    var pipe, f := s.pipes[i], s.stages[i].feeder;
    var left := if f.left.Some? then Some(f.left.value - k) else None;
    var g := f.(hand := Some(pipe.inbox[..k]), left := left);
    TakeChange(s, i, k);
    ComingSplit(s, i);
    TakeLink(f, s.pipes[i + 1].closed, pipe.inbox, Upstream(s, i), k, Dry(pipe), Dry(pipe));
    assert |Limit(left, pipe.inbox[k..] + Upstream(s, i))| + k == |Limit(f.left, pipe.inbox + Upstream(s, i))| by {
      LeftExact(f, s.pipes[i + 1].closed, pipe.inbox + Upstream(s, i), Dry(pipe));
    }
    hide Limit;
    LinkChangeWork(s, Apply(s, Take(i, k)), i, pipe.inbox[k..], g, s.pipes[i + 1], p, input);
  }

  lemma LeftExact(f: Feeder, closed: bool, rest: Bytes, dry: bool)
    requires LinkOk(f, closed, rest, dry)
    ensures f.left.Some? ==> f.left.value == |rest|
  {
  }

  lemma FinishLink(f: Feeder, closed: bool, rest: Bytes, dry: bool)
    requires LinkOk(f, closed, rest, dry) && f.hand == None && !f.ending
    ensures var g := f.(hand := Some(""), ending := true);
            LinkWork(Feeding(g), closed, rest) < LinkWork(Feeding(f), closed, rest)
  {
    NotYetClosed(f, closed, rest, dry);
    var g := f.(hand := Some(""), ending := true);
    assert InFlight(g) == InFlight(f) + [""];
    FlattenSnoc(InFlight(f), "");
    hide LinkOk, Limit, InFlight;
  }

  lemma NotYetClosed(f: Feeder, closed: bool, rest: Bytes, dry: bool)
    requires LinkOk(f, closed, rest, dry) && (!f.ending || InFlight(f) != [])
    ensures !closed
    ensures f.hand.Some? ==> (f.hand.value == "" <==> f.ending)
    ensures f.queue != [] && f.queue[0] == "" ==> f.ending && f.hand == None && |f.queue| == 1
  {
    var a := InFlight(f);
    assert f.hand.Some? ==> a[|a| - 1] == f.hand.value;
    assert f.queue != [] ==> a[0] == f.queue[0];
  }

  lemma SendLink(f: Feeder, closed: bool, rest: Bytes, dry: bool)
    requires LinkOk(f, closed, rest, dry) && f.hand.Some?
    ensures var g := f.(queue := f.queue + [f.hand.value], hand := None);
            LinkWork(Feeding(g), closed, rest) < LinkWork(Feeding(f), closed, rest)
  {
    NotYetClosed(f, closed, rest, dry);
    assert InFlight(f.(queue := f.queue + [f.hand.value], hand := None)) == InFlight(f);
    hide LinkOk, Limit, InFlight;
  }

  lemma DeliverLinkWork(f: Feeder, closed: bool, rest: Bytes, dry: bool)
    requires LinkOk(f, closed, rest, dry) && f.queue != []
    ensures LinkWork(Feeding(f.(queue := f.queue[1..])), f.queue[0] == "", rest) < LinkWork(Feeding(f), closed, rest)
  {
    assert InFlight(f)[0] == f.queue[0];
    NotYetClosed(f, closed, rest, dry);
    assert InFlight(f.(queue := f.queue[1..])) == InFlight(f)[1..];
    hide LinkOk, Limit, InFlight;
  }

  lemma FinishWork(s: State, i: nat, p: Plan, input: Bytes)
    requires Inv(s, p, input) && Enabled(s, Finish(i))
    ensures Progresses(s, Apply(s, Finish(i)), p, input)
  {
    FeedsAt(s, i, p, input);
    hide Inv, LinkChange, LinkOk, Coming, Upstream, Progresses, Apply, LinkWork, Outflow;
    FinishChange(s, i);
    ComingSplit(s, i);
    FinishLink(s.stages[i].feeder, s.pipes[i + 1].closed, Coming(s, i), Dry(s.pipes[i]));
    LinkChangeWork(s, Apply(s, Finish(i)), i, s.pipes[i].inbox, s.stages[i].feeder.(hand := Some(""), ending := true),
                   s.pipes[i + 1], p, input);
  }

  lemma SendWork(s: State, i: nat, p: Plan, input: Bytes)
    requires Inv(s, p, input) && Enabled(s, Send(i))
    ensures Progresses(s, Apply(s, Send(i)), p, input)
  {
    FeedsAt(s, i, p, input);
    hide Inv, LinkChange, LinkOk, Coming, Upstream, Progresses, Apply, LinkWork, Outflow;
    var f := s.stages[i].feeder;
    SendChange(s, i);
    ComingSplit(s, i);
    SendLink(f, s.pipes[i + 1].closed, Coming(s, i), Dry(s.pipes[i]));
    LinkChangeWork(s, Apply(s, Send(i)), i, s.pipes[i].inbox, f.(queue := f.queue + [f.hand.value], hand := None),
                   s.pipes[i + 1], p, input);
  }

  lemma DeliverWork(s: State, i: nat, p: Plan, input: Bytes)
    requires Inv(s, p, input) && Enabled(s, Deliver(i))
    ensures Progresses(s, Apply(s, Deliver(i)), p, input)
  {
    FeedsAt(s, i, p, input);
    hide Inv, LinkChange, LinkOk, Coming, Upstream, Progresses, Apply, LinkWork, Outflow;
    var q, f := s.pipes[i + 1], s.stages[i].feeder;
    var q' := if f.queue[0] == "" then q.(closed := true) else q.(inbox := q.inbox + f.queue[0]);
    DeliverChange(s, i);
    ComingSplit(s, i);
    DeliverLinkWork(f, q.closed, Coming(s, i), Dry(s.pipes[i]));
    DeliverLink(f, q.closed, Coming(s, i), Dry(s.pipes[i]));
    LinkChangeWork(s, Apply(s, Deliver(i)), i, s.pipes[i].inbox, f.(queue := f.queue[1..]), q', p, input);
  }

  lemma SourceWork(s: State, t: State, p: Plan, input: Bytes)
    requires Shape(s) && SourceStep(s, t) && 0 < |p.frames|
    requires var weight := (x: State) requires Shape(x) => |x.source| + if x.pipes[0].closed then 0 else 1;
             Shape(t) && weight(t) < weight(s)
    ensures Progresses(s, t, p, input)
  {
    hide LinkWork;
    SourceFlow(s, t);
    hide Coming, Upstream;
    assert PipeWork(t, p, input, 0) < PipeWork(s, p, input, 0);
    forall j | 0 <= j <= |p.frames| ensures PipeWork(t, p, input, j) <= PipeWork(s, p, input, j) {
      hide PipeWork;
      if j > 0 { SameWork(s, t, p, input, j); }
    }
  }

  lemma ClientWork(s: State, a: Action, p: Plan, input: Bytes)
    requires Inv(s, p, input) && Enabled(s, a) && OfClient(a)
    ensures Progresses(s, Apply(s, a), p, input)
  {
    hide Progresses;
    ClientStep(s, a, p, input);
    assert Shape(s) && 0 < |p.frames|;
    hide Inv;
    SourceWork(s, Apply(s, a), p, input);
  }

  lemma FedWork(s: State, k: nat, p: Plan, input: Bytes)
    requires Shape(s) && |s.stages| == |s.pipes| <= |p.frames| && s.stages[|s.stages| - 1].Reading?
    requires 1 <= k <= |s.pipes[|s.stages| - 1].inbox|
    ensures Progresses(s, Fed(s, |s.stages| - 1, k), p, input)
  {
    var m := |s.stages| - 1;
    var t := Fed(s, m, k);
    assert t.stages[..m] == s.stages[..m];
    AbsorbFlow(s, t, k);
    hide Coming, Upstream, PipeWork;
    forall j | 0 <= j <= |p.frames| ensures PipeWork(t, p, input, j) <= PipeWork(s, p, input, j) {
      SameWork(s, t, p, input, j);
    }
    SameWork(s, t, p, input, m);
  }

  /** Opening the next link turns the work set aside for it into actual work. */
  lemma OpenedWork(s: State, p: Plan, input: Bytes, j: nat)
    requires Ready(s, p, input) && j <= |p.frames|
    ensures Shape(Opened(s, p, |s.stages| - 1))
    ensures PipeWork(Opened(s, p, |s.stages| - 1), p, input, j) == PipeWork(s, p, input, j)
  {
    hide Outflow, LinkOk, OpeningFeeder, Coming, Upstream, Log, LinkWork;
    var m := |s.stages| - 1;
    var t := Opened(s, p, m);
    var f := OpeningFeeder(p, m);
    assert t.stages[..m] == s.stages[..m];
    StartFlow(s, t, f, input);
    OpeningLink(p, m, input);
    assert LinkWork(Feeding(f), false, input)
        == if m + 1 < |p.frames| then 2 * |p.frames[m + 1] + input| + 3 else 2 * |input| + 3
      by { OpeningWork(p, m, input); }
    if j <= m {
      assert t.pipes[j] == s.pipes[j] && (j > 0 ==> t.stages[j - 1] == s.stages[j - 1]);
    }
  }

  lemma OpeningWork(p: Plan, m: nat, input: Bytes)
    requires PlanOk(p, input) && m < |p.frames|
    ensures LinkWork(Feeding(OpeningFeeder(p, m)), false, input)
         == if m + 1 < |p.frames| then 2 * |p.frames[m + 1] + input| + 3 else 2 * |input| + 3
  {
    OpeningLink(p, m, input);
    hide Outflow, LinkOk;
  }

  lemma OpenedProgress(s: State, t: State, p: Plan, input: Bytes)
    requires Ready(t, p, input) && Progresses(s, t, p, input)
    ensures Progresses(s, Opened(t, p, |t.stages| - 1), p, input)
  {
    var u := Opened(t, p, |t.stages| - 1);
    hide PipeWork, Ready, Opened;
    forall j | 0 <= j <= |p.frames|
      ensures Shape(u) && PipeWork(u, p, input, j) == PipeWork(t, p, input, j)
    {
      OpenedWork(t, p, input, j);
    }
    OpenedWork(t, p, input, 0);
  }

  lemma FedOpenedWork(s: State, i: nat, k: nat, p: Plan, input: Bytes)
    requires Inv(s, p, input) && i == |s.stages| - 1 == Started(s) && 1 <= k <= |s.pipes[i].inbox|
    requires |s.stages[i].got| + k == |p.frames[i]|
    ensures Progresses(s, Opened(Fed(s, i, k), p, i), p, input)
  {
    assert |s.stages| == |s.pipes| <= |p.frames|;
    hide Inv, Progresses, Opened, Fed, Ready;
    FedWork(s, k, p, input);
    FedInv(s, k, p, input);
    FedStages(s, i, k);
    OpenedProgress(s, Fed(s, i, k), p, input);
  }

  lemma AbsorbWork(s: State, i: nat, k: nat, r: ExecRequest, input: Bytes)
    requires Accepts(r, input) && Inv(s, PlanOf(r), input) && Enabled(s, Absorb(i, k))
    ensures Progresses(s, Apply(s, Absorb(i, k)), PlanOf(r), input)
  {
    var p := PlanOf(r);
    AbsorbIsFed(s, i, k, r, input);
    assert Shape(s) && |s.stages| == |s.pipes| <= |p.frames|;
    hide Accepts, Inv, Apply, PlanOf, Progresses, Opened, Fed, Ready;
    if |s.stages[i].got| + k == |p.frames[i]| {
      FedOpenedWork(s, i, k, p, input);
    } else {
      FedWork(s, k, p, input);
    }
  }

  lemma FedStages(s: State, i: nat, k: nat)
    requires i < |s.stages| && i < |s.pipes| && s.stages[i].Reading? && k <= |s.pipes[i].inbox|
    ensures |Fed(s, i, k).stages| == |s.stages|
  {
  }

  /** A dead helper's connection goes: there is no end mark to wait for any more. */
  lemma HangupWork(s: State, i: nat, p: Plan, input: Bytes)
    requires Inv(s, p, input) && Enabled(s, Hangup(i))
    ensures Progresses(s, Apply(s, Hangup(i)), p, input)
  {
    var t := Apply(s, Hangup(i));
    FeedingAt(s, i, p, input);
    hide Inv, Apply, Outflow, Limit, InFlight;
    HangupFlow(s, i);
    hide Coming, Upstream;
    assert PipeWork(t, p, input, i + 1) < PipeWork(s, p, input, i + 1);
    forall j | 0 <= j <= |p.frames| ensures PipeWork(t, p, input, j) <= PipeWork(s, p, input, j) {
      hide PipeWork;
      if j != i + 1 { SameWork(s, t, p, input, j); }
    }
  }

  lemma FeedingAt(s: State, i: nat, p: Plan, input: Bytes)
    requires Inv(s, p, input) && i + 1 < |s.pipes|
    ensures Shape(s) && i < |p.frames| && i < |s.stages| && s.stages[i].Feeding?
  {
    hide Coming, Upstream, Links, Log, Tip;
  }

  /** Every step that stops nobody uses up work. */
  lemma StepWork(s: State, a: Action, r: ExecRequest, input: Bytes)
    requires Accepts(r, input) && Inv(s, PlanOf(r), input) && Enabled(s, a) && Fails(a) + Halts(a) == {}
    ensures Progresses(s, Apply(s, a), PlanOf(r), input)
  {
    var p := PlanOf(r);
    hide Accepts, Inv, PlanOf, Apply, Enabled, Progresses;
    match a {
      case ClientSend(_) => ClientWork(s, a, p, input);
      case ClientClose => ClientWork(s, a, p, input);
      case ClientDies => ClientWork(s, a, p, input);
      case Absorb(i, k) => AbsorbWork(s, i, k, r, input);
      case Take(i, k) => TakeWork(s, i, k, p, input);
      case Finish(i) => FinishWork(s, i, p, input);
      case Send(i) => SendWork(s, i, p, input);
      case Deliver(i) => DeliverWork(s, i, p, input);
      case Hangup(i) => HangupWork(s, i, p, input);
    }
  }

  /** Helpers of the route that are not in a set. */
  function Others(gone: set<nat>, n: nat): set<nat> {
    set i: nat | i < n && i !in gone
  }

  /** What is left to be done, counting the helpers that can still die and those whose feeder can still give up. */
  function Load(s: State, p: Plan, input: Bytes): nat
    requires Shape(s)
  {
    TotalWork(s, p, input) + |Others(s.failed, |p.frames|)| + |Others(s.halted, |p.frames|)|
  }

  lemma OneLess(gone: set<nat>, i: nat, n: nat)
    requires i < n && i !in gone
    ensures |Others(gone + {i}, n)| < |Others(gone, n)|
  {
    assert Others(gone + {i}, n) == Others(gone, n) - {i} && i in Others(gone, n);
  }

  lemma {:induction false} SameTotal(s: State, t: State, p: Plan, input: Bytes, n: nat)
    requires Shape(s) && Shape(t) && n <= |p.frames| + 1
    requires forall j :: 0 <= j <= |p.frames| ==> PipeWork(t, p, input, j) <= PipeWork(s, p, input, j)
    ensures Work(t, p, input, n) <= Work(s, p, input, n)
  {
    hide PipeWork;
    if n > 0 { SameTotal(s, t, p, input, n - 1); }
  }

  /** A stop leaves the work as it is, and there is one helper less to stop. */
  lemma StopLoad(s: State, a: Action, p: Plan, input: Bytes)
    requires Inv(s, p, input) && Enabled(s, a) && Fails(a) + Halts(a) != {}
    ensures var t := Apply(s, a); Shape(s) && Shape(t) && Load(t, p, input) < Load(s, p, input)
  {
    var t := Apply(s, a);
    InvShape(s, p, input);
    StoppedByStep(s, a);
    StopsOne(s, a, p, input);
    hide Inv, Apply, Enabled, LinkWork;
    StopFlow(s, t);
    hide Coming, Upstream;
    forall j | 0 <= j <= |p.frames| ensures PipeWork(t, p, input, j) <= PipeWork(s, p, input, j) {
      hide PipeWork;
      SameWork(s, t, p, input, j);
    }
    hide PipeWork;
    SameTotal(s, t, p, input, |p.frames| + 1);
    assert s.failed + {} == s.failed && s.halted + {} == s.halted;
    hide Work, Others;
    if a.ShortInput? { OneLess(s.halted, a.i, |p.frames|); } else { OneLess(s.failed, a.i, |p.frames|); }
  }

  lemma StopsOne(s: State, a: Action, p: Plan, input: Bytes)
    requires Inv(s, p, input) && Enabled(s, a) && Fails(a) + Halts(a) != {}
    ensures (a.Abort? || a.ShortHeader? || a.ShortInput?) && a.i < |p.frames|
    ensures if a.ShortInput? then Fails(a) == {} && Halts(a) == {a.i} && a.i !in s.halted
            else Fails(a) == {a.i} && Halts(a) == {} && a.i !in s.failed
  {
    hide Links, Log, Tip, Coming, Upstream, PlanOk;
  }

  /** So every step, deaths included, lightens the load. */
  lemma StepLoad(s: State, a: Action, r: ExecRequest, input: Bytes)
    requires Accepts(r, input) && Inv(s, PlanOf(r), input) && Enabled(s, a)
    ensures var t := Apply(s, a); Shape(s) && Shape(t) && Load(t, PlanOf(r), input) < Load(s, PlanOf(r), input)
  {
    var p := PlanOf(r);
    hide Inv, Apply, Enabled, PlanOf, Accepts, Progresses, TotalWork, Load;
    var t := Apply(s, a);
    StepInv(s, a, r, input);
    InvShape(s, p, input);
    InvShape(t, p, input);
    if Fails(a) + Halts(a) == {} {
      assert Fails(a) <= Fails(a) + Halts(a) && Halts(a) <= Fails(a) + Halts(a);
      StepWork(s, a, r, input);
      ProgressesLess(s, t, p, input);
      SameStopped(s, t, p, input);
    } else {
      StopLoad(s, a, p, input);
    }
  }

  lemma SameStopped(s: State, t: State, p: Plan, input: Bytes)
    requires Shape(s) && Shape(t) && t.failed == s.failed + {} && t.halted == s.halted + {}
    requires TotalWork(t, p, input) < TotalWork(s, p, input)
    ensures Load(t, p, input) < Load(s, p, input)
  {
    hide TotalWork;
    assert t.failed == s.failed && t.halted == s.halted;
  }

  /** Every run is bounded, however many processes die in it. */
  lemma {:induction false} RunWork(s: State, actions: seq<Action>, r: ExecRequest, input: Bytes)
    requires Accepts(r, input) && Inv(s, PlanOf(r), input) && Runs(s, actions)
    ensures Inv(Final(s, actions), PlanOf(r), input)
    ensures Shape(s) && Shape(Final(s, actions))
    ensures |actions| + Load(Final(s, actions), PlanOf(r), input) <= Load(s, PlanOf(r), input)
    decreases |actions|
  {
    assert EncodeRequestHeader(r).Ok?;
    hide Accepts, Inv, PlanOf, Apply, Enabled, Load;
    InvShape(s, PlanOf(r), input);
    if actions != [] {
      var t := Apply(s, actions[0]);
      StepInv(s, actions[0], r, input);
      StepLoad(s, actions[0], r, input);
      RunWork(t, actions[1..], r, input);
    }
  }

  /**
   End-to-end delivery. Every run is finite, whoever dies, and when it cannot go on the command has the end of
   its input, or the newest helper died over its header, or a counted feeder found the input short and leaves
   the command without an end. Without deaths it has made the route's connections in order, started the
   client's command behind the last of them, and given it exactly the client's input followed by end of file.
   */
  lemma EndToEnd(r: ExecRequest, input: Bytes, actions: seq<Action>)
    requires Accepts(r, input) && Runs(Init(Payload(r, input)), actions)
    ensures |actions| <= Load(Init(Payload(r, input)), PlanOf(r), input)
    ensures var s := Final(Init(Payload(r, input)), actions);
            Quiet(s) ==>
              && Over(s)
              && (Steady(actions) ==>
                    && s.connections == Route(r)
                    && s.command == Some(r.command)
                    && Shape(s) && CommandInput(s) == Pipe(input, true))
  {
    assert EncodeRequestHeader(r).Ok?;
    InitInv(r, input);
    hide Accepts, Inv, PlanOf, Load, EncodeRequestHeader, Route, Payload, Done, Over, Runs, Final, CommandInput, Quiet,
        Steady, Owed, ClientOwes;
    RunWork(Init(Payload(r, input)), actions, r, input);
    var s := Final(Init(Payload(r, input)), actions);
    if Quiet(s) {
      QuietIsOver(s, r, input);
      if Steady(actions) {
        SteadyRun(r, input, actions);
        OverIsDelivered(s, r, input);
      }
    }
  }

  lemma OverIsDelivered(s: State, r: ExecRequest, input: Bytes)
    requires Accepts(r, input) && Inv(s, PlanOf(r), input) && Over(s) && s.failed == {} && s.halted == {}
    requires Shape(s) && forall j: nat :: !Owed(s, j)
    ensures s.connections == Route(r) && s.command == Some(r.command) && CommandInput(s) == Pipe(input, true)
  {
    hide Inv, Owed;
    InvIsSafe(s, PlanOf(r), input);
  }

  lemma QuietIsOver(s: State, r: ExecRequest, input: Bytes)
    requires Accepts(r, input) && Inv(s, PlanOf(r), input) && Quiet(s)
    ensures Over(s)
  {
    hide Accepts, Inv, PlanOf, Enabled, Over;
    if !Over(s) {
      var a := Progress(s, r, input);
    }
  }

  /** The fixed-payload client's bytes are exactly the encoded request. */
  lemma PayloadIsRequest(r: ExecRequest, input: Bytes)
    requires EncodeRequest(r, input).Ok? && !r.tty
    ensures Accepts(r, input) && Payload(r, input) == EncodeRequest(r, input).value
  {
  }
}
