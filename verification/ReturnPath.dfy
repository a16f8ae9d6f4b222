/**
 The way back of an exec-hop run: a command's output and exit status through any number of helpers to the
 client. Every connection delivers its remote process's output in chunks of any size into channels of eight
 slots; every process reads them while the connection runs and drains them when it has ended, and all of
 this interleaves freely. The last helper feeds the command at the same time, and waits for its feeder before
 it drains: a feeder that still has input when the connection ends makes the helper give up.
 */
module ReturnPath {
  import opened Wrappers
  import opened Text
  import D = Delivery
  import Streams

  const SLOTS: nat := 8

  /** One stream of one connection: bytes still on the wire, and chunks delivered but not read. */
  datatype Hop = Hop(wire: Bytes, queue: seq<Bytes>)

  /** One of the two streams: what the client has, the connections from its own to the last, what is not written yet. */
  datatype Stream = Stream(got: Bytes, hops: seq<Hop>, todo: Bytes)

  /** A process with a connection to the next one: the client is 0, the helpers follow. */
  datatype Mode = Running | Draining(status: nat) | Exited(status: nat)

  /** The last helper's feeder, what it has not read yet, what the command has got, and whether that was all. */
  datatype Feed = Feed(unread: Bytes, feeder: D.Feeder, taken: Bytes, told: bool)

  datatype State = State(out: Stream, err: Stream, modes: seq<Mode>, feed: Feed, ended: bool, failed: bool)

  /** The command: its output and status, its input, and whether it ends only after the end of that. */
  datatype Run = Run(out: Bytes, err: Bytes, status: nat, input: Bytes, waits: bool, helpers: nat)

  /** What a helper says whose feeder finds the channel closed. */
  const COMPLAINT: Bytes := "binport-hop: channel closed\n"

  datatype Action =
    | Emit(err: bool, k: nat)
    | End
    | Push(j: nat, err: bool, k: nat)
    | Receive(j: nat, err: bool)
    | Complete(j: nat)
    | Exit(j: nat)
    | Take(k: nat)
    | Finish
    | Hand
    | Pass
    | Skip
    | FeedFails

  function Side(s: State, err: bool): Stream {
    if err then s.err else s.out
  }

  function With(s: State, err: bool, t: Stream): State {
    if err then s.(err := t) else s.(out := t)
  }

  function EmptyHops(n: nat): (h: seq<Hop>)
    ensures |h| == n && forall j :: 0 <= j < n ==> h[j] == Hop("", [])
  {
    seq(n, _ => Hop("", []))
  }

  function Init(r: Run): State {
    State(Stream("", EmptyHops(r.helpers + 1), r.out), Stream("", EmptyHops(r.helpers + 1), r.err),
          seq(r.helpers + 1, _ => Running), Feed(r.input, D.Feeder(Some(|r.input|), None, false, []), "", false), false,
              false)
  }

  predicate Shape(s: State) {
    |s.modes| > 1 && |s.out.hops| == |s.modes| && |s.err.hops| == |s.modes|
  }

  /** Process `j + 1` is over, with this status. */
  function Reported(s: State, r: Run, j: nat): Option<nat>
    requires j < |s.modes|
  {
    if j == |s.modes| - 1 then (if s.ended then Some(r.status) else None)
    else match s.modes[j + 1] case Exited(status) => Some(status) case _ => None
  }

  /** A helper passes on at most 255; the client reports what it is told. */
  function PassedOn(j: nat, status: nat): nat {
    if j > 0 && status > 255 then 255 else status
  }

  predicate Quiet(s: State, j: nat)
    requires Shape(s) && j < |s.modes|
  {
    s.out.hops[j].wire == "" && s.err.hops[j].wire == ""
  }

  predicate Drained(s: State, j: nat)
    requires Shape(s) && j < |s.modes|
  {
    s.out.hops[j].queue == [] && s.err.hops[j].queue == []
  }

  /** The connection to the command, and with it the feeder's channel, is still there. */
  predicate Open(s: State)
    requires Shape(s)
  {
    s.modes[|s.modes| - 1].Running?
  }

  /** The feeder has nothing more to do. */
  predicate Ready(f: Feed) {
    f.feeder.ending && f.feeder.hand == None
  }

  /** Only the end mark is left for it to send: everything else is in the channel, or through it. */
  predicate Handed(f: Feed) {
    f.feeder.left == Some(0) && (f.feeder.hand == None || f.feeder.hand.value == "")
  }

  predicate Enabled(s: State, r: Run, a: Action) {
    Shape(s) &&
    match a
    case Emit(err, k) => !s.ended && 1 <= k <= |Side(s, err).todo|
    case End => !s.ended && s.out.todo == "" && s.err.todo == "" && (r.waits ==> s.feed.told)
    case Push(j, err, k) =>
      j < |s.modes| && 1 <= k <= |Side(s, err).hops[j].wire| && |Side(s, err).hops[j].queue| < SLOTS
    case Receive(j, err) =>
      j < |s.modes| && Side(s, err).hops[j].queue != [] && !s.modes[j].Exited?
      && (s.modes[j].Draining? ==> (err ==> s.out.hops[j].queue == []) && (j == |s.modes| - 1 ==> Ready(s.feed)))
    case Complete(j) => j < |s.modes| && s.modes[j].Running? && Quiet(s, j) && Reported(s, r, j).Some?
    case Exit(j) => j < |s.modes| && s.modes[j].Draining? && Drained(s, j) && (j == |s.modes| - 1 ==> Ready(s.feed))
    case Take(k) =>
      var f := s.feed.feeder;
      !s.modes[|s.modes| - 1].Exited? && f.hand == None && !f.ending && f.left.Some? && 1 <= k <= f.left.value
      && k <= |s.feed.unread| && k <= Streams.BUFFER_BYTES
    case Finish => !s.modes[|s.modes| - 1].Exited? && s.feed.feeder.hand == None && !s.feed.feeder.ending &&
        s.feed.feeder.left == Some(0)
    case Hand => Open(s) && s.feed.feeder.hand.Some? && |s.feed.feeder.queue| < SLOTS
    case Pass => Open(s) && s.feed.feeder.queue != []
    case Skip => s.modes[|s.modes| - 1].Draining? && s.feed.feeder.hand == Some("")
    case FeedFails =>
      s.modes[|s.modes| - 1].Draining? && s.feed.feeder.hand.Some? && s.feed.feeder.hand.value != ""
  }

  function EmitTo(t: Stream, k: nat): Stream
    requires t.hops != [] && k <= |t.todo|
  {
    var n := |t.hops| - 1;
    t.(hops := t.hops[n := t.hops[n].(wire := t.hops[n].wire + t.todo[..k])], todo := t.todo[k..])
  }

  function PushTo(t: Stream, j: nat, k: nat): Stream
    requires j < |t.hops| && k <= |t.hops[j].wire|
  {
    t.(hops := t.hops[j := Hop(t.hops[j].wire[k..], t.hops[j].queue + [t.hops[j].wire[..k]])])
  }

  function ReceiveFrom(t: Stream, j: nat): Stream
    requires j < |t.hops| && t.hops[j].queue != []
  {
    var chunk := t.hops[j].queue[0];
    var rest := t.hops[j := t.hops[j].(queue := t.hops[j].queue[1..])];
    if j == 0 then t.(got := t.got + chunk, hops := rest)
    else t.(hops := rest[j - 1 := rest[j - 1].(wire := rest[j - 1].wire + chunk)])
  }

  /** The last helper gives up: what it has not read is lost, and it may say why before it ends. */
  function GiveUp(t: Stream, complaint: Bytes): Stream
    requires |t.hops| > 1
  {
    var n := |t.hops| - 1;
    var h := t.hops[n := t.hops[n].(queue := [])];
    t.(hops := h[n - 1 := h[n - 1].(wire := h[n - 1].wire + complaint)])
  }

  predicate Feeds(a: Action) {
    a.Take? || a.Finish? || a.Hand? || a.Pass? || a.Skip?
  }

  /** A step of the feeder, or of the connection taking what it has sent. */
  function FeedBy(f: Feed, a: Action): Feed
    requires a.Take? ==> a.k <= |f.unread| && f.feeder.left.Some? && a.k <= f.feeder.left.value
    requires a.Hand? ==> f.feeder.hand.Some?
    requires a.Pass? ==> f.feeder.queue != []
  {
    var g := f.feeder;
    match a
    case Take(k) => f.(unread := f.unread[k..],
        feeder := g.(hand := Some(f.unread[..k]), left := Some(g.left.value - k)))
    case Finish => f.(feeder := g.(hand := Some(""), ending := true))
    case Hand => f.(feeder := g.(queue := g.queue + [g.hand.value], hand := None))
    case Pass =>
      var rest := f.(feeder := g.(queue := g.queue[1..]));
      if g.queue[0] == "" then rest.(told := true) else rest.(taken := rest.taken + g.queue[0])
    case Skip => f.(feeder := g.(hand := None))
    case _ => f
  }

  function Apply(s: State, r: Run, a: Action): State
    requires Enabled(s, r, a)
  {
    if Feeds(a) then s.(feed := FeedBy(s.feed, a)) else
    match a
    case Emit(err, k) => With(s, err, EmitTo(Side(s, err), k))
    case End => s.(ended := true)
    case Push(j, err, k) => With(s, err, PushTo(Side(s, err), j, k))
    case Receive(j, err) => With(s, err, ReceiveFrom(Side(s, err), j))
    case Complete(j) => s.(modes := s.modes[j := Draining(Reported(s, r, j).value)])
    case Exit(j) => s.(modes := s.modes[j := Exited(PassedOn(j, s.modes[j].status))])
    case FeedFails =>
      s.(out := GiveUp(s.out, ""), err := GiveUp(s.err, COMPLAINT),
         modes := s.modes[|s.modes| - 1 := Exited(1)], failed := true)
    case _ => s
  }

  predicate Runs(s: State, r: Run, actions: seq<Action>)
    decreases |actions|
  {
    actions == [] || (Enabled(s, r, actions[0]) && Runs(Apply(s, r, actions[0]), r, actions[1..]))
  }

  function Final(s: State, r: Run, actions: seq<Action>): State
    requires Runs(s, r, actions)
    decreases |actions|
  {
    if actions == [] then s else Final(Apply(s, r, actions[0]), r, actions[1..])
  }

  // ---------------------------------------------------------------- Conservation

  function HopBytes(h: Hop): Bytes {
    Flatten(h.queue) + h.wire
  }

  /** The bytes between the command and the client, nearest to the client first. */
  function Carried(hops: seq<Hop>): Bytes {
    if hops == [] then "" else HopBytes(hops[0]) + Carried(hops[1..])
  }

  function Whole(t: Stream): Bytes {
    t.got + Carried(t.hops) + t.todo
  }

  lemma CarriedCons(h: Hop, rest: seq<Hop>)
    ensures Carried([h] + rest) == HopBytes(h) + Carried(rest)
  {
    hide HopBytes;
    assert ([h] + rest)[1..] == rest;
  }

  lemma {:induction false} CarriedAppend(a: seq<Hop>, b: seq<Hop>)
    ensures Carried(a + b) == Carried(a) + Carried(b)
  {
    hide Carried, HopBytes;
    if a == [] {
      assert a + b == b;
      NothingCarried();
    } else {
      CarriedAppend(a[1..], b);
      CarriedCons(a[0], a[1..]);
      CarriedCons(a[0], a[1..] + b);
      Unfolded(a, b);
      Join(HopBytes(a[0]), Carried(a[1..]), Carried(b));
    }
  }

  lemma Unfolded(a: seq<Hop>, b: seq<Hop>)
    requires a != []
    ensures a == [a[0]] + a[1..] && a + b == [a[0]] + (a[1..] + b)
  {
  }

  lemma Join(a: Bytes, b: Bytes, c: Bytes)
    ensures a + (b + c) == (a + b) + c
  {
  }

  lemma NothingCarried()
    ensures Carried([]) == ""
  {
  }

  lemma CarriedOne(h: Hop)
    ensures Carried([h]) == HopBytes(h)
  {
    hide HopBytes;
    assert Carried([h][1..]) == "";
  }

  /** A hop among the others. */
  lemma CarriedAround(a: seq<Hop>, h: Hop, b: seq<Hop>)
    ensures Carried(a + [h] + b) == Carried(a) + HopBytes(h) + Carried(b)
  {
    hide Carried, HopBytes;
    CarriedAppend(a + [h], b);
    CarriedAppend(a, [h]);
    CarriedOne(h);
  }

  lemma CarriedAt(hops: seq<Hop>, j: nat)
    requires j < |hops|
    ensures Carried(hops) == Carried(hops[..j]) + HopBytes(hops[j]) + Carried(hops[j + 1..])
  {
    hide Carried, HopBytes;
    SplitOne(hops, j);
    CarriedAround(hops[..j], hops[j], hops[j + 1..]);
  }

  lemma SplitOne(hops: seq<Hop>, j: nat)
    requires j < |hops|
    ensures hops == hops[..j] + [hops[j]] + hops[j + 1..]
  {
  }

  /** Two neighbours among the others. */
  lemma CarriedAroundTwo(a: seq<Hop>, g: Hop, h: Hop, b: seq<Hop>)
    ensures Carried(a + [g] + [h] + b) == Carried(a) + HopBytes(g) + HopBytes(h) + Carried(b)
  {
    hide Carried, HopBytes;
    CarriedAround(a + [g], h, b);
    CarriedAppend(a, [g]);
    CarriedOne(g);
  }

  lemma CarriedTwo(hops: seq<Hop>, j: nat)
    requires j + 1 < |hops|
    ensures Carried(hops) == Carried(hops[..j]) + HopBytes(hops[j]) + HopBytes(hops[j + 1]) + Carried(hops[j + 2..])
  {
    hide Carried, HopBytes;
    SplitTwo(hops, j);
    CarriedAroundTwo(hops[..j], hops[j], hops[j + 1], hops[j + 2..]);
  }

  lemma SplitTwo(hops: seq<Hop>, j: nat)
    requires j + 1 < |hops|
    ensures hops == hops[..j] + [hops[j]] + [hops[j + 1]] + hops[j + 2..]
  {
  }

  lemma EmitKeeps(t: Stream, k: nat)
    requires t.hops != [] && k <= |t.todo|
    ensures Whole(EmitTo(t, k)) == Whole(t)
  {
    var n := |t.hops| - 1;
    var u := EmitTo(t, k);
    assert HopBytes(u.hops[n]) == HopBytes(t.hops[n]) + t.todo[..k];
    assert u.hops[..n] == t.hops[..n] && u.hops[n + 1..] == [] && t.hops[n + 1..] == [];
    hide Carried, HopBytes, EmitTo;
    CarriedAt(t.hops, n);
    CarriedAt(u.hops, n);
    NothingCarried();
    Regroup(t.got, Carried(t.hops[..n]), HopBytes(t.hops[n]), t.todo[..k], t.todo[k..]);
    assert t.todo == t.todo[..k] + t.todo[k..];
  }

  lemma Regroup(a: Bytes, b: Bytes, c: Bytes, d: Bytes, e: Bytes)
    ensures a + (b + c + "") + (d + e) == a + (b + (c + d) + "") + e
  {
  }

  lemma PushKeeps(t: Stream, j: nat, k: nat)
    requires j < |t.hops| && k <= |t.hops[j].wire|
    ensures Whole(PushTo(t, j, k)) == Whole(t)
  {
    var u := PushTo(t, j, k);
    PushedBytes(t.hops[j], k);
    assert u.hops[..j] == t.hops[..j] && u.hops[j + 1..] == t.hops[j + 1..];
    hide Carried, HopBytes;
    CarriedAt(t.hops, j);
    CarriedAt(u.hops, j);
  }

  lemma PushedBytes(h: Hop, k: nat)
    requires k <= |h.wire|
    ensures HopBytes(Hop(h.wire[k..], h.queue + [h.wire[..k]])) == HopBytes(h)
  {
    hide Flatten;
    FlattenSnoc(h.queue, h.wire[..k]);
    assert h.wire == h.wire[..k] + h.wire[k..];
  }

  lemma ReceivedBytes(h: Hop)
    requires h.queue != []
    ensures HopBytes(h) == h.queue[0] + HopBytes(h.(queue := h.queue[1..]))
  {
  }

  lemma WrittenBytes(h: Hop, chunk: Bytes)
    ensures HopBytes(h.(wire := h.wire + chunk)) == HopBytes(h) + chunk
  {
  }

  lemma ReceiveKeeps(t: Stream, j: nat)
    requires j < |t.hops| && t.hops[j].queue != []
    ensures Whole(ReceiveFrom(t, j)) == Whole(t)
  {
    if j == 0 { ReceiveHere(t); } else { ReceiveThere(t, j); }
  }

  lemma ReceiveHere(t: Stream)
    requires 0 < |t.hops| && t.hops[0].queue != []
    ensures Whole(ReceiveFrom(t, 0)) == Whole(t)
  {
    var u := ReceiveFrom(t, 0);
    ReceivedBytes(t.hops[0]);
    assert u.hops[..0] == [] && t.hops[..0] == [] && u.hops[1..] == t.hops[1..];
    hide Carried, HopBytes;
    CarriedAt(t.hops, 0);
    CarriedAt(u.hops, 0);
    NothingCarried();
  }

  lemma ReceiveThere(t: Stream, j: nat)
    requires 0 < j < |t.hops| && t.hops[j].queue != []
    ensures Whole(ReceiveFrom(t, j)) == Whole(t)
  {
    var u := ReceiveFrom(t, j);
    var chunk := t.hops[j].queue[0];
    ReceivedBytes(t.hops[j]);
    WrittenBytes(t.hops[j - 1], chunk);
    assert u.hops[..j - 1] == t.hops[..j - 1] && u.hops[j + 1..] == t.hops[j + 1..];
    var x, y := HopBytes(t.hops[j - 1]), HopBytes(u.hops[j]);
    assert HopBytes(u.hops[j - 1]) == x + chunk && HopBytes(t.hops[j]) == chunk + y;
    assert u.got == t.got && u.todo == t.todo;
    hide Carried, HopBytes, ReceiveFrom;
    CarriedTwo(t.hops, j - 1);
    CarriedTwo(u.hops, j - 1);
    assert Carried(t.hops[..j - 1]) + x + (chunk + y) == Carried(t.hops[..j - 1]) + (x + chunk) + y;
  }

  lemma GiveUpHops(t: Stream, complaint: Bytes)
    requires |t.hops| > 1 && t.hops[|t.hops| - 1].wire == ""
    ensures var n := |t.hops| - 1;
            Carried(GiveUp(t, complaint).hops) == Carried(t.hops[..n - 1]) + (HopBytes(t.hops[n - 1]) + complaint)
  {
    var n := |t.hops| - 1;
    var u := GiveUp(t, complaint);
    assert HopBytes(u.hops[n]) == "" by { assert Flatten([]) == ""; }
    WrittenBytes(t.hops[n - 1], complaint);
    assert u.hops[..n - 1] == t.hops[..n - 1] && u.hops[n + 1..] == [];
    hide Carried, HopBytes;
    CarriedTwo(u.hops, n - 1);
    NothingCarried();
    assert HopBytes(t.hops[n - 1]) + complaint + "" + "" == HopBytes(t.hops[n - 1]) + complaint;
  }

  /** What the last helper had not read was the end of all there was. */
  lemma GiveUpDrops(t: Stream, complaint: Bytes)
    requires |t.hops| > 1 && t.todo == "" && t.hops[|t.hops| - 1].wire == ""
    ensures Whole(t) == Whole(GiveUp(t, "")) + Flatten(t.hops[|t.hops| - 1].queue)
    ensures Whole(GiveUp(t, complaint)) == Whole(GiveUp(t, "")) + complaint
  {
    var n := |t.hops| - 1;
    assert HopBytes(t.hops[n]) == Flatten(t.hops[n].queue);
    assert GiveUp(t, complaint).got == t.got && GiveUp(t, complaint).todo == "" && GiveUp(t, "").got == t.got &&
        GiveUp(t, "").todo == "";
    hide Carried, HopBytes, GiveUp;
    GiveUpHops(t, complaint);
    GiveUpHops(t, "");
    CarriedTwo(t.hops, n - 1);
    assert t.hops[n + 1..] == [];
    NothingCarried();
    var a, b, c := t.got, Carried(t.hops[..n - 1]), HopBytes(t.hops[n - 1]);
    assert a + (b + c + Flatten(t.hops[n].queue) + "") + "" == (a + (b + (c + "")) + "") + Flatten(t.hops[n].queue);
    assert a + (b + (c + complaint)) + "" == (a + (b + (c + "")) + "") + complaint;
  }

  // ---------------------------------------------------------------- Invariants

  /** Nothing of a stream is lost unless the last helper gave up; then its end is, and the complaint follows. */
  ghost predicate Intact(t: Stream, all: Bytes, failed: bool, complaint: Bytes) {
    if !failed then Whole(t) == all
    else exists n: nat :: n <= |all| && Whole(t) == all[..n] + complaint
  }

  predicate Slots(t: Stream) {
    forall j :: 0 <= j < |t.hops| ==> |t.hops[j].queue| <= SLOTS && "" !in t.hops[j].queue
  }

  /** A process ends after the one it listens to, has read everything, and passes that one's status on. */
  predicate ModeOk(s: State, r: Run, j: nat)
    requires Shape(s) && j < |s.modes|
  {
    var last := |s.modes| - 1;
    && (!s.modes[j].Running? ==> Reported(s, r, j).Some? && Quiet(s, j))
    && (s.modes[j].Draining? ==> s.modes[j].status == Reported(s, r, j).value)
    && (s.modes[j].Exited? ==>
        Drained(s, j) && s.modes[j].status == if s.failed && j == last then 1 else PassedOn(j, Reported(s, r, j).value))
  }

  predicate Ends(s: State, r: Run) {
    && Shape(s)
    && (forall j :: 0 <= j < |s.modes| ==> ModeOk(s, r, j))
    && (s.ended ==> s.out.todo == "" && s.err.todo == "")
  }

  /** The command has got the beginning of its input, and the rest is with the feeder. */
  predicate FeedOk(f: Feed, open: bool, input: Bytes) {
    && D.LinkHeld(f.feeder, f.unread) && f.feeder.left.Some?
    && (f.feeder.hand.Some? ==> (f.feeder.hand.value == "" <==> f.feeder.ending))
    && (f.feeder.ending ==> f.unread == "")
    && f.taken + D.Outflow(D.Feeding(f.feeder), f.unread) == input
    && (open ==> D.LinkOk(f.feeder, f.told, f.unread, false))
  }

  /** The last helper is over in one of two ways. A command that reads has been told before it ends. */
  predicate Told(s: State, r: Run)
    requires Shape(s)
  {
    var last := |s.modes| - 1;
    && (s.failed ==> s.modes[last].Exited? && !Handed(s.feed))
    && (s.modes[last].Exited? && !s.failed ==> Handed(s.feed))
    && (s.ended && r.waits ==> s.feed.told && Handed(s.feed))
  }

  ghost predicate Inv(s: State, r: Run) {
    && Ends(s, r) && Slots(s.out) && Slots(s.err)
    && Intact(s.out, r.out, s.failed, "") && Intact(s.err, r.err, s.failed, COMPLAINT)
    && FeedOk(s.feed, Open(s), r.input) && Told(s, r)
  }

  lemma {:induction false} CarriedEmpty(hops: seq<Hop>)
    requires forall j :: 0 <= j < |hops| ==> hops[j] == Hop("", [])
    ensures Carried(hops) == ""
  {
    if hops != [] { CarriedEmpty(hops[1..]); }
  }

  lemma InitInv(r: Run)
    requires r.helpers > 0
    ensures Inv(Init(r), r)
  {
    CarriedEmpty(EmptyHops(r.helpers + 1));
    hide Carried;
    assert "" + "" + r.out == r.out && "" + "" + r.err == r.err;
    assert D.InFlight(D.Feeder(Some(|r.input|), None, false, [])) == [];
    assert "" + ("" + r.input) == r.input;
  }

  /** A step that moves bytes along one stream. */
  lemma MoveEnds(s: State, r: Run, a: Action)
    requires Inv(s, r) && Enabled(s, r, a) && (a.Emit? || a.Push? || a.Receive?)
    ensures Ends(Apply(s, r, a), r)
  {
    hide Intact, Slots, FeedOk, Told, Apply, Ends, ModeOk;
    match a {
      case Emit(err, k) => EmitEnds(s, r, err, k);
      case Push(j, err, k) => PushEnds(s, r, j, err, k);
      case Receive(j, err) => ReceiveEnds(s, r, j, err);
    }
  }

  lemma EmitEnds(s: State, r: Run, err: bool, k: nat)
    requires Ends(s, r) && Enabled(s, r, Emit(err, k))
    ensures Ends(Apply(s, r, Emit(err, k)), r)
  {
    var t := Apply(s, r, Emit(err, k));
    forall j | 0 <= j < |t.modes| ensures ModeOk(t, r, j) {
      assert ModeOk(s, r, j) && Reported(t, r, j) == Reported(s, r, j);
    }
  }

  lemma PushEnds(s: State, r: Run, i: nat, err: bool, k: nat)
    requires Ends(s, r) && Enabled(s, r, Push(i, err, k))
    ensures Ends(Apply(s, r, Push(i, err, k)), r)
  {
    var t := Apply(s, r, Push(i, err, k));
    forall j | 0 <= j < |t.modes| ensures ModeOk(t, r, j) {
      assert ModeOk(s, r, j) && Reported(t, r, j) == Reported(s, r, j);
    }
  }

  lemma ReceiveEnds(s: State, r: Run, i: nat, err: bool)
    requires Ends(s, r) && Enabled(s, r, Receive(i, err))
    ensures Ends(Apply(s, r, Receive(i, err)), r)
  {
    var t := Apply(s, r, Receive(i, err));
    if i > 0 { assert ModeOk(s, r, i - 1); }
    forall j | 0 <= j < |t.modes| ensures ModeOk(t, r, j) {
      assert ModeOk(s, r, j) && Reported(t, r, j) == Reported(s, r, j);
    }
  }

  lemma MoveWhole(s: State, r: Run, a: Action)
    requires Enabled(s, r, a) && (a.Emit? || a.Push? || a.Receive?)
    ensures var t := Apply(s, r, a);
            Whole(t.out) == Whole(s.out) && Whole(t.err) == Whole(s.err) && t.failed == s.failed
  {
    hide Whole, EmitTo, PushTo, ReceiveFrom;
    match a {
      case Emit(err, k) => EmitKeeps(Side(s, err), k);
      case Push(j, err, k) => PushKeeps(Side(s, err), j, k);
      case Receive(j, err) => ReceiveKeeps(Side(s, err), j);
    }
  }

  lemma MoveSlots(s: State, r: Run, a: Action)
    requires Enabled(s, r, a) && (a.Emit? || a.Push? || a.Receive?) && Slots(s.out) && Slots(s.err)
    ensures var t := Apply(s, r, a); Slots(t.out) && Slots(t.err)
  {
    hide Slots;
    match a {
      case Emit(err, k) => EmitSlots(Side(s, err), k);
      case Push(j, err, k) => PushSlots(Side(s, err), j, k);
      case Receive(j, err) => ReceiveSlots(Side(s, err), j);
    }
  }

  lemma EmitSlots(t: Stream, k: nat)
    requires t.hops != [] && k <= |t.todo| && Slots(t)
    ensures Slots(EmitTo(t, k))
  {
  }

  lemma PushSlots(t: Stream, j: nat, k: nat)
    requires j < |t.hops| && 1 <= k <= |t.hops[j].wire| && |t.hops[j].queue| < SLOTS && Slots(t)
    ensures Slots(PushTo(t, j, k))
  {
  }

  lemma ReceiveSlots(t: Stream, j: nat)
    requires j < |t.hops| && t.hops[j].queue != [] && Slots(t)
    ensures Slots(ReceiveFrom(t, j))
  {
    assert forall c :: c in t.hops[j].queue[1..] ==> c in t.hops[j].queue;
  }

  lemma MoveInv(s: State, r: Run, a: Action)
    requires Inv(s, r) && Enabled(s, r, a) && (a.Emit? || a.Push? || a.Receive?)
    ensures Inv(Apply(s, r, a), r)
  {
    MoveFeed(s, r, a);
    hide Whole, Slots, Apply, FeedOk, Handed;
    MoveEnds(s, r, a);
    MoveWhole(s, r, a);
    MoveSlots(s, r, a);
    hide Enabled, ModeOk;
  }

  lemma MoveFeed(s: State, r: Run, a: Action)
    requires Enabled(s, r, a) && (a.Emit? || a.Push? || a.Receive?)
    ensures Apply(s, r, a).feed == s.feed && Apply(s, r, a).modes == s.modes && Apply(s, r, a).ended == s.ended
    ensures Apply(s, r, a).failed == s.failed
  {
    hide EmitTo, PushTo, ReceiveFrom;
  }

  lemma EndEnds(s: State, r: Run, a: Action)
    requires Inv(s, r) && Enabled(s, r, a) && (a.End? || a.Complete? || a.Exit?)
    ensures Ends(Apply(s, r, a), r)
  {
    hide Carried, Intact, Slots, Whole, FeedOk, Told, Apply, Ends, ModeOk;
    match a {
      case End => CommandEnds(s, r);
      case Complete(j) => CompleteEnds(s, r, j);
      case Exit(j) => FailedIsOver(s, r); ExitEnds(s, r, j);
    }
  }

  lemma FailedIsOver(s: State, r: Run)
    requires Inv(s, r)
    ensures Shape(s) && (s.failed ==> s.modes[|s.modes| - 1].Exited?)
  {
    hide Intact, Slots, FeedOk, ModeOk;
  }

  lemma CommandEnds(s: State, r: Run)
    requires Ends(s, r) && Enabled(s, r, End)
    ensures Ends(Apply(s, r, End), r)
  {
    var t := Apply(s, r, End);
    forall j | 0 <= j < |t.modes| ensures ModeOk(t, r, j) {
      assert ModeOk(s, r, j);
    }
  }

  lemma CompleteEnds(s: State, r: Run, k: nat)
    requires Ends(s, r) && Enabled(s, r, Complete(k))
    ensures Ends(Apply(s, r, Complete(k)), r)
  {
    var t := Apply(s, r, Complete(k));
    forall j | 0 <= j < |t.modes| ensures ModeOk(t, r, j) {
      assert ModeOk(s, r, j);
      if j + 1 < |t.modes| { assert ModeOk(s, r, j + 1); }
    }
  }

  lemma ExitEnds(s: State, r: Run, k: nat)
    requires Ends(s, r) && Enabled(s, r, Exit(k)) && (s.failed ==> s.modes[|s.modes| - 1].Exited?)
    ensures Ends(Apply(s, r, Exit(k)), r)
  {
    var t := Apply(s, r, Exit(k));
    forall j | 0 <= j < |t.modes| ensures ModeOk(t, r, j) {
      assert ModeOk(s, r, j);
      if j + 1 < |t.modes| { assert ModeOk(s, r, j + 1); }
    }
  }

  /** Where the feeder stands when the end has been told, or the helper is about to drain, it has handed over all. */
  lemma ToldIsHanded(f: Feed, open: bool, input: Bytes)
    requires FeedOk(f, open, input) && ((open && f.told) || Ready(f))
    ensures Handed(f)
  {
    assert f.feeder.ending;
    assert f.feeder.hand.Some? ==> D.InFlight(f.feeder)[|D.InFlight(f.feeder)| - 1] == f.feeder.hand.value;
  }

  lemma EndTold(s: State, r: Run, a: Action)
    requires Inv(s, r) && Enabled(s, r, a) && (a.End? || a.Complete? || a.Exit?)
    ensures Shape(Apply(s, r, a)) && FeedOk(s.feed, Open(Apply(s, r, a)), r.input) && Told(Apply(s, r, a), r)
  {
    var last := |s.modes| - 1;
    assert ModeOk(s, r, last);
    if (s.feed.told && Open(s)) || Ready(s.feed) { ToldIsHanded(s.feed, Open(s), r.input); }
    hide Carried, Intact, Slots, Whole, D.LinkHeld, D.LinkOk, D.Outflow, Handed;
  }

  lemma EndInv(s: State, r: Run, a: Action)
    requires Inv(s, r) && Enabled(s, r, a) && (a.End? || a.Complete? || a.Exit?)
    ensures Inv(Apply(s, r, a), r)
  {
    EndEnds(s, r, a);
    EndTold(s, r, a);
    hide Carried, Intact, Slots, Whole, FeedOk, Told, ModeOk, Ends;
  }

  // ---------------------------------------------------------------- The feeder

  lemma TakeOk(f: Feed, open: bool, input: Bytes, k: nat)
    requires FeedOk(f, open, input) && f.feeder.hand == None && !f.feeder.ending && 1 <= k <= |f.unread|
    ensures FeedOk(FeedBy(f, Take(k)), open, input)
    ensures !Handed(f) && !Handed(FeedBy(f, Take(k)))
  {
    var g := f.feeder;
    var h := FeedBy(f, Take(k)).feeder;
    assert D.InFlight(h) == D.InFlight(g) + [f.unread[..k]];
    FlattenSnoc(D.InFlight(g), f.unread[..k]);
    var a, b, c := Flatten(D.InFlight(g)), f.unread[..k], f.unread[k..];
    assert b + c == f.unread && (a + b) + c == a + (b + c);
    if open {
      assert f.unread + "" == f.unread && f.unread[k..] + "" == f.unread[k..];
      D.TakeLink(g, f.told, f.unread, "", k, false, false);
    }
  }

  lemma FinishOk(f: Feed, open: bool, input: Bytes)
    requires FeedOk(f, open, input) && f.feeder.hand == None && !f.feeder.ending && f.feeder.left == Some(0)
    ensures FeedOk(FeedBy(f, Finish), open, input)
    ensures Handed(f) && Handed(FeedBy(f, Finish))
  {
    var g := f.feeder;
    var h := FeedBy(f, Finish).feeder;
    FlattenSnoc(D.InFlight(g), "");
    assert D.InFlight(h) == D.InFlight(g) + [""] && Flatten(D.InFlight(h)) == Flatten(D.InFlight(g));
  }

  lemma HandOk(f: Feed, input: Bytes)
    requires FeedOk(f, true, input) && f.feeder.hand.Some? && |f.feeder.queue| < SLOTS
    ensures FeedOk(FeedBy(f, Hand), true, input)
  {
    assert D.InFlight(FeedBy(f, Hand).feeder) == D.InFlight(f.feeder);
  }

  lemma PassOk(f: Feed, input: Bytes)
    requires FeedOk(f, true, input) && f.feeder.queue != []
    ensures FeedOk(FeedBy(f, Pass), true, input) && !f.told
  {
    var g := f.feeder;
    var h := FeedBy(f, Pass).feeder;
    D.DeliverLink(g, f.told, f.unread, false);
    assert D.InFlight(g)[0] == g.queue[0] && D.InFlight(h) == D.InFlight(g)[1..];
    var a, rest := Flatten(D.InFlight(h)), D.Limit(g.left, f.unread);
    assert f.taken + ((g.queue[0] + a) + rest) == (f.taken + g.queue[0]) + (a + rest);
  }

  lemma SkipOk(f: Feed, input: Bytes)
    requires FeedOk(f, false, input) && f.feeder.hand == Some("")
    ensures FeedOk(FeedBy(f, Skip), false, input)
    ensures Handed(f) && Handed(FeedBy(f, Skip))
  {
    var g := f.feeder;
    assert D.InFlight(g) == D.InFlight(FeedBy(f, Skip).feeder) + [""];
    FlattenSnoc(D.InFlight(FeedBy(f, Skip).feeder), "");
  }

  /** What the feeder does keeps the input together; once the connection has ended it does not hand over more. */
  lemma FeedStep(s: State, r: Run, a: Action)
    requires Shape(s) && Enabled(s, r, a) && Feeds(a) && FeedOk(s.feed, Open(s), r.input)
    ensures FeedOk(FeedBy(s.feed, a), Open(s), r.input)
    ensures !Open(s) ==> (Handed(FeedBy(s.feed, a)) <==> Handed(s.feed))
    ensures s.feed.told && Open(s) ==> !a.Take? && !a.Finish? && !a.Pass? && !a.Hand?
  {
    if Open(s) && s.feed.told { ToldIsHanded(s.feed, true, r.input); ToldIsQuiet(s.feed, r.input); }
    hide FeedBy, Handed;
    match a {
      case Take(k) => TakeOk(s.feed, Open(s), r.input, k);
      case Finish => FinishOk(s.feed, Open(s), r.input);
      case Hand => HandOk(s.feed, r.input);
      case Pass => PassOk(s.feed, r.input);
      case Skip => SkipOk(s.feed, r.input);
    }
  }

  lemma ToldIsQuiet(f: Feed, input: Bytes)
    requires FeedOk(f, true, input) && f.told
    ensures f.feeder.ending && f.feeder.hand == None && f.feeder.queue == []
  {
    assert D.InFlight(f.feeder) == [];
  }

  lemma FeedInv(s: State, r: Run, a: Action)
    requires Inv(s, r) && Enabled(s, r, a) && Feeds(a)
    ensures Inv(Apply(s, r, a), r)
  {
    var t := Apply(s, r, a);
    FeedStep(s, r, a);
    assert t == s.(feed := FeedBy(s.feed, a));
    FeedTold(s, r, a);
    FeedEnds(s, t, r);
    hide Carried, Intact, Slots, Whole, FeedOk, Told, ModeOk, Ends, FeedBy, Handed;
  }

  lemma FeedEnds(s: State, t: State, r: Run)
    requires Ends(s, r) && t == s.(feed := t.feed)
    ensures Ends(t, r)
  {
    forall j | 0 <= j < |t.modes| ensures ModeOk(t, r, j) {
      assert ModeOk(s, r, j);
    }
  }

  lemma FeedTold(s: State, r: Run, a: Action)
    requires Inv(s, r) && Enabled(s, r, a) && Feeds(a)
    ensures Shape(Apply(s, r, a)) && Told(Apply(s, r, a), r)
  {
    FeedStep(s, r, a);
    ToldStays(s.feed, a);
    hide Carried, Intact, Slots, Whole, FeedOk, ModeOk, Handed, FeedBy;
  }

  lemma ToldStays(f: Feed, a: Action)
    requires a.Take? ==> a.k <= |f.unread| && f.feeder.left.Some? && a.k <= f.feeder.left.value
    requires a.Hand? ==> f.feeder.hand.Some?
    requires a.Pass? ==> f.feeder.queue != []
    ensures f.told ==> FeedBy(f, a).told
    ensures a.Skip? && f.feeder.hand == Some("") ==> (Handed(FeedBy(f, a)) <==> Handed(f))
  {
  }

  lemma FailInv(s: State, r: Run)
    requires Inv(s, r) && Enabled(s, r, FeedFails)
    ensures Inv(Apply(s, r, FeedFails), r)
  {
    var last := |s.modes| - 1;
    assert ModeOk(s, r, last) && !s.failed;
    FailEnds(s, r);
    FailSlots(s.out, "");
    FailSlots(s.err, COMPLAINT);
    FailStream(s.out, r.out, "");
    FailStream(s.err, r.err, COMPLAINT);
    hide Carried, Whole, Slots, GiveUp, Ends, FeedOk, COMPLAINT;
  }

  lemma FailEnds(s: State, r: Run)
    requires Inv(s, r) && Enabled(s, r, FeedFails)
    ensures Ends(Apply(s, r, FeedFails), r)
  {
    var t := Apply(s, r, FeedFails);
    var last := |s.modes| - 1;
    hide Carried, Intact, Slots, Whole, COMPLAINT, FeedOk;
    assert ModeOk(s, r, last) && ModeOk(s, r, last - 1);
    forall j | 0 <= j < |t.modes| ensures ModeOk(t, r, j) {
      assert ModeOk(s, r, j);
    }
  }

  lemma FailSlots(t: Stream, complaint: Bytes)
    requires |t.hops| > 1 && Slots(t)
    ensures Slots(GiveUp(t, complaint))
  {
  }

  lemma FailStream(t: Stream, all: Bytes, complaint: Bytes)
    requires |t.hops| > 1 && t.todo == "" && t.hops[|t.hops| - 1].wire == "" && Intact(t, all, false, "")
    ensures Intact(GiveUp(t, complaint), all, true, complaint)
  {
    GiveUpDrops(t, complaint);
    hide Whole, GiveUp, Flatten;
    var n := |Whole(GiveUp(t, ""))|;
    assert all[..n] == Whole(GiveUp(t, ""));
  }

  /** Every step of every schedule keeps them. */
  lemma StepInv(s: State, r: Run, a: Action)
    requires Inv(s, r) && Enabled(s, r, a)
    ensures Inv(Apply(s, r, a), r)
  {
    hide Inv, Apply, Enabled;
    match a {
      case Emit(_, _) => MoveInv(s, r, a);
      case Push(_, _, _) => MoveInv(s, r, a);
      case Receive(_, _) => MoveInv(s, r, a);
      case End => EndInv(s, r, a);
      case Complete(_) => EndInv(s, r, a);
      case Exit(_) => EndInv(s, r, a);
      case FeedFails => FailInv(s, r);
      case _ => FeedInv(s, r, a);
    }
  }

  lemma {:induction false} RunInv(s: State, r: Run, actions: seq<Action>)
    requires Inv(s, r) && Runs(s, r, actions)
    ensures Inv(Final(s, r, actions), r)
    decreases |actions|
  {
    hide Inv, Enabled, Apply;
    if actions != [] {
      StepInv(s, r, actions[0]);
      RunInv(Apply(s, r, actions[0]), r, actions[1..]);
    }
  }

  // ---------------------------------------------------------------- What the client is told

  /** The client has its answer. */
  predicate Done(s: State) {
    s.modes != [] && s.modes[0].Exited?
  }

  function AtMost255(status: nat): nat {
    if status > 255 then 255 else status
  }

  lemma {:induction false} AllOver(s: State, r: Run, j: nat)
    requires Inv(s, r) && s.modes[0].Exited? && j < |s.modes|
    ensures s.modes[j].Exited? && Quiet(s, j) && Drained(s, j) && (j == |s.modes| - 1 ==> s.ended)
  {
    hide Intact, Slots, Whole;
    if j > 0 {
      AllOver(s, r, j - 1);
      assert ModeOk(s, r, j - 1);
    }
    assert ModeOk(s, r, j);
  }

  lemma {:induction false} StatusAt(s: State, r: Run, j: nat)
    requires Inv(s, r) && s.modes[0].Exited? && 0 < j < |s.modes|
    ensures s.modes[j].Exited? && s.modes[j].status == if s.failed then 1 else AtMost255(r.status)
    decreases |s.modes| - j
  {
    AllOver(s, r, j);
    hide Intact, Slots, Whole;
    assert ModeOk(s, r, j);
    if j < |s.modes| - 1 { StatusAt(s, r, j + 1); }
  }

  /** When the client is done, nothing is left anywhere, and it has been told the command's status or the helper's. */
  lemma Over(s: State, r: Run)
    requires Inv(s, r) && s.modes[0].Exited?
    ensures s.out.got == Whole(s.out) && s.err.got == Whole(s.err)
    ensures s.modes[0].status == if s.failed then 1 else AtMost255(r.status)
  {
    forall j | 0 <= j < |s.modes| ensures s.out.hops[j] == Hop("", []) && s.err.hops[j] == Hop("", []) {
      AllOver(s, r, j);
      hide Intact, Slots, Whole, Ends;
    }
    AllOver(s, r, |s.modes| - 1);
    StatusAt(s, r, 1);
    assert ModeOk(s, r, 0);
    CarriedEmpty(s.out.hops);
    CarriedEmpty(s.err.hops);
    hide Carried, Slots, Intact;
  }

  /** The feeder had handed over its last chunk when the command's connection ended, if it did. */
  predicate InTime(s: State, r: Run, actions: seq<Action>)
    requires Runs(s, r, actions)
    decreases |actions|
  {
    if actions == [] then true
    else if actions[0] == Complete(|s.modes| - 1) then Handed(s.feed)
    else InTime(Apply(s, r, actions[0]), r, actions[1..])
  }

  /** From then on nothing changes that. */
  lemma StepHanded(s: State, r: Run, a: Action)
    requires Inv(s, r) && Enabled(s, r, a)
    ensures var t := Apply(s, r, a);
            && Shape(t) && |t.modes| == |s.modes|
            && (!Open(s) ==> !Open(t) && (Handed(t.feed) <==> Handed(s.feed)))
            && (Open(s) && !Open(t) ==> a == Complete(|s.modes| - 1) && t.feed == s.feed)
            && (a == Complete(|s.modes| - 1) ==> Open(s) && !Open(t) && t.feed == s.feed)
  {
    if Feeds(a) {
      FeedStep(s, r, a);
      hide Handed, FeedOk, FeedBy, Ends, Told, Slots, Intact;
    } else {
      hide Handed, FeedOk, FeedBy, Ends, Told, Slots, Intact, EmitTo, PushTo, ReceiveFrom, GiveUp, COMPLAINT;
    }
  }

  lemma {:induction false} RunHanded(s: State, r: Run, actions: seq<Action>)
    requires Inv(s, r) && Runs(s, r, actions)
    ensures var t := Final(s, r, actions);
            && Shape(t) && (!Open(s) ==> !Open(t) && (Handed(t.feed) <==> Handed(s.feed)))
            && (Open(s) && !Open(t) ==> (InTime(s, r, actions) <==> Handed(t.feed)))
            && (Open(s) && Open(t) ==> InTime(s, r, actions))
    decreases |actions|
  {
    if actions != [] {
      var a := actions[0];
      StepHanded(s, r, a);
      StepInv(s, r, a);
      hide Inv, Enabled, Apply, Handed;
      RunHanded(Apply(s, r, a), r, actions[1..]);
    } else {
      hide Ends, Slots, Intact, FeedOk, Told, Handed;
    }
  }

  /** The client has every byte of both streams in order, and the command's status, at most 255. */
  predicate Answered(s: State, r: Run) {
    Done(s) && s.out.got == r.out && s.err.got == r.err && s.modes[0].status == AtMost255(r.status)
  }

  /** The client has the beginning of the output, the beginning of the errors and the complaint, and status 1. */
  ghost predicate CutShort(s: State, r: Run) {
    && Done(s) && s.modes[0].status == 1 && s.out.got <= r.out
    && exists n: nat :: n <= |r.err| && s.err.got == r.err[..n] + COMPLAINT
  }

  /**
   The return law. Whatever the schedule, a client that is done has been answered in full if the feeder handed
   over its last chunk before the command's connection ended, and has been cut short if it did not.
   */
  lemma Returned(r: Run, actions: seq<Action>)
    requires r.helpers > 0 && Runs(Init(r), r, actions) && Done(Final(Init(r), r, actions))
    ensures var s := Final(Init(r), r, actions);
            if InTime(Init(r), r, actions) then Answered(s, r) else CutShort(s, r)
  {
    InitInv(r);
    RunInv(Init(r), r, actions);
    RunHanded(Init(r), r, actions);
    assert Open(Init(r));
    var s := Final(Init(r), r, actions);
    hide Runs, Final, Init, Whole, InTime, Handed, COMPLAINT, FeedOk;
    AllOver(s, r, |s.modes| - 1);
    Over(s, r);
    if s.failed {
      assert Intact(s.out, r.out, true, "") && Intact(s.err, r.err, true, COMPLAINT);
      var n: nat :| n <= |r.out| && Whole(s.out) == r.out[..n] + "";
      assert s.out.got == r.out[..n];
    }
  }

  /** Before that, what the client has is the beginning of it, and the command has the beginning of its input. */
  lemma SoFar(r: Run, actions: seq<Action>)
    requires r.helpers > 0 && Runs(Init(r), r, actions)
    ensures var s := Final(Init(r), r, actions);
            && (!s.failed ==> s.out.got <= r.out && s.err.got <= r.err)
            && Slots(s.out) && Slots(s.err) && s.feed.taken <= r.input
  {
    InitInv(r);
    RunInv(Init(r), r, actions);
    var s := Final(Init(r), r, actions);
    hide Runs, Final, Init, Whole, Slots, Ends, D.LinkOk, D.LinkHeld, D.Outflow, Told;
    GotFirst(s.out);
    GotFirst(s.err);
  }

  lemma GotFirst(t: Stream)
    ensures t.got <= Whole(t)
  {
    hide Carried;
  }

  // ---------------------------------------------------------------- Progress

  /** The outermost process still going, every one behind it being over. */
  lemma {:induction false} StillGoing(s: State, r: Run, k: nat) returns (j: nat)
    requires Shape(s) && !s.modes[0].Exited? && k < |s.modes|
    requires forall i :: k < i < |s.modes| ==> s.modes[i].Exited?
    ensures j < |s.modes| && !s.modes[j].Exited? && forall i :: j < i < |s.modes| ==> s.modes[i].Exited?
    decreases k
  {
    if s.modes[k].Exited? { j := StillGoing(s, r, k - 1); } else { j := k; }
  }

  /** A feeder that is not ready can go on: the channel takes a chunk, or refuses it. */
  lemma FeederProgress(s: State, r: Run) returns (a: Action)
    requires Shape(s) && FeedOk(s.feed, Open(s), r.input) && !s.modes[|s.modes| - 1].Exited?
    requires !Ready(s.feed) || (Open(s) && !s.feed.told)
    ensures Enabled(s, r, a)
  {
    var f := s.feed.feeder;
    assert f.hand == None && f.queue == [] ==> D.InFlight(f) == [];
    if f.hand == None && !f.ending {
      a := if f.left == Some(0) then Finish else Take(1);
    } else if f.hand.Some? && !Open(s) {
      a := if f.hand.value == "" then Skip else FeedFails;
    } else if f.queue != [] {
      a := Pass;
    } else {
      a := Hand;
    }
  }

  /** As long as the client is not done, some step can be taken. */
  lemma Progress(s: State, r: Run) returns (a: Action)
    requires Inv(s, r) && !s.modes[0].Exited?
    ensures Enabled(s, r, a)
  {
    hide Intact, Whole, Carried, FeedOk;
    var last := |s.modes| - 1;
    var j := StillGoing(s, r, last);
    assert ModeOk(s, r, j);
    if j == last && !s.ended {
      if s.out.todo != "" { a := Emit(false, 1); }
      else if s.err.todo != "" { a := Emit(true, 1); }
      else if r.waits && !s.feed.told { a := FeederProgress(s, r); }
      else { a := End; }
    } else if s.modes[j].Draining? && j == last && !Ready(s.feed) {
      a := FeederProgress(s, r);
    } else {
      a := ProcessProgress(s, r, j);
    }
  }

  lemma ProcessProgress(s: State, r: Run, j: nat) returns (a: Action)
    requires Shape(s) && j < |s.modes| && !s.modes[j].Exited? && Reported(s, r, j).Some?
    requires s.modes[j].Draining? && j == |s.modes| - 1 ==> Ready(s.feed)
    ensures Enabled(s, r, a)
  {
    hide Ready;
    if s.modes[j].Draining? {
      a := if s.out.hops[j].queue != [] then Receive(j, false) else if s.err.hops[j].queue != [] then Receive(j, true)
          else Exit(j);
    } else if s.out.hops[j].wire != "" {
      a := if |s.out.hops[j].queue| < SLOTS then Push(j, false, 1) else Receive(j, false);
    } else if s.err.hops[j].wire != "" {
      a := if |s.err.hops[j].queue| < SLOTS then Push(j, true, 1) else Receive(j, true);
    } else {
      a := Complete(j);
    }
  }

  // ---------------------------------------------------------------- Every schedule ends

  /** Each byte has two steps to take for every connection it still has to cross, and one to be written. */
  function HopWork(h: Hop, j: nat): nat {
    (2 * j + 2) * |h.wire| + (2 * j + 1) * |Flatten(h.queue)|
  }

  function HopsWork(hops: seq<Hop>): nat {
    if hops == [] then 0 else HopsWork(hops[..|hops| - 1]) + HopWork(hops[|hops| - 1], |hops| - 1)
  }

  function StreamWork(t: Stream): nat {
    HopsWork(t.hops) + (2 * |t.hops| + 1) * |t.todo|
  }

  function ModeWork(m: Mode): nat {
    match m case Running => 2 case Draining(_) => 1 case Exited(_) => 0
  }

  function ModesWork(modes: seq<Mode>): nat {
    if modes == [] then 0 else ModesWork(modes[..|modes| - 1]) + ModeWork(modes[|modes| - 1])
  }

  /** The complaint is written at most once, by the last helper. */
  function Spare(s: State): nat
    requires Shape(s)
  {
    if s.modes[|s.modes| - 1].Exited? then 0 else (2 * |s.modes|) * |COMPLAINT|
  }

  /** Chunks the feeder has still to read, to send and to have taken. */
  function FeedWork(f: Feed): nat {
    3 * |f.unread| + (if f.feeder.ending then 0 else 3) + (if f.feeder.hand.Some? then 2 else 0) + |f.feeder.queue|
  }

  function Work(s: State): nat
    requires Shape(s)
  {
    StreamWork(s.out) + StreamWork(s.err) + ModesWork(s.modes) + (if s.ended then 0 else 1) + Spare(s) +
        FeedWork(s.feed)
  }

  lemma {:induction false} HopsWorkSet(hops: seq<Hop>, j: nat, h: Hop)
    requires j < |hops|
    ensures HopsWork(hops[j := h]) + HopWork(hops[j], j) == HopsWork(hops) + HopWork(h, j)
  {
    hide HopWork;
    var n := |hops| - 1;
    if j == n {
      assert hops[j := h][..n] == hops[..n];
    } else {
      HopsWorkSet(hops[..n], j, h);
      assert hops[j := h][..n] == hops[..n][j := h];
    }
  }

  lemma {:induction false} ModesWorkSet(modes: seq<Mode>, j: nat, m: Mode)
    requires j < |modes|
    ensures ModesWork(modes[j := m]) + ModeWork(modes[j]) == ModesWork(modes) + ModeWork(m)
  {
    hide ModeWork;
    var n := |modes| - 1;
    if j == n {
      assert modes[j := m][..n] == modes[..n];
    } else {
      ModesWorkSet(modes[..n], j, m);
      assert modes[j := m][..n] == modes[..n][j := m];
    }
  }

  /** `k` bytes more on the wire. */
  lemma WireWork(h: Hop, j: nat, more: Bytes)
    ensures HopWork(h.(wire := h.wire + more), j) == HopWork(h, j) + (2 * j + 2) * |more|
  {
    var a, x, k := 2 * j + 2, |h.wire|, |more|;
    assert a * (x + k) == a * x + a * k;
  }

  lemma FlattenSize(queue: seq<Bytes>, chunk: Bytes)
    ensures |Flatten(queue + [chunk])| == |Flatten(queue)| + |chunk|
  {
    FlattenSnoc(queue, chunk);
  }

  lemma PushHopWork(h: Hop, j: nat, k: nat)
    requires k <= |h.wire|
    ensures HopWork(Hop(h.wire[k..], h.queue + [h.wire[..k]]), j) == HopWork(h, j) - k
  {
    FlattenSize(h.queue, h.wire[..k]);
    hide Flatten;
    var a, x, q := 2 * j + 1, |h.wire|, |Flatten(h.queue)|;
    assert (a + 1) * (x - k) == (a + 1) * x - a * k - k;
    assert a * (q + k) == a * q + a * k;
  }

  lemma ReadHopWork(h: Hop, j: nat)
    requires h.queue != []
    ensures HopWork(h.(queue := h.queue[1..]), j) + (2 * j + 1) * |h.queue[0]| == HopWork(h, j)
  {
    var a, c, q := 2 * j + 1, |h.queue[0]|, |Flatten(h.queue[1..])|;
    assert |Flatten(h.queue)| == c + q;
    assert a * (c + q) == a * c + a * q;
    hide Flatten;
  }

  lemma EmitWork(t: Stream, k: nat)
    requires t.hops != [] && 1 <= k <= |t.todo|
    ensures StreamWork(EmitTo(t, k)) == StreamWork(t) - k
  {
    var n := |t.hops| - 1;
    var h := t.hops[n].(wire := t.hops[n].wire + t.todo[..k]);
    HopsWorkSet(t.hops, n, h);
    WireWork(t.hops[n], n, t.todo[..k]);
    hide HopsWork, HopWork;
    var a, x := 2 * |t.hops|, |t.todo|;
    assert (a + 1) * (x - k) == (a + 1) * x - a * k - k;
  }

  lemma PushWork(t: Stream, j: nat, k: nat)
    requires j < |t.hops| && 1 <= k <= |t.hops[j].wire|
    ensures StreamWork(PushTo(t, j, k)) == StreamWork(t) - k
  {
    HopsWorkSet(t.hops, j, Hop(t.hops[j].wire[k..], t.hops[j].queue + [t.hops[j].wire[..k]]));
    PushHopWork(t.hops[j], j, k);
    hide HopsWork, HopWork;
  }

  lemma ReceiveWork(t: Stream, j: nat)
    requires j < |t.hops| && t.hops[j].queue != [] && t.hops[j].queue[0] != ""
    ensures StreamWork(ReceiveFrom(t, j)) < StreamWork(t)
  {
    var h := t.hops[j].(queue := t.hops[j].queue[1..]);
    var u := ReceiveFrom(t, j);
    var chunk := t.hops[j].queue[0];
    assert |u.hops| == |t.hops| && u.todo == t.todo;
    assert u.hops == if j == 0 then t.hops[j := h]
                     else t.hops[j := h][j - 1 := t.hops[j := h][j - 1].(wire := t.hops[j := h][j - 1].wire + chunk)];
    ReadWork(t.hops, j);
    if j > 0 { PassedWork(t.hops[j := h], j - 1, chunk); }
    hide HopsWork, ReceiveFrom;
  }

  lemma ReadWork(hops: seq<Hop>, j: nat)
    requires j < |hops| && hops[j].queue != []
    ensures HopsWork(hops[j := hops[j].(queue := hops[j].queue[1..])]) + (2 * j) * |hops[j].queue[0]| +
        |hops[j].queue[0]| == HopsWork(hops)
  {
    HopsWorkSet(hops, j, hops[j].(queue := hops[j].queue[1..]));
    ReadHopWork(hops[j], j);
    hide HopsWork, HopWork;
    var c := |hops[j].queue[0]|;
    assert (2 * j + 1) * c == (2 * j) * c + c;
  }

  lemma PassedWork(hops: seq<Hop>, j: nat, chunk: Bytes)
    requires j < |hops|
    ensures HopsWork(hops[j := hops[j].(wire := hops[j].wire + chunk)]) == HopsWork(hops) + (2 * (j + 1)) * |chunk|
  {
    HopsWorkSet(hops, j, hops[j].(wire := hops[j].wire + chunk));
    WireWork(hops[j], j, chunk);
    hide HopsWork, HopWork;
    assert 2 * j + 2 == 2 * (j + 1);
  }

  lemma GiveUpWork(t: Stream, complaint: Bytes)
    requires |t.hops| > 1
    ensures StreamWork(GiveUp(t, complaint)) <= StreamWork(t) + (2 * |t.hops|) * |complaint|
  {
    var n := |t.hops| - 1;
    var h := t.hops[n].(queue := []);
    HopsWorkSet(t.hops, n, h);
    assert HopWork(h, n) <= HopWork(t.hops[n], n) by { assert Flatten([]) == ""; }
    var rest := t.hops[n := h];
    HopsWorkSet(rest, n - 1, rest[n - 1].(wire := rest[n - 1].wire + complaint));
    WireWork(rest[n - 1], n - 1, complaint);
    hide HopsWork, HopWork;
    var c := |complaint|;
    assert (2 * n + 2) * c == (2 * n) * c + 2 * c;
  }

  /** Every step takes some of it away, so every schedule comes to an end. */
  lemma StepWork(s: State, r: Run, a: Action)
    requires Inv(s, r) && Enabled(s, r, a)
    ensures Shape(Apply(s, r, a)) && Work(Apply(s, r, a)) < Work(s)
  {
    hide StreamWork, ModesWork, Intact, Whole, Carried, FeedWork, FeedBy, FeedOk, Told, Ends, Slots;
    if a.Emit? || a.Push? || a.Receive? {
      MoveWork(s, r, a);
    } else if Feeds(a) {
      FeederWork(s.feed, a);
    } else {
      hide GiveUp, COMPLAINT;
      match a {
        case End =>
        case Complete(j) => ModesWorkSet(s.modes, j, Draining(Reported(s, r, j).value));
        case Exit(j) => ModesWorkSet(s.modes, j, Exited(PassedOn(j, s.modes[j].status)));
        case FeedFails => FailWork(s, r);
      }
    }
  }

  lemma MoveWork(s: State, r: Run, a: Action)
    requires Shape(s) && Slots(s.out) && Slots(s.err) && Enabled(s, r, a) && (a.Emit? || a.Push? || a.Receive?)
    ensures Shape(Apply(s, r, a)) && Work(Apply(s, r, a)) < Work(s)
  {
    hide StreamWork, ModesWork, FeedWork, COMPLAINT, EmitTo, PushTo, ReceiveFrom;
    MoveShape(s, r, a);
    match a {
      case Emit(err, k) => EmitWork(Side(s, err), k);
      case Push(j, err, k) => PushWork(Side(s, err), j, k);
      case Receive(j, err) => ReceiveWork(Side(s, err), j);
    }
  }

  lemma MoveShape(s: State, r: Run, a: Action)
    requires Shape(s) && Enabled(s, r, a) && (a.Emit? || a.Push? || a.Receive?)
    ensures var t := Apply(s, r, a);
            Shape(t) && t.modes == s.modes && t.feed == s.feed && t.ended == s.ended
  {
  }

  lemma FeederWork(f: Feed, a: Action)
    requires Feeds(a)
    requires a.Take? ==>
      1 <= a.k <= |f.unread| && f.feeder.left.Some? && a.k <= f.feeder.left.value && f.feeder.hand == None
    requires a.Finish? ==> f.feeder.hand == None && !f.feeder.ending
    requires a.Hand? || a.Skip? ==> f.feeder.hand.Some?
    requires a.Pass? ==> f.feeder.queue != []
    ensures FeedWork(FeedBy(f, a)) < FeedWork(f)
  {
  }

  lemma FailWork(s: State, r: Run)
    requires Inv(s, r) && Enabled(s, r, FeedFails)
    ensures Shape(Apply(s, r, FeedFails)) && Work(Apply(s, r, FeedFails)) < Work(s)
  {
    var last := |s.modes| - 1;
    GiveUpWork(s.out, "");
    GiveUpWork(s.err, COMPLAINT);
    ModesWorkSet(s.modes, last, Exited(1));
    hide StreamWork, ModesWork, Intact, Whole, Carried, GiveUp, COMPLAINT, FeedWork, FeedOk, Told;
    assert (2 * |s.modes|) * |""| == 0;
  }

  lemma {:induction false} RunWork(s: State, r: Run, actions: seq<Action>)
    requires Inv(s, r) && Runs(s, r, actions)
    ensures Inv(Final(s, r, actions), r) && |actions| + Work(Final(s, r, actions)) <= Work(s)
    decreases |actions|
  {
    hide Inv, Enabled, Work, Apply;
    if actions != [] {
      StepInv(s, r, actions[0]);
      StepWork(s, r, actions[0]);
      RunWork(Apply(s, r, actions[0]), r, actions[1..]);
    }
  }

  /** No schedule is longer than the work there is at the start, and one that cannot go on is done. */
  lemma ReturnsAtLast(r: Run, actions: seq<Action>)
    requires r.helpers > 0 && Runs(Init(r), r, actions)
    ensures |actions| <= Work(Init(r))
    ensures (forall a: Action :: !Enabled(Final(Init(r), r, actions), r, a)) ==> Done(Final(Init(r), r, actions))
  {
    InitInv(r);
    RunWork(Init(r), r, actions);
    var s := Final(Init(r), r, actions);
    hide Runs, Final, Init, Work, Intact, Slots, FeedOk, Told;
    if !Done(s) { var a := Progress(s, r); }
  }
}
