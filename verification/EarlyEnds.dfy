/** Short runs in which somebody dies, at a command one hop away: what the safety statement leaves open does happen. */
module EarlyEnds {
  import opened Wrappers
  import opened Text
  import opened Fields
  import opened Json
  import opened Wire
  import opened Streams
  import opened Delivery
  import opened DeliveryRuns

  /** A request for one hop, and what a client sends for it. */
  predicate OneHop(r: ExecRequest, input: Bytes) {
    Accepts(r, input) && r.remaining == []
  }

  function Header(r: ExecRequest): Bytes
    requires EncodeRequestHeader(r).Ok?
  {
    EncodeRequestHeader(r).value
  }

  /** The helper's two reads of a header that is all there. */
  function Reads(r: ExecRequest): (a: seq<Action>)
    requires EncodeRequestHeader(r).Ok? && |Header(r)| > 4
  {
    [Absorb(0, 4), Absorb(0, |Header(r)| - 4)]
  }

  /** Where they lead. */
  function Started(r: ExecRequest, source: Bytes, left: Bytes, closed: bool): State {
    State(source, [Pipe(left, closed), Pipe("", false)],
        [Feeding(Feeder(if r.tty then None else Some(r.stdinBytes), None, false, []))], {}, {},
          [HopTarget(r.target, r.targetPort, r.password)], Some(r.command))
  }

  lemma LongHeader(r: ExecRequest)
    requires EncodeRequestHeader(r).Ok?
    ensures |Header(r)| > 4
  {
    FrameRoundTrip(r, "");
    hide EncodeRequestHeader;
  }

  /** The only helper over its header. */
  function Waiting(source: Bytes, inbox: Bytes, got: Bytes, closed: bool): State {
    State(source, [Pipe(inbox, closed)], [Reading(got)], {}, {}, [], None)
  }

  /** The first four bytes announce the rest. */
  lemma FirstFour(r: ExecRequest, left: Bytes)
    requires EncodeRequestHeader(r).Ok? && |Header(r)| > 4
    ensures (Header(r) + left)[..4] == Header(r)[..4] && (Header(r) + left)[4..] == Header(r)[4..] + left
    ensures Need(Header(r)[..4]) == |Header(r)| && 0 < FromBe32(Header(r)[..4]) <= MAX_HEADER_BYTES
  {
    hide EncodeRequestHeader, FromBe32;
    FrameRoundTrip(r, "");
    var frame := Header(r);
    assert frame + "" == frame && frame[..4][..4] == frame[..4];
  }

  lemma FirstRead(r: ExecRequest, source: Bytes, left: Bytes, closed: bool)
    requires EncodeRequestHeader(r).Ok? && |Header(r)| > 4
    ensures var s := Waiting(source, Header(r) + left, "", closed);
            Enabled(s, Absorb(0, 4)) && Apply(s, Absorb(0, 4))
                == Waiting(source, Header(r)[4..] + left, Header(r)[..4], closed)
  {
    hide EncodeRequestHeader, ParseHeader, FromBe32, Absorbed, HeaderText;
    FirstFour(r, left);
    FirstReadOf(r, Header(r), source, left, closed);
  }

  lemma FirstReadOf(r: ExecRequest, frame: Bytes, source: Bytes, left: Bytes, closed: bool)
    requires EncodeRequestHeader(r) == Ok(frame) && |frame| > 4
    requires (frame + left)[..4] == frame[..4] && (frame + left)[4..] == frame[4..] + left
    requires Need(frame[..4]) == |frame| && 0 < FromBe32(frame[..4]) <= MAX_HEADER_BYTES
    ensures var s := Waiting(source, frame + left, "", closed);
            Enabled(s, Absorb(0, 4)) && Apply(s, Absorb(0, 4)) == Waiting(source, frame[4..] + left, frame[..4], closed)
  {
    hide EncodeRequestHeader, ParseHeader, FromBe32, StartHelper;
    var s := Waiting(source, frame + left, "", closed);
    var got := frame[..4];
    assert "" + (frame + left)[..4] == got && |got| == 4 && got[..4] == got;
    assert s.pipes[0 := Pipe(frame[4..] + left, closed)] == [Pipe(frame[4..] + left, closed)];
    assert s.stages[0 := Reading(frame[..4])] == [Reading(frame[..4])];
  }

  lemma SecondRead(r: ExecRequest, input: Bytes, source: Bytes, left: Bytes, closed: bool)
    requires OneHop(r, input) && EncodeRequestHeader(r).Ok? && |Header(r)| > 4
    ensures var s := Waiting(source, Header(r)[4..] + left, Header(r)[..4], closed);
            var a := Absorb(0, |Header(r)| - 4);
            Enabled(s, a) && Apply(s, a) == Started(r, source, left, closed)
  {
    var frame := Header(r);
    var k := |frame| - 4;
    var s := Waiting(source, frame[4..] + left, frame[..4], closed);
    assert frame[..4] + (frame[4..] + left) == frame + left;
    FirstFour(r, left);
    HeaderPrefix(r, frame[..4], frame[4..] + left, left, k);
    assert (frame[4..] + left)[..k] == frame[4..] && (frame[4..] + left)[k..] == left &&
        frame[..4] + frame[4..] == frame;
    hide EncodeRequestHeader, ParseHeader, FromBe32, Absorbed, OneHop, StartHelper;
    AbsorbParts(s, 0, k, r);
    assert s.pipes[0 := Pipe(left, closed)] == [Pipe(left, closed)];
    assert s.stages[0 := Reading(frame)] == [Reading(frame)];
    StartsCommand(Waiting(source, left, frame, closed), r, input);
    assert [Pipe(left, closed)] + [Pipe("", false)] == [Pipe(left, closed), Pipe("", false)];
    var hop := HopTarget(r.target, r.targetPort, r.password);
    assert [] + [hop] == [hop];
  }

  lemma HeaderRead(r: ExecRequest, input: Bytes, source: Bytes, left: Bytes, closed: bool)
    requires OneHop(r, input) && EncodeRequestHeader(r).Ok? && |Header(r)| > 4
    ensures var s := Waiting(source, Header(r) + left, "", closed);
            Runs(s, Reads(r)) && Final(s, Reads(r)) == Started(r, source, left, closed)
  {
    hide Apply, Enabled, OneHop, EncodeRequestHeader, Started, Waiting;
    FirstRead(r, source, left, closed);
    SecondRead(r, input, source, left, closed);
    var s := Waiting(source, Header(r) + left, "", closed);
    var a := Reads(r);
    var t, u := Apply(s, a[0]), Started(r, source, left, closed);
    assert a[1..] == [a[1]] && a[1..][1..] == [];
    assert Runs(u, []) && Final(u, []) == u;
    assert Runs(t, [a[1]]) && Final(t, [a[1]]) == u by { assert [a[1]][1..] == []; }
  }

  lemma StartsCommand(u: State, r: ExecRequest, input: Bytes)
    requires OneHop(r, input) && |u.stages| == 1
    ensures StartHelper(u, 0, r) == u.(connections := u.connections + [HopTarget(r.target, r.targetPort, r.password)],
                                       pipes := u.pipes + [Pipe("", false)],
                                       stages := [Feeding(Feeder(if r.tty then None
                                           else Some(r.stdinBytes), None, false, []))],
                                       command := Some(r.command))
  {
    hide EncodeRequestHeader;
  }

  lemma {:induction false} RunsOn(s: State, a: seq<Action>, b: seq<Action>)
    requires Runs(s, a) && Runs(Final(s, a), b)
    ensures Runs(s, a + b) && Final(s, a + b) == Final(Final(s, a), b)
    decreases |a|
  {
    hide Apply, Enabled;
    if a == [] {
      assert a + b == b;
    } else {
      assert (a + b)[0] == a[0] && (a + b)[1..] == a[1..] + b;
      RunsOn(Apply(s, a[0]), a[1..], b);
    }
  }

  /** All is sent, and the helper dies once it has started the command. */
  function DeadHelper(r: ExecRequest, input: Bytes): seq<Action>
    requires EncodeRequestHeader(r).Ok? && |Header(r)| > 4
  {
    [ClientSend(|Payload(r, input)|)] + Reads(r) + [Abort(0), Hangup(0)]
  }

  /** The command is told that its input has ended, and has seen none of it. */
  lemma DeadHelperEndsEarly(r: ExecRequest, input: Bytes)
    requires OneHop(r, input)
    ensures EncodeRequestHeader(r).Ok? && |Header(r)| > 4
    ensures var s := Init(Payload(r, input));
            && Runs(s, DeadHelper(r, input)) && Final(s, DeadHelper(r, input)).command == Some(r.command)
            && Final(s, DeadHelper(r, input)).pipes == [Pipe(input, false), Pipe("", true)]
  {
    AcceptedHeader(r, input);
    hide EncodeRequestHeader, Reads, OneHop, Runs, Final, Apply, Enabled, Init, Header, Payload, Waiting;
    LongHeader(r);
    Together(r, input);
    HeaderRead(r, input, "", input, false);
    var s := Init(Payload(r, input));
    var a, b := [ClientSend(|Payload(r, input)|)], [Abort(0), Hangup(0)];
    SendsAll(r, input, |Payload(r, input)|);
    RunsOn(s, a, Reads(r));
    HelperDies(Started(r, "", input, false), input);
    RunsOn(s, a + Reads(r), b);
  }

  lemma Together(r: ExecRequest, input: Bytes)
    requires EncodeRequestHeader(r).Ok? && |Header(r)| > 4
    ensures var x := Payload(r, input); |x| > 4 && x == Header(r) + input && x[..|x|] == x && x[|x|..] == ""
    ensures |Header(r)| <= |Payload(r, input)| && Payload(r, input)[..|Header(r)|] == Header(r) == Header(r) + ""
    ensures Payload(r, input)[|Header(r)|..] == input
  {
    hide EncodeRequestHeader;
  }

  lemma SendsAll(r: ExecRequest, input: Bytes, k: nat)
    requires EncodeRequestHeader(r).Ok? && 1 <= k <= |Payload(r, input)|
    ensures var s := Init(Payload(r, input)); var source := Payload(r, input)[k..];
            Runs(s, [ClientSend(k)]) && Final(s, [ClientSend(k)]) == Waiting(source, Payload(r, input)[..k], "", false)
  {
    hide EncodeRequestHeader;
    var x := Payload(r, input);
    var s := Init(x);
    assert [ClientSend(k)][1..] == [];
    assert "" + x[..k] == x[..k];
    assert s.pipes[0 := Pipe(x[..k], false)] == [Pipe(x[..k], false)];
    var t := Apply(s, ClientSend(k));
    assert Runs(t, []) && Final(t, []) == t;
  }

  lemma HelperDies(u: State, left: Bytes)
    requires |u.stages| == 1 && u.failed == {} && u.pipes == [Pipe(left, false), Pipe("", false)]
    ensures Runs(u, [Abort(0), Hangup(0)])
    ensures Final(u, [Abort(0), Hangup(0)]) == u.(failed := {0}, pipes := [Pipe(left, false), Pipe("", true)])
  {
    var a := [Abort(0), Hangup(0)];
    assert a[1..] == [Hangup(0)] && a[1..][1..] == [];
    var t := Apply(u, a[0]);
    assert t.failed == {0} && Enabled(t, a[1]);
    var v := Apply(t, a[1]);
    assert v.pipes == [Pipe(left, false), Pipe("", true)];
    assert Runs(v, []) && Final(v, []) == v;
  }

  /** The client sends the header only, and dies. */
  function DeadClient(r: ExecRequest): seq<Action>
    requires EncodeRequestHeader(r).Ok? && |Header(r)| > 4
  {
    [ClientSend(|Header(r)|)] + [ClientDies] + Reads(r)
  }

  /**
   Behind a client that died the counted feeder gives up: the command has seen nothing, and is never told that
   this is all.
   */
  lemma DeadClientIsNoticed(r: ExecRequest, input: Bytes)
    requires OneHop(r, input) && !r.tty && input != ""
    ensures EncodeRequestHeader(r).Ok? && |Header(r)| > 4
    ensures var s := Init(Payload(r, input)); var run := DeadClient(r) + [ShortInput(0)];
            Runs(s, run) && Final(s, run).pipes == [Pipe("", true), Pipe("", false)] && Left(Final(s, run))
  {
    AcceptedHeader(r, input);
    LongHeader(r);
    ClientGone(r, input);
    assert r.stdinBytes > 0;
    hide EncodeRequestHeader, Reads, OneHop, Header, Payload, DeadClient, Init;
    var s := Init(Payload(r, input));
    var u := Started(r, input, "", true);
    var a := [ShortInput(0)];
    assert a[1..] == [];
    assert Enabled(u, a[0]);
    var v := Apply(u, a[0]);
    assert Runs(v, []) && Final(v, []) == v && Runs(u, a) && Final(u, a) == v;
    hide Runs, Final, Apply, Enabled;
    RunsOn(s, DeadClient(r), a);
  }

  /** An interactive request ends where its client does: the feeder takes it for the end of the input. */
  lemma DeadTerminalEndsEarly(r: ExecRequest, input: Bytes)
    requires OneHop(r, input) && r.tty
    ensures EncodeRequestHeader(r).Ok? && |Header(r)| > 4
    ensures var s := Init(Payload(r, input)); var run := DeadClient(r) + [Finish(0), Send(0), Deliver(0)];
            && Runs(s, run) && Final(s, run).failed == {} && Final(s, run).command == Some(r.command)
            && Final(s, run).pipes == [Pipe("", true), Pipe("", true)]
  {
    AcceptedHeader(r, input);
    LongHeader(r);
    ClientGone(r, input);
    hide EncodeRequestHeader, Reads, OneHop, Header, Payload, DeadClient, Init;
    var s := Init(Payload(r, input));
    var u := Started(r, input, "", true);
    FeederEnds(u);
    hide Runs, Final, Apply, Enabled;
    RunsOn(s, DeadClient(r), [Finish(0), Send(0), Deliver(0)]);
  }

  lemma FeederEnds(u: State)
    requires u.failed == {} && u.halted == {} && u.pipes == [Pipe("", true), Pipe("", false)]
    requires u.stages == [Feeding(Feeder(None, None, false, []))]
    ensures var a := [Finish(0), Send(0), Deliver(0)];
            && Runs(u, a) && Final(u, a).failed == {} && Final(u, a).command == u.command
            && Final(u, a).pipes == [Pipe("", true), Pipe("", true)]
  {
    var a := [Finish(0), Send(0), Deliver(0)];
    assert a[1..] == [Send(0), Deliver(0)] && a[1..][1..] == [Deliver(0)] && a[1..][1..][1..] == [];
    var t := Apply(u, a[0]);
    var v := Apply(t, a[1]);
    assert v.stages[0].feeder.queue == [""];
    var w := Apply(v, a[2]);
    assert w.pipes == [Pipe("", true), Pipe("", true)];
    assert Runs(w, []) && Final(w, []) == w;
    assert Runs(v, [Deliver(0)]) && Final(v, [Deliver(0)]) == w;
    assert Runs(t, a[1..]) && Final(t, a[1..]) == w;
  }

  lemma ClientGone(r: ExecRequest, input: Bytes)
    requires OneHop(r, input) && EncodeRequestHeader(r).Ok? && |Header(r)| > 4
    ensures var s := Init(Payload(r, input));
            Runs(s, DeadClient(r)) && Final(s, DeadClient(r)) == Started(r, input, "", true)
  {
    hide EncodeRequestHeader, Reads, OneHop, Runs, Final, Apply, Enabled, Init, Header, Payload;
    Together(r, input);
    HeaderRead(r, input, input, "", true);
    var s := Init(Payload(r, input));
    SendsAll(r, input, |Header(r)|);
    var t := Waiting(input, Header(r) + "", "", false);
    Dies(input, Header(r));
    RunsOn(s, [ClientSend(|Header(r)|)], [ClientDies]);
    RunsOn(s, [ClientSend(|Header(r)|)] + [ClientDies], Reads(r));
  }

  lemma Dies(source: Bytes, inbox: Bytes)
    ensures var s := Waiting(source, inbox, "", false);
            Runs(s, [ClientDies]) && Final(s, [ClientDies]) == Waiting(source, inbox, "", true)
  {
    var s := Waiting(source, inbox, "", false);
    assert [ClientDies][1..] == [];
    var t := Apply(s, ClientDies);
    assert t.pipes == [Pipe(inbox, true)];
    assert Runs(t, []) && Final(t, []) == t;
  }
}
