/**
 When a client can rely on the answer: exactly for commands without input and for those that end only after
 the end of it. For every other command there is a schedule in which its helper gives up.
 */
module ReturnLoss {
  import opened Wrappers
  import opened Text
  import D = Delivery
  import Streams
  import opened ReturnPath

  // ---------------------------------------------------------------- Commands that are always in time

  lemma NoInputHanded(f: Feed, open: bool)
    requires FeedOk(f, open, "")
    ensures Handed(f)
  {
    var g := f.feeder;
    if g.hand.Some? {
      FlattenSnoc(g.queue, g.hand.value);
      assert D.InFlight(g) == g.queue + [g.hand.value];
    }
    assert f.unread == "" by {
      assert |D.Limit(g.left, f.unread)| == |f.unread|;
    }
  }

  lemma {:induction false} AlwaysInTime(s: State, r: Run, actions: seq<Action>)
    requires Inv(s, r) && Runs(s, r, actions) && (r.input == "" || r.waits)
    ensures InTime(s, r, actions)
    decreases |actions|
  {
    if actions != [] {
      var a := actions[0];
      if a == Complete(|s.modes| - 1) {
        if r.input == "" { NoInputHanded(s.feed, Open(s)); }
        hide Intact, Slots, FeedOk, Handed, Whole;
      } else {
        StepInv(s, r, a);
        hide Inv, Apply, Enabled, Handed;
        AlwaysInTime(Apply(s, r, a), r, actions[1..]);
      }
    }
  }

  // ---------------------------------------------------------------- A schedule for all the others

  lemma {:induction false} RunsOn(s: State, r: Run, a: seq<Action>, b: seq<Action>)
    requires Runs(s, r, a) && Runs(Final(s, r, a), r, b)
    ensures Runs(s, r, a + b) && Final(s, r, a + b) == Final(Final(s, r, a), r, b)
    decreases |a|
  {
    hide Apply, Enabled;
    if a == [] {
      assert a + b == b;
    } else {
      assert (a + b)[0] == a[0] && (a + b)[1..] == a[1..] + b;
      RunsOn(Apply(s, r, a[0]), r, a[1..], b);
    }
  }

  lemma OneMore(s: State, r: Run, a: Action, rest: seq<Action>)
    requires Enabled(s, r, a) && Runs(Apply(s, r, a), r, rest)
    ensures Runs(s, r, [a] + rest) && Final(s, r, [a] + rest) == Final(Apply(s, r, a), r, rest)
  {
    hide Apply, Enabled;
    assert ([a] + rest)[1..] == rest;
  }

  /** Any state of a run can be completed. */
  lemma {:induction false} Completed(s: State, r: Run) returns (actions: seq<Action>)
    requires Inv(s, r) && Shape(s)
    ensures Runs(s, r, actions) && Done(Final(s, r, actions))
    decreases Work(s)
  {
    hide Inv, Apply, Enabled, Work;
    if Done(s) {
      actions := [];
    } else {
      var a := Progress(s, r);
      StepInv(s, r, a);
      StepWork(s, r, a);
      var rest := Completed(Apply(s, r, a), r);
      OneMore(s, r, a, rest);
      actions := [a] + rest;
    }
  }

  /** The command has ended, and the last helper has read all of its output. */
  predicate Emptied(s: State)
    requires Shape(s)
  {
    s.ended && Quiet(s, |s.modes| - 1) && Drained(s, |s.modes| - 1)
  }

  /** A command that does not wait can end with its feeder where it is. */
  lemma {:induction false} Ended(s: State, r: Run) returns (actions: seq<Action>)
    requires Inv(s, r) && Shape(s) && Open(s) && !r.waits
    ensures Runs(s, r, actions)
    ensures var t := Final(s, r, actions);
            Inv(t, r) && Shape(t) && Open(t) && t.feed == s.feed && |t.modes| == |s.modes| && Emptied(t)
    decreases Work(s)
  {
    hide Inv, Apply, Enabled, Work, Open, Emptied;
    if Emptied(s) {
      actions := [];
    } else {
      var a := OutputStep(s, r);
      OutputKeepsFeed(s, r, a);
      StepInv(s, r, a);
      StepWork(s, r, a);
      var rest := Ended(Apply(s, r, a), r);
      OneMore(s, r, a, rest);
      actions := [a] + rest;
    }
  }

  lemma OutputStep(s: State, r: Run) returns (a: Action)
    requires Inv(s, r) && Shape(s) && Open(s) && !r.waits && !Emptied(s)
    ensures Enabled(s, r, a) && (a.Emit? || a.Push? || a.Receive? || a.End?)
  {
    hide Intact, Slots, FeedOk, Told, ModeOk, Whole;
    var last := |s.modes| - 1;
    var o, e := s.out.hops[last], s.err.hops[last];
    if s.out.todo != "" {
      a := Emit(false, 1);
    } else if s.err.todo != "" {
      a := Emit(true, 1);
    } else if !s.ended {
      a := End;
    } else if o.queue != [] {
      a := Receive(last, false);
    } else if e.queue != [] {
      a := Receive(last, true);
    } else {
      a := if o.wire != "" then Push(last, false, 1) else Push(last, true, 1);
    }
    EndedHasNoMore(s, r);
  }

  lemma EndedHasNoMore(s: State, r: Run)
    requires Inv(s, r)
    ensures s.ended ==> s.out.todo == "" && s.err.todo == ""
  {
    hide Intact, Slots, FeedOk, Told, ModeOk, Whole;
  }

  lemma OutputKeepsFeed(s: State, r: Run, a: Action)
    requires Shape(s) && Enabled(s, r, a) && (a.Emit? || a.Push? || a.Receive? || a.End?)
    ensures var t := Apply(s, r, a); Shape(t) && t.feed == s.feed && t.modes == s.modes && Open(t) == Open(s)
  {
    hide EmitTo, PushTo, ReceiveFrom;
    StreamShapes(s, r, a);
  }

  lemma StreamShapes(s: State, r: Run, a: Action)
    requires Shape(s) && Enabled(s, r, a) && (a.Emit? || a.Push? || a.Receive? || a.End?)
    ensures Shape(Apply(s, r, a))
  {
  }

  /** After its helper has given up, what is under way to the client stays what it is. */
  lemma {:induction false} KeptAfter(s: State, r: Run, actions: seq<Action>)
    requires Inv(s, r) && s.failed && Runs(s, r, actions)
    ensures var t := Final(s, r, actions); Inv(t, r) && t.failed && Whole(t.err) == Whole(s.err)
    decreases |actions|
  {
    if actions != [] {
      StepInv(s, r, actions[0]);
      KeptStep(s, r, actions[0]);
      hide Inv, Enabled, Apply, Whole;
      KeptAfter(Apply(s, r, actions[0]), r, actions[1..]);
    }
  }

  lemma KeptStep(s: State, r: Run, a: Action)
    requires Inv(s, r) && s.failed && Enabled(s, r, a)
    ensures Apply(s, r, a).failed && Whole(Apply(s, r, a).err) == Whole(s.err)
  {
    FailedIsOver(s, r);
    hide Intact, Slots, FeedOk, ModeOk, Whole, Handed;
    if a.Emit? || a.Push? || a.Receive? { MoveWhole(s, r, a); }
    hide EmitTo, PushTo, ReceiveFrom, FeedBy;
  }

  /** The connection ends, the feeder reads a byte more, and finds the channel closed. */
  lemma GivesUp(s: State, r: Run)
    requires Inv(s, r) && Shape(s) && Open(s) && Emptied(s)
    requires s.feed == Feed(r.input, D.Feeder(Some(|r.input|), None, false, []), "", false) && r.input != ""
    ensures var a := [Complete(|s.modes| - 1), Take(1), FeedFails];
            && Runs(s, r, a) && Inv(Final(s, r, a), r) && Final(s, r, a).failed
            && Whole(Final(s, r, a).err) == r.err + COMPLAINT
  {
    hide Inv, Whole, COMPLAINT, GiveUp, Apply, Enabled, Emptied, Open, FeedBy;
    var a := [Complete(|s.modes| - 1), Take(1), FeedFails];
    CompletesLast(s, r);
    var t := Apply(s, r, a[0]);
    StepInv(s, r, a[0]);
    TakesOne(t, r);
    var u := Apply(t, r, a[1]);
    StepInv(t, r, a[1]);
    IsRefused(u, r);
    var v := Apply(u, r, a[2]);
    StepInv(u, r, a[2]);
    NothingDropped(s, r);
    assert a[1..] == [a[1]] + [a[2]] && a == [a[0]] + a[1..] && [a[2]] == [a[2]] + [];
    OneMore(u, r, a[2], []);
    OneMore(t, r, a[1], [a[2]]);
    OneMore(s, r, a[0], a[1..]);
  }

  lemma TakesOne(t: State, r: Run)
    requires Shape(t) && t.modes[|t.modes| - 1].Draining? && r.input != ""
    requires t.feed == Feed(r.input, D.Feeder(Some(|r.input|), None, false, []), "", false)
    ensures Enabled(t, r, Take(1)) && Apply(t, r, Take(1)) == t.(feed := FeedBy(t.feed, Take(1)))
    ensures FeedBy(t.feed, Take(1)).feeder.hand == Some(r.input[..1])
  {
  }

  lemma IsRefused(u: State, r: Run)
    requires Shape(u) && u.modes[|u.modes| - 1].Draining? && u.feed.feeder.hand.Some? && u.feed.feeder.hand.value != ""
    ensures Enabled(u, r, FeedFails)
    ensures var v := Apply(u, r, FeedFails); v.err == GiveUp(u.err, COMPLAINT) && v.failed
  {
    hide GiveUp, COMPLAINT;
  }

  /** All of the command's errors had been read when the helper gave up. */
  lemma NothingDropped(s: State, r: Run)
    requires Inv(s, r) && Shape(s) && Open(s) && Emptied(s)
    ensures Whole(GiveUp(s.err, COMPLAINT)) == r.err + COMPLAINT
  {
    FailedIsOver(s, r);
    assert Intact(s.err, r.err, false, COMPLAINT);
    EndedHasNoMore(s, r);
    hide Inv, Whole, COMPLAINT, GiveUp;
    assert Flatten(s.err.hops[|s.modes| - 1].queue) == "";
    GiveUpDrops(s.err, COMPLAINT);
    assert Whole(GiveUp(s.err, "")) + "" == Whole(GiveUp(s.err, ""));
  }

  lemma CompletesLast(s: State, r: Run)
    requires Shape(s) && Open(s) && Emptied(s)
    ensures var a := Complete(|s.modes| - 1);
            Enabled(s, r, a) && Apply(s, r, a) == s.(modes := s.modes[|s.modes| - 1 := Draining(r.status)])
  {
  }

  /** A schedule that ends with the helper's status and its complaint behind the command's errors. */
  lemma Losing(r: Run) returns (actions: seq<Action>)
    requires r.helpers > 0 && r.input != "" && !r.waits
    ensures Runs(Init(r), r, actions) && Done(Final(Init(r), r, actions)) && !Answered(Final(Init(r), r, actions), r)
  {
    InitInv(r);
    var s := Init(r);
    assert Open(s);
    hide Inv, Runs, Final, Init, Apply, Enabled, Whole, COMPLAINT, Emptied;
    var a := Ended(s, r);
    var t := Final(s, r, a);
    var b := [Complete(|t.modes| - 1), Take(1), FeedFails];
    GivesUp(t, r);
    RunsOn(s, r, a, b);
    var u := Final(t, r, b);
    assert Shape(u) by { FailedIsOver(u, r); }
    var c := Completed(u, r);
    KeptAfter(u, r, c);
    RunsOn(s, r, a + b, c);
    actions := a + b + c;
    Over(Final(u, r, c), r);
    assert |COMPLAINT| > 0 by { ComplaintSaysSomething(); }
    assert |Final(u, r, c).err.got| > |r.err|;
  }

  lemma ComplaintSaysSomething()
    ensures |COMPLAINT| > 0
  {
  }

  /** Whatever the schedule, the client gets the command's own answer. */
  ghost predicate AlwaysAnswered(r: Run) {
    forall actions: seq<Action> :: Runs(Init(r), r, actions) && Done(Final(Init(r), r, actions)) ==>
        Answered(Final(Init(r), r, actions), r)
  }

  lemma AnsweredExactly(r: Run)
    requires r.helpers > 0
    ensures AlwaysAnswered(r) <==> r.input == "" || r.waits
  {
    hide Answered, Runs, Final, Init, Done;
    if r.input == "" || r.waits {
      forall actions: seq<Action> | Runs(Init(r), r, actions) && Done(Final(Init(r), r, actions))
        ensures Answered(Final(Init(r), r, actions), r)
      {
        InitInv(r);
        AlwaysInTime(Init(r), r, actions);
        Returned(r, actions);
      }
    } else {
      var actions := Losing(r);
    }
  }

  // ---------------------------------------------------------------- A schedule that loses output

  /** A command that is sent one byte, does not read it, says one byte and succeeds. */
  const HASTY: Run := Run("x", "", 0, "i", false, 1)

  const CLEAR: Hop := Hop("", [])

  /** The helper has the command's byte in its channel, and a feeder that has just read the input. */
  function Caught(): State {
    State(Stream("", [CLEAR, Hop("", ["x"])], ""), Stream("", [CLEAR, CLEAR], ""), [Running, Draining(0)],
          Feed("", D.Feeder(Some(0), Some("i"), false, []), "", false), true, false)
  }

  function ToldOff(wire: Bytes): State {
    State(Stream("", [CLEAR, CLEAR], ""), Stream("", [Hop(wire, []), CLEAR], ""), [Running, Exited(1)],
          Feed("", D.Feeder(Some(0), Some("i"), false, []), "", false), true, true)
  }

  lemma OneByte()
    ensures EmitTo(Stream("", [CLEAR, CLEAR], "x"), 1) == Stream("", [CLEAR, Hop("x", [])], "")
    ensures PushTo(Stream("", [CLEAR, Hop("x", [])], ""), 1, 1) == Stream("", [CLEAR, Hop("", ["x"])], "")
    ensures GiveUp(Stream("", [CLEAR, Hop("", ["x"])], ""), "") == Stream("", [CLEAR, CLEAR], "")
  {
    assert "x"[..1] == "x" && "x"[1..] == "" && "" + "x" == "x" && [] + ["x"] == ["x"];
    assert [CLEAR, CLEAR][1 := Hop("x", [])] == [CLEAR, Hop("x", [])];
    assert [CLEAR, Hop("x", [])][1 := Hop("", ["x"])] == [CLEAR, Hop("", ["x"])];
    assert [CLEAR, Hop("", ["x"])][1 := CLEAR] == [CLEAR, CLEAR] && [CLEAR, CLEAR][0 := CLEAR] == [CLEAR, CLEAR];
    assert "" + "" == "";
  }

  lemma Said(c: Bytes)
    ensures GiveUp(Stream("", [CLEAR, CLEAR], ""), c) == Stream("", [Hop(c, []), CLEAR], "")
    ensures PushTo(Stream("", [Hop(c, []), CLEAR], ""), 0, |c|) == Stream("", [Hop("", [c]), CLEAR], "")
    ensures ReceiveFrom(Stream("", [Hop("", [c]), CLEAR], ""), 0) == Stream(c, [CLEAR, CLEAR], "")
  {
    assert "" + c == c && c[..|c|] == c && c[|c|..] == "" && [] + [c] == [c] && [c][1..] == [];
    assert [CLEAR, CLEAR][1 := CLEAR] == [CLEAR, CLEAR] && [CLEAR, CLEAR][0 := Hop(c, [])] == [Hop(c, []), CLEAR];
    assert [Hop(c, []), CLEAR][0 := Hop("", [c])] == [Hop("", [c]), CLEAR];
    assert [Hop("", [c]), CLEAR][0 := CLEAR] == [CLEAR, CLEAR];
  }

  lemma Hands()
    ensures FeedBy(Feed("i", D.Feeder(Some(1), None, false, []), "", false), Take(1)) == Caught().feed
  {
    assert "i"[..1] == "i" && "i"[1..] == "";
  }

  lemma GetsCaught()
    ensures var a := [Emit(false, 1), End, Push(1, false, 1), Complete(1), Take(1)];
            Runs(Init(HASTY), HASTY, a) && Final(Init(HASTY), HASTY, a) == Caught()
  {
    OneByte();
    Hands();
    hide EmitTo, PushTo, GiveUp, FeedBy, ReceiveFrom;
    var a := [Emit(false, 1), End, Push(1, false, 1), Complete(1), Take(1)];
    var s := Init(HASTY);
    assert s.out.hops == [CLEAR, CLEAR] && s.err.hops == [CLEAR, CLEAR] && s.modes == [Running, Running];
    var s1 := Apply(s, HASTY, a[0]);
    var s2 := Apply(s1, HASTY, a[1]);
    var s3 := Apply(s2, HASTY, a[2]);
    assert s3.out == Caught().out;
    var s4 := Apply(s3, HASTY, a[3]);
    assert s4.modes == [Running, Draining(0)];
    var s5 := Apply(s4, HASTY, a[4]);
    assert s5 == Caught();
    hide Apply, Enabled, Init;
    assert a == [a[0]] + ([a[1]] + ([a[2]] + ([a[3]] + ([a[4]] + []))));
    OneMore(s4, HASTY, a[4], []);
    OneMore(s3, HASTY, a[3], [a[4]] + []);
    OneMore(s2, HASTY, a[2], [a[3]] + ([a[4]] + []));
    OneMore(s1, HASTY, a[1], [a[2]] + ([a[3]] + ([a[4]] + [])));
    OneMore(s, HASTY, a[0], [a[1]] + ([a[2]] + ([a[3]] + ([a[4]] + []))));
  }

  lemma IsDroppedAt()
    ensures Enabled(Caught(), HASTY, FeedFails) && Apply(Caught(), HASTY, FeedFails) == ToldOff(COMPLAINT)
  {
    OneByte();
    Said(COMPLAINT);
    hide COMPLAINT, GiveUp;
    assert [Running, Draining(0)][1 := Exited(1)] == [Running, Exited(1)];
  }

  lemma Complains(c: Bytes)
    requires c != ""
    ensures var a := [Push(0, true, |c|), Receive(0, true), Complete(0), Exit(0)];
            && Runs(ToldOff(c), HASTY, a) && Done(Final(ToldOff(c), HASTY, a)) &&
                Final(ToldOff(c), HASTY, a).out.got == ""
            && Final(ToldOff(c), HASTY, a).err.got == c && Final(ToldOff(c), HASTY, a).modes[0] == Exited(1)
  {
    Said(c);
    hide EmitTo, PushTo, GiveUp, FeedBy, ReceiveFrom;
    var a := [Push(0, true, |c|), Receive(0, true), Complete(0), Exit(0)];
    var s := ToldOff(c);
    var s1 := Apply(s, HASTY, a[0]);
    var s2 := Apply(s1, HASTY, a[1]);
    assert s2.err == Stream(c, [CLEAR, CLEAR], "") && s2.out == s.out;
    var s3 := Apply(s2, HASTY, a[2]);
    assert s3.modes == [Draining(1), Exited(1)];
    var s4 := Apply(s3, HASTY, a[3]);
    assert s4.modes == [Exited(1), Exited(1)];
    hide Apply, Enabled;
    assert a == [a[0]] + ([a[1]] + ([a[2]] + ([a[3]] + [])));
    OneMore(s3, HASTY, a[3], []);
    OneMore(s2, HASTY, a[2], [a[3]] + []);
    OneMore(s1, HASTY, a[1], [a[2]] + ([a[3]] + []));
    OneMore(s, HASTY, a[0], [a[1]] + ([a[2]] + ([a[3]] + [])));
  }

  /** The client gets none of the output, a complaint, and status 1, where the command said `x` and succeeded. */
  lemma OutputLost() returns (actions: seq<Action>)
    ensures Runs(Init(HASTY), HASTY, actions)
    ensures var s := Final(Init(HASTY), HASTY, actions);
            Done(s) && s.out.got == "" && s.err.got == COMPLAINT && s.modes[0].status == 1 && HASTY.out == "x" &&
                HASTY.status == 0
  {
    GetsCaught();
    IsDroppedAt();
    ComplaintSaysSomething();
    hide Runs, Final, Apply, Enabled, Init, COMPLAINT, Caught, ToldOff;
    Complains(COMPLAINT);
    var a := [Emit(false, 1), End, Push(1, false, 1), Complete(1), Take(1)];
    var b := [Push(0, true, |COMPLAINT|), Receive(0, true), Complete(0), Exit(0)];
    OneMore(Caught(), HASTY, FeedFails, b);
    RunsOn(Init(HASTY), HASTY, a, [FeedFails] + b);
    actions := a + ([FeedFails] + b);
  }
}
