/**
 Collecting a remote command's output: the select loop that receives from two bounded channels while the
 command runs, and the drain that follows its completion. The remote side and the loop interleave freely.
 */
module Capture {
  import opened Text

  const SLOTS: nat := 8

  /** Every byte of the stream is received, in the channel or still to be emitted, in that order. */
  ghost predicate Conserved(all: seq<Bytes>, got: Bytes, channel: seq<Bytes>, todo: seq<Bytes>) {
    |channel| <= SLOTS && Flatten(all) == got + Flatten(channel) + Flatten(todo)
  }

  lemma Emit(all: seq<Bytes>, got: Bytes, channel: seq<Bytes>, todo: seq<Bytes>)
    requires Conserved(all, got, channel, todo) && todo != [] && |channel| < SLOTS
    ensures Conserved(all, got, channel + [todo[0]], todo[1..])
  {
    FlattenSnoc(channel, todo[0]);
    var a, b, c := Flatten(channel), todo[0], Flatten(todo[1..]);
    assert got + a + (b + c) == got + (a + b) + c;
  }

  lemma Receive(all: seq<Bytes>, got: Bytes, channel: seq<Bytes>, todo: seq<Bytes>)
    requires Conserved(all, got, channel, todo) && channel != []
    ensures Conserved(all, got + channel[0], channel[1..], todo)
  {
    var a, b, c := channel[0], Flatten(channel[1..]), Flatten(todo);
    assert got + (a + b) + c == (got + a) + b + c;
  }

  /**
   `remoteOut` and `remoteErr` are the chunks the command emits; every choice below is the scheduler's. No
   byte is lost, repeated or moved within its stream, no state is stuck, and every schedule returns.
   */
  method CollectOutput(remoteOut: seq<Bytes>, remoteErr: seq<Bytes>, remoteStatus: u32)
    returns (status: u32, stdout: Bytes, stderr: Bytes)
    ensures status == remoteStatus
    ensures stdout == Flatten(remoteOut)
    ensures stderr == Flatten(remoteErr)
  {
    hide Flatten, Conserved;
    var todoOut, todoErr := remoteOut, remoteErr;
    var outChannel: seq<Bytes>, errChannel: seq<Bytes> := [], [];
    var completed, draining, returned := false, false, false;
    stdout, stderr, status := "", "", 0;
    Start(remoteOut);
    Start(remoteErr);
    while !returned
      invariant Conserved(remoteOut, stdout, outChannel, todoOut)
      invariant Conserved(remoteErr, stderr, errChannel, todoErr)
      invariant completed ==> todoOut == [] && todoErr == []
      invariant draining ==> completed && status == remoteStatus
      invariant returned ==> draining && outChannel == [] && errChannel == []
      decreases 2 * (|todoOut| + |todoErr|) + |outChannel| + |errChannel|, !completed, !draining, !returned
    {
      if {
        case !completed && todoOut != [] && |outChannel| < SLOTS =>
          Emit(remoteOut, stdout, outChannel, todoOut);
          outChannel, todoOut := outChannel + [todoOut[0]], todoOut[1..];
        case !completed && todoErr != [] && |errChannel| < SLOTS =>
          Emit(remoteErr, stderr, errChannel, todoErr);
          errChannel, todoErr := errChannel + [todoErr[0]], todoErr[1..];
        case !completed && todoOut == [] && todoErr == [] =>
          completed := true;
        case !draining && outChannel != [] =>
          Receive(remoteOut, stdout, outChannel, todoOut);
          stdout, outChannel := stdout + outChannel[0], outChannel[1..];
        case !draining && errChannel != [] =>
          Receive(remoteErr, stderr, errChannel, todoErr);
          stderr, errChannel := stderr + errChannel[0], errChannel[1..];
        case !draining && completed =>
          draining, status := true, remoteStatus;
        case draining && outChannel != [] =>
          Receive(remoteOut, stdout, outChannel, todoOut);
          stdout, outChannel := stdout + outChannel[0], outChannel[1..];
        case draining && outChannel == [] && errChannel != [] =>
          Receive(remoteErr, stderr, errChannel, todoErr);
          stderr, errChannel := stderr + errChannel[0], errChannel[1..];
        case draining && outChannel == [] && errChannel == [] =>
          returned := true;
      }
    }
    Finish(remoteOut, stdout);
    Finish(remoteErr, stderr);
  }

  lemma Start(all: seq<Bytes>)
    ensures Conserved(all, "", [], all)
  {
  }

  lemma Finish(all: seq<Bytes>, got: Bytes)
    requires Conserved(all, got, [], [])
    ensures got == Flatten(all)
  {
  }
}
