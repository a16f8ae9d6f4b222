/**
 A tool's output on its way to the terminal: the probe's protocol line is taken off the front of standard
 error, the rest is forwarded as it comes, and the lines of many hosts are put back together for printing.
 How the bytes were cut into chunks, and how the two streams interleaved, must not show.
 */
module ProbeStream {
  import opened Wrappers
  import opened Text

  datatype StreamChunk = StreamChunk(stderr: bool, data: Bytes)

  datatype FleetOutput = FleetOutput(host: string, stderr: bool, data: Bytes)

  datatype Line = Line(host: string, stderr: bool, text: Bytes)

  /** Where the first line feed is, or the length when there is none. */
  function FirstNewline(s: Bytes): (n: nat)
    ensures n <= |s| && (n < |s| ==> s[n] == '\n') && forall k :: 0 <= k < n ==> s[k] != '\n'
  {
    if s == "" || s[0] == '\n' then 0 else 1 + FirstNewline(s[1..])
  }

  predicate HasNewline(s: Bytes) {
    FirstNewline(s) < |s|
  }

  /** `split_once` at a line feed, with everything before it when there is none. */
  function SplitOnce(s: Bytes): (Bytes, Bytes) {
    var n := FirstNewline(s);
    if n < |s| then (s[..n], s[n + 1..]) else (s, "")
  }

  lemma FirstNewlineUnique(s: Bytes, n: nat)
    requires n < |s| && s[n] == '\n' && forall k :: 0 <= k < n ==> s[k] != '\n'
    ensures FirstNewline(s) == n
  {
  }

  /** More bytes behind a line feed do not move it. */
  lemma SplitAppend(a: Bytes, b: Bytes)
    requires HasNewline(a)
    ensures HasNewline(a + b) && SplitOnce(a + b) == (SplitOnce(a).0, SplitOnce(a).1 + b)
  {
    var n := FirstNewline(a);
    FirstNewlineUnique(a + b, n);
    assert (a + b)[..n] == a[..n] && (a + b)[n + 1..] == a[n + 1..] + b;
  }

  // ---------------------------------------------------------------- The probe

  /** One of the two streams of a run. */
  function Stream(chunks: seq<StreamChunk>, stderr: bool): Bytes {
    if chunks == [] then ""
    else Stream(chunks[..|chunks| - 1], stderr)
         + if chunks[|chunks| - 1].stderr == stderr then chunks[|chunks| - 1].data else ""
  }

  lemma StreamNext(chunks: seq<StreamChunk>, k: nat, stderr: bool)
    requires k < |chunks|
    ensures Stream(chunks[..k + 1], stderr)
         == Stream(chunks[..k], stderr) + if chunks[k].stderr == stderr then chunks[k].data else ""
  {
    assert chunks[..k + 1][..k] == chunks[..k];
  }

  /** A host and one of its streams. */
  type Key = (string, bool)

  /** What was forwarded of one stream. */
  function Sent(output: seq<FleetOutput>, key: Key): Bytes {
    if output == [] then ""
    else
      var last := output[|output| - 1];
      Sent(output[..|output| - 1], key) + if (last.host, last.stderr) == key then last.data else ""
  }

  lemma SentSnoc(output: seq<FleetOutput>, item: FleetOutput, key: Key)
    ensures Sent(output + [item], key) == Sent(output, key) + if (item.host, item.stderr) == key then item.data else ""
  {
    assert (output + [item])[..|output|] == output;
  }

  /** The receiving end of a probe: the protocol bytes so far, and whether its line is complete. */
  class ProbeReader {
    const host: string
    var protocol: Bytes
    var done: bool
    var output: seq<FleetOutput>

    constructor (host: string)
      ensures this.host == host && protocol == "" && !done && output == []
    {
      this.host := host;
      protocol, done, output := "", false, [];
    }

    /** What the reader stands for, given what each stream has brought so far. */
    ghost predicate Holds(out: Bytes, err: Bytes)
      reads this
    {
      && done == HasNewline(err)
      && protocol == SplitOnce(err).0
      && Sent(output, (host, false)) == out
      && Sent(output, (host, true)) == SplitOnce(err).1
      && forall i :: 0 <= i < |output| ==> output[i].host == host
    }

    /** `consume_probe_chunk`. */
    method Consume(chunk: StreamChunk, ghost out: Bytes, ghost err: Bytes)
      requires Holds(out, err)
      modifies this
      ensures Holds(if chunk.stderr then out else out + chunk.data, if chunk.stderr then err + chunk.data else err)
    {
      if !chunk.stderr || done {
        if chunk.stderr { SplitAppend(err, chunk.data); }
        SentSnoc(output, FleetOutput(host, chunk.stderr, chunk.data), (host, false));
        SentSnoc(output, FleetOutput(host, chunk.stderr, chunk.data), (host, true));
        output := output + [FleetOutput(host, chunk.stderr, chunk.data)];
        return;
      }
      protocol := protocol + chunk.data;
      assert protocol == err + chunk.data;
      var newline := FirstNewline(protocol);
      if newline < |protocol| {
        var remainder := protocol[newline + 1..];
        protocol := protocol[..newline];
        done := true;
        if remainder != "" {
          SentSnoc(output, FleetOutput(host, true, remainder), (host, false));
          SentSnoc(output, FleetOutput(host, true, remainder), (host, true));
          output := output + [FleetOutput(host, true, remainder)];
        }
      }
    }

    /**
     `stream_probe_fresh`: however the run's output was cut and interleaved, the protocol and the forwarded
     streams are those of splitting the complete standard error once.
     */
    method Drain(chunks: seq<StreamChunk>)
      requires protocol == "" && !done && output == []
      modifies this
      ensures protocol == SplitOnce(Stream(chunks, true)).0
      ensures Sent(output, (host, false)) == Stream(chunks, false)
      ensures Sent(output, (host, true)) == SplitOnce(Stream(chunks, true)).1
      ensures forall i :: 0 <= i < |output| ==> output[i].host == host
    {
      var k := 0;
      while k < |chunks|
        invariant k <= |chunks|
        invariant Holds(Stream(chunks[..k], false), Stream(chunks[..k], true))
      {
        StreamNext(chunks, k, false);
        StreamNext(chunks, k, true);
        assert Stream(chunks[..k], false) + "" == Stream(chunks[..k], false);
        assert Stream(chunks[..k], true) + "" == Stream(chunks[..k], true);
        Consume(chunks[k], Stream(chunks[..k], false), Stream(chunks[..k], true));
        k := k + 1;
      }
      assert chunks[..k] == chunks;
    }
  }

  // ---------------------------------------------------------------- Lines

  function CompleteLines(s: Bytes): seq<Bytes>
    decreases |s|
  {
    if HasNewline(s) then [SplitOnce(s).0] + CompleteLines(SplitOnce(s).1) else []
  }

  /** What follows the last line feed. */
  function Rest(s: Bytes): Bytes
    decreases |s|
  {
    if HasNewline(s) then Rest(SplitOnce(s).1) else s
  }

  /** The lines of a text; a last one without a line feed counts when it is not empty. */
  function SplitLines(s: Bytes): seq<Bytes> {
    CompleteLines(s) + if Rest(s) == "" then [] else [Rest(s)]
  }

  /** Lines found so far stay, whatever comes next. */
  lemma {:induction false} LinesAppend(a: Bytes, b: Bytes)
    ensures CompleteLines(a + b) == CompleteLines(a) + CompleteLines(Rest(a) + b)
    ensures Rest(a + b) == Rest(Rest(a) + b)
    decreases |a|
  {
    if HasNewline(a) {
      var (first, after) := SplitOnce(a);
      SplitAppend(a, b);
      LinesAppend(after, b);
    }
  }

  function Printed(lines: seq<Line>, key: Key): seq<Bytes> {
    if lines == [] then []
    else
      var last := lines[|lines| - 1];
      Printed(lines[..|lines| - 1], key) + if (last.host, last.stderr) == key then [last.text] else []
  }

  function Tagged(key: Key, texts: seq<Bytes>): (r: seq<Line>)
    ensures |r| == |texts| && forall i :: 0 <= i < |r| ==> r[i] == Line(key.0, key.1, texts[i])
  {
    seq(|texts|, i requires 0 <= i < |texts| => Line(key.0, key.1, texts[i]))
  }

  lemma PrintedSnoc(lines: seq<Line>, line: Line, key: Key)
    ensures Printed(lines + [line], key) == Printed(lines, key) + if (line.host, line.stderr) == key then [line.text]
        else []
  {
    assert (lines + [line])[..|lines|] == lines;
  }

  lemma TaggedSnoc(lines: seq<Line>, tag: Key, texts: seq<Bytes>)
    requires texts != []
    ensures lines + Tagged(tag, texts)
         == lines + Tagged(tag, texts[..|texts| - 1]) + [Line(tag.0, tag.1, texts[|texts| - 1])]
  {
    assert Tagged(tag, texts) == Tagged(tag, texts[..|texts| - 1]) + [Line(tag.0, tag.1, texts[|texts| - 1])];
  }

  lemma {:induction false} PrintedTagged(lines: seq<Line>, tag: Key, texts: seq<Bytes>, key: Key)
    ensures Printed(lines + Tagged(tag, texts), key) == Printed(lines, key) + if tag == key then texts else []
  {
    if texts == [] {
      assert lines + Tagged(tag, texts) == lines;
    } else {
      var n := |texts| - 1;
      hide Printed, Tagged;
      TaggedSnoc(lines, tag, texts);
      PrintedTagged(lines, tag, texts[..n], key);
      PrintedSnoc(lines + Tagged(tag, texts[..n]), Line(tag.0, tag.1, texts[n]), key);
      assert texts == texts[..n] + [texts[n]];
    }
  }

  function BufferAt(buffers: map<Key, Bytes>, key: Key): Bytes {
    if key in buffers then buffers[key] else ""
  }

  /** For one stream: the complete lines are printed, the rest is in the buffer. */
  predicate Assembled(lines: seq<Line>, buffers: map<Key, Bytes>, text: Bytes, key: Key) {
    Printed(lines, key) == CompleteLines(text) && BufferAt(buffers, key) == Rest(text)
  }

  ghost predicate AllAssembled(lines: seq<Line>, buffers: map<Key, Bytes>, input: seq<FleetOutput>) {
    forall key: Key :: Assembled(lines, buffers, Sent(input, key), key)
  }

  lemma OneTaken(key: Key, before: seq<Line>, taken: seq<Bytes>, line: Bytes, left: seq<Bytes>)
    ensures before + Tagged(key, taken) + [Line(key.0, key.1, line)] == before + Tagged(key, taken + [line])
    ensures taken + ([line] + left) == taken + [line] + left
  {
    assert Tagged(key, taken + [line]) == Tagged(key, taken) + [Line(key.0, key.1, line)];
  }

  /** Take every complete line off a buffer. */
  method TakeLines(key: Key, before: seq<Line>, buffer0: Bytes) returns (lines: seq<Line>, buffer: Bytes)
    ensures lines == before + Tagged(key, CompleteLines(buffer0))
    ensures buffer == Rest(buffer0)
  {
    lines, buffer := before, buffer0;
    ghost var taken: seq<Bytes> := [];
    while HasNewline(buffer)
      invariant lines == before + Tagged(key, taken)
      invariant taken + CompleteLines(buffer) == CompleteLines(buffer0) && Rest(buffer) == Rest(buffer0)
      decreases |buffer|
    {
      var (line, after) := SplitOnce(buffer);
      OneTaken(key, before, taken, line, CompleteLines(after));
      hide Tagged;
      lines := lines + [Line(key.0, key.1, line)];
      taken := taken + [line];
      buffer := after;
    }
    assert taken + [] == taken;
  }

  lemma ChunkAssembled(
    lines: seq<Line>, buffers: map<Key, Bytes>, input: seq<FleetOutput>, chunk: FleetOutput, buffer: Bytes, key: Key)
    requires AllAssembled(lines, buffers, input)
    requires buffer == BufferAt(buffers, (chunk.host, chunk.stderr)) + chunk.data
    ensures Assembled(lines + Tagged((chunk.host, chunk.stderr), CompleteLines(buffer)),
                      buffers[(chunk.host, chunk.stderr) := Rest(buffer)], Sent(input + [chunk], key), key)
  {
    var tag := (chunk.host, chunk.stderr);
    assert Assembled(lines, buffers, Sent(input, tag), tag) && Assembled(lines, buffers, Sent(input, key), key);
    SentSnoc(input, chunk, key);
    PrintedTagged(lines, tag, CompleteLines(buffer), key);
    if key == tag {
      LinesAppend(Sent(input, key), chunk.data);
    } else {
      assert Sent(input, key) + "" == Sent(input, key);
      assert Printed(lines, key) + [] == Printed(lines, key);
    }
    hide Sent, Printed, CompleteLines, Rest, Tagged;
  }

  lemma AllChunksAssembled(
    lines: seq<Line>, buffers: map<Key, Bytes>, input: seq<FleetOutput>, chunk: FleetOutput, buffer: Bytes)
    requires AllAssembled(lines, buffers, input)
    requires buffer == BufferAt(buffers, (chunk.host, chunk.stderr)) + chunk.data
    ensures AllAssembled(lines + Tagged((chunk.host, chunk.stderr), CompleteLines(buffer)),
                         buffers[(chunk.host, chunk.stderr) := Rest(buffer)], input + [chunk])
  {
    hide Assembled, Sent, CompleteLines, Rest, Tagged, BufferAt;
    forall key: Key {
      ChunkAssembled(lines, buffers, input, chunk, buffer, key);
    }
  }

  lemma LeftoverPrinted(lines: seq<Line>, buffers: map<Key, Bytes>, text: Bytes, tag: Key, key: Key)
    requires tag in buffers && (tag == key ==> buffers[tag] == Rest(text) && Printed(lines, key) == CompleteLines(text))
    ensures tag == key ==>
      Printed(if buffers[tag] != "" then lines + Tagged(tag, [buffers[tag]]) else lines, key) == SplitLines(text)
    ensures tag != key ==>
      Printed(if buffers[tag] != "" then lines + Tagged(tag, [buffers[tag]]) else lines, key) == Printed(lines, key)
  {
    PrintedTagged(lines, tag, [buffers[tag]], key);
    assert Printed(lines, key) + [] == Printed(lines, key);
  }

  /** A printed text is the lines of what each host sent. */
  ghost predicate Faithful(lines: seq<Line>, input: seq<FleetOutput>) {
    forall key: Key :: Printed(lines, key) == SplitLines(Sent(input, key))
  }

  /**
   `print_fleet_stream`: per host and stream exactly the lines of the bytes received, a last unfinished one
   included, in whatever order the leftovers of the hosts come.
   */
  method PrintFleet(input: seq<FleetOutput>) returns (lines: seq<Line>)
    ensures Faithful(lines, input)
  {
    lines := [];
    var buffers: map<Key, Bytes> := map[];
    var k := 0;
    while k < |input|
      invariant k <= |input| && AllAssembled(lines, buffers, input[..k])
    {
      var key := (input[k].host, input[k].stderr);
      var buffer := BufferAt(buffers, key) + input[k].data;
      assert input[..k + 1] == input[..k] + [input[k]];
      AllChunksAssembled(lines, buffers, input[..k], input[k], buffer);
      hide AllAssembled, Sent, CompleteLines, Rest, Tagged;
      lines, buffer := TakeLines(key, lines, buffer);
      buffers := buffers[key := buffer];
      k := k + 1;
    }
    assert input[..k] == input;
    lines := PrintLeftovers(lines, buffers, input);
  }

  /** The leftovers, in any order of the map. */
  method PrintLeftovers(before: seq<Line>, buffers: map<Key, Bytes>, ghost input: seq<FleetOutput>)
      returns (lines: seq<Line>)
    requires AllAssembled(before, buffers, input)
    ensures Faithful(lines, input)
  {
    lines := before;
    var left := buffers.Keys;
    NoneFlushed(before, buffers, input);
    hide Flushed;
    while left != {}
      invariant Flushed(lines, buffers, left, input)
      decreases |left|
    {
      var tag :| tag in left;
      OneFlushed(lines, buffers, left, input, tag);
      if buffers[tag] != "" { lines := lines + [Line(tag.0, tag.1, buffers[tag])]; }
      left := left - {tag};
    }
    AllFlushed(lines, buffers, input);
  }

  /** The leftovers of every stream but some have been printed. */
  ghost predicate Flushed(lines: seq<Line>, buffers: map<Key, Bytes>, left: set<Key>, input: seq<FleetOutput>) {
    && left <= buffers.Keys
    && forall key: Key ::
         if key in left then Printed(lines, key) == CompleteLines(Sent(input, key)) &&
             buffers[key] == Rest(Sent(input, key))
         else Printed(lines, key) == SplitLines(Sent(input, key))
  }

  lemma NoneFlushed(lines: seq<Line>, buffers: map<Key, Bytes>, input: seq<FleetOutput>)
    requires AllAssembled(lines, buffers, input)
    ensures Flushed(lines, buffers, buffers.Keys, input)
  {
    hide Printed, Sent, CompleteLines, Rest;
    forall key: Key
      ensures if key in buffers then Printed(lines, key) == CompleteLines(Sent(input, key)) &&
          buffers[key] == Rest(Sent(input, key))
              else Printed(lines, key) == SplitLines(Sent(input, key))
    {
      assert Assembled(lines, buffers, Sent(input, key), key);
      assert CompleteLines(Sent(input, key)) + [] == CompleteLines(Sent(input, key));
    }
  }

  lemma OneFlushed(lines: seq<Line>, buffers: map<Key, Bytes>, left: set<Key>, input: seq<FleetOutput>, tag: Key)
    requires Flushed(lines, buffers, left, input) && tag in left
    ensures var now := if buffers[tag] != "" then lines + [Line(tag.0, tag.1, buffers[tag])] else lines;
            Flushed(now, buffers, left - {tag}, input)
  {
    assert Tagged(tag, [buffers[tag]]) == [Line(tag.0, tag.1, buffers[tag])];
    hide Printed, Sent, CompleteLines, Rest, SplitLines, Tagged;
    forall key: Key {
      LeftoverPrinted(lines, buffers, Sent(input, key), tag, key);
    }
  }

  lemma AllFlushed(lines: seq<Line>, buffers: map<Key, Bytes>, input: seq<FleetOutput>)
    requires Flushed(lines, buffers, {}, input)
    ensures Faithful(lines, input)
  {
    hide Printed, Sent, CompleteLines, Rest, SplitLines;
  }

  /**
   From the host to the terminal. Whatever else was printed in between, and however the bytes travelled, what
   appears for a host is the lines of its standard output, and of its standard error behind the protocol line.
   */
  lemma StreamedLines(chunks: seq<StreamChunk>, host: string, forwarded: seq<FleetOutput>, input: seq<FleetOutput>,
      lines: seq<Line>)
    requires Sent(forwarded, (host, false)) == Stream(chunks, false)
    requires Sent(forwarded, (host, true)) == SplitOnce(Stream(chunks, true)).1
    requires FromHost(input, host) == forwarded && Faithful(lines, input)
    ensures Printed(lines, (host, false)) == SplitLines(Stream(chunks, false))
    ensures Printed(lines, (host, true)) == SplitLines(SplitOnce(Stream(chunks, true)).1)
  {
    SentFromHost(input, host, false);
    SentFromHost(input, host, true);
    hide Printed, SplitLines, Stream, SplitOnce, FromHost, Sent;
  }

  /** What one host put into the shared channel. */
  function FromHost(input: seq<FleetOutput>, host: string): seq<FleetOutput> {
    if input == [] then []
    else
      FromHost(input[..|input| - 1], host) + if input[|input| - 1].host == host then [input[|input| - 1]] else []
  }

  lemma {:induction false} SentFromHost(input: seq<FleetOutput>, host: string, stderr: bool)
    ensures Sent(FromHost(input, host), (host, stderr)) == Sent(input, (host, stderr))
  {
    if input != [] {
      var n := |input| - 1;
      SentFromHost(input[..n], host, stderr);
      SentSnoc(FromHost(input[..n], host), input[n], (host, stderr));
      assert FromHost(input[..n], host) + [] == FromHost(input[..n], host);
    }
  }
}
