/**
 The sequential loops of the hop helper over a byte source that delivers its data in chunks of its own
 choosing: exact reads, request headers, the counted feeder of the last helper and the copy-all feeder of
 a relaying helper.
 */
module Streams {
  import opened Wrappers
  import opened Text
  import opened Wire

  const BUFFER_BYTES: nat := 65536

  class ByteSource {
    var unread: Bytes

    constructor (data: Bytes)
      ensures unread == data
    {
      unread := data;
    }

    /** One `read`: any non-empty chunk that fits the buffer, or nothing at end of file. */
    method Read(limit: nat) returns (chunk: Bytes)
      requires limit > 0
      modifies this
      ensures old(unread) == chunk + unread
      ensures |chunk| <= limit
      ensures chunk == "" <==> old(unread) == ""
    {
      if unread == "" {
        chunk := "";
      } else {
        var n: nat :| 1 <= n <= limit && n <= |unread|;
        chunk := unread[..n];
        unread := unread[n..];
      }
    }

    method ReadExact(n: nat) returns (r: Option<Bytes>)
      modifies this
      ensures n <= |old(unread)| ==> r == Some(old(unread)[..n]) && unread == old(unread)[n..]
      ensures n > |old(unread)| ==> r == None && unread == ""
    {
      var got: Bytes := "";
      while |got| < n
        invariant |got| <= n
        invariant old(unread) == got + unread
        decreases n - |got|
      {
        var chunk := Read(n - |got|);
        if chunk == "" {
          return None;
        }
        got := got + chunk;
      }
      return Some(got);
    }
  }

  method ReadRequestHeader(reader: ByteSource) returns (r: Result<ExecRequest, WireError>)
    modifies reader
    ensures match DecodeFrame(old(reader.unread))
            case Ok((request, rest)) => r == Ok(request) && reader.unread == rest
            case Err(error) => r == Err(error)
  {
    hide ParseHeader;
    ghost var whole := reader.unread;
    var length := reader.ReadExact(4);
    if length == None {
      return Err(UnexpectedEof);
    }
    var n := FromBe32(length.value);
    if n == 0 || n > MAX_HEADER_BYTES {
      return Err(InvalidLength);
    }
    var header := reader.ReadExact(n);
    if header == None {
      return Err(UnexpectedEof);
    }
    assert header.value == whole[4..4 + n] && reader.unread == whole[4 + n..];
    r := ParseHeader(header.value);
  }

  method ReadRequest(reader: ByteSource) returns (r: Result<(ExecRequest, Bytes), WireError>)
    modifies reader
    ensures match DecodeRequest(old(reader.unread))
            case Ok((request, input, rest)) => r == Ok((request, input)) && reader.unread == rest
            case Err(error) => r == Err(error)
  {
    var request := ReadRequestHeader(reader);
    if request.Err? {
      return Err(request.error);
    }
    var input := reader.ReadExact(request.value.stdinBytes);
    if input == None {
      return Err(UnexpectedEof);
    }
    return Ok((request.value, input.value));
  }

  /** Chunks as they enter the stdin channel: data never empty, then one empty end marker. */
  predicate WellMarked(chunks: seq<Bytes>) {
    chunks != [] && chunks[|chunks| - 1] == "" &&
    forall i :: 0 <= i < |chunks| - 1 ==> chunks[i] != ""
  }

  /** The channel to the remote process. Its receiver may go away when the process ends; a send then fails. */
  class StdinChannel {
    const closesAfter: Option<nat>
    var taken: seq<Bytes>

    constructor (closesAfter: Option<nat>)
      ensures this.closesAfter == closesAfter && taken == []
    {
      this.closesAfter, taken := closesAfter, [];
    }

    predicate Open()
      reads this
    {
      closesAfter == None || |taken| < closesAfter.value
    }

    method Send(chunk: Bytes) returns (ok: bool)
      modifies this
      ensures ok == old(Open()) && taken == if ok then old(taken) + [chunk] else old(taken)
    {
      ok := Open();
      if ok { taken := taken + [chunk]; }
    }
  }

  datatype FeedEnd = AllSent | EndedEarly | ChannelClosed

  /** Only data so far: no end marker. */
  predicate OnlyData(chunks: seq<Bytes>) {
    forall i :: 0 <= i < |chunks| ==> chunks[i] != ""
  }

  /** The marker at the end is sent without looking whether anyone still listens. */
  method SendEnd(channel: StdinChannel)
    requires OnlyData(channel.taken)
    modifies channel
    ensures Flatten(channel.taken) == Flatten(old(channel.taken))
    ensures old(channel.Open()) ==> WellMarked(channel.taken)
    ensures !old(channel.Open()) ==> channel.taken == old(channel.taken)
  {
    FlattenSnoc(channel.taken, "");
    var listened := channel.Send("");
  }

  /**
   Feeder of the last helper: exactly `inputBytes` bytes, whatever the chunking. It fails when standard input
   ends before them, or when the channel closes before it has taken them.
   */
  method FeedCounted(stdin: ByteSource, inputBytes: nat, channel: StdinChannel) returns (r: FeedEnd)
    requires channel.taken == []
    modifies stdin, channel
    ensures Flatten(channel.taken) <= old(stdin.unread)
    ensures r.AllSent? ==>
      && inputBytes <= |old(stdin.unread)| && Flatten(channel.taken) == old(stdin.unread)[..inputBytes]
      && stdin.unread == old(stdin.unread)[inputBytes..]
    ensures r.AllSent? ==> WellMarked(channel.taken) || !channel.Open()
    ensures r.EndedEarly? ==>
      |old(stdin.unread)| < inputBytes && Flatten(channel.taken) == old(stdin.unread) && stdin.unread == ""
    ensures r.ChannelClosed? ==>
      !channel.Open() && |Flatten(channel.taken)| < inputBytes && |Flatten(channel.taken)| < |old(stdin.unread)|
  {
    var remaining: nat := inputBytes;
    ghost var whole := stdin.unread;
    hide Flatten, Forwarded;
    StartForward(whole);
    while remaining > 0
      invariant remaining <= inputBytes && Forwarded(whole, channel.taken, stdin.unread)
      invariant |Flatten(channel.taken)| == inputBytes - remaining
      decreases remaining
    {
      var wanted := if remaining < BUFFER_BYTES then remaining else BUFFER_BYTES;
      var chunk := stdin.Read(wanted);
      ForwardedParts(whole, channel.taken, chunk + stdin.unread);
      if chunk == "" { return EndedEarly; }
      Forward(whole, channel.taken, chunk, stdin.unread);
      var ok := channel.Send(chunk);
      if !ok { return ChannelClosed; }
      remaining := remaining - |chunk|;
    }
    ForwardedParts(whole, channel.taken, stdin.unread);
    SendEnd(channel);
    return AllSent;
  }

  /** What was read is in the channel, chunk by chunk, in front of what is still to be read. */
  predicate Forwarded(whole: Bytes, taken: seq<Bytes>, unread: Bytes) {
    whole == Flatten(taken) + unread && OnlyData(taken)
  }

  lemma StartForward(whole: Bytes)
    ensures Forwarded(whole, [], whole) && Flatten([]) == ""
  {
  }

  lemma Forward(whole: Bytes, taken: seq<Bytes>, chunk: Bytes, unread: Bytes)
    requires Forwarded(whole, taken, chunk + unread) && chunk != ""
    ensures Forwarded(whole, taken + [chunk], unread) && |Flatten(taken + [chunk])| == |Flatten(taken)| + |chunk|
  {
    FlattenSnoc(taken, chunk);
    hide Flatten;
    assert Flatten(taken) + (chunk + unread) == (Flatten(taken) + chunk) + unread;
  }

  lemma ForwardedParts(whole: Bytes, taken: seq<Bytes>, unread: Bytes)
    requires Forwarded(whole, taken, unread)
    ensures OnlyData(taken) && Flatten(taken) <= whole && |whole| == |Flatten(taken)| + |unread|
    ensures Flatten(taken) == whole[..|Flatten(taken)|] && unread == whole[|Flatten(taken)|..]
  {
    hide Flatten;
  }

  /** Feeder of a relaying helper: the re-encoded header, then standard input until it ends or nobody listens. */
  method FeedAll(header: Bytes, stdin: ByteSource, channel: StdinChannel) returns (r: FeedEnd)
    requires channel.taken == []
    modifies stdin, channel
    ensures !r.EndedEarly?
    ensures Flatten(channel.taken) <= header + old(stdin.unread)
    ensures r.AllSent? ==>
      && Flatten(channel.taken) == header + old(stdin.unread) && stdin.unread == ""
      && (WellMarked(channel.taken) || !channel.Open())
    ensures r.ChannelClosed? ==> !channel.Open() && |Flatten(channel.taken)| < |header + old(stdin.unread)|
  {
    if header != "" {
      FlattenSnoc([], header);
      var ok := channel.Send(header);
      if !ok { return ChannelClosed; }
    }
    while true
      invariant header + old(stdin.unread) == Flatten(channel.taken) + stdin.unread
      invariant OnlyData(channel.taken)
      decreases |stdin.unread|
    {
      var chunk := stdin.Read(BUFFER_BYTES);
      if chunk == "" { break; }
      FlattenSnoc(channel.taken, chunk);
      var ok := channel.Send(chunk);
      if !ok { return ChannelClosed; }
    }
    SendEnd(channel);
    return AllSent;
  }
}
