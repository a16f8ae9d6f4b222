/** The exec-hop request: its JSON header, the length-prefixed frame, and how a header shrinks hop by hop. */
module Wire {
  import opened Wrappers
  import opened Text
  import opened Json
  import opened Fields

  const PROTOCOL_VERSION: u16 := 1
  const MAX_HEADER_BYTES: nat := 262144

  datatype HopTarget = HopTarget(target: Utf8, port: u16, password: Option<Utf8>)

  datatype ExecRequest = ExecRequest(
    version: u16,
    target: Utf8,
    targetPort: u16,
    command: Utf8,
    stdinBytes: u64,
    password: Option<Utf8>,
    tty: bool,
    remaining: seq<HopTarget>)

  datatype WireError =
    | UnsupportedVersion
    | LengthMismatch
    | HeaderTooLarge
    | InvalidLength
    | InvalidHeader
    | UnexpectedEof

  // ---------------------------------------------------------------- serde form of the request

  function PasswordField(password: Option<Utf8>): seq<Field> {
    if password.Some? then [Field("password", JStr(password.value))] else []
  }

  function HopFields(h: HopTarget): seq<Field> {
    [Field("target", JStr(h.target)), Field("port", JNum(h.port))] + PasswordField(h.password)
  }

  function HopsJson(hops: seq<HopTarget>): (items: seq<Json>)
    ensures |items| == |hops|
    ensures forall i :: 0 <= i < |hops| ==> items[i] == JObj(HopFields(hops[i]))
  {
    if hops == [] then [] else [JObj(HopFields(hops[0]))] + HopsJson(hops[1..])
  }

  function RequestFields(r: ExecRequest): seq<Field> {
    [Field("version", JNum(r.version)), Field("target", JStr(r.target)),
     Field("target_port", JNum(r.targetPort)), Field("command", JStr(r.command)),
     Field("stdin_bytes", JNum(r.stdinBytes))]
    + PasswordField(r.password)
    + [Field("tty", JBool(r.tty)), Field("remaining", JArr(HopsJson(r.remaining)))]
  }

  const HOP_KEYS := ["target", "port", "password"]
  const REQUEST_KEYS :=
    ["version", "target", "target_port", "command", "stdin_bytes", "password", "tty", "remaining"]

  function HopFromJson(v: Json): Option<HopTarget> {
    if !v.JObj? || !Known(v.fields, HOP_KEYS) || !NoRepeat(v.fields) then None
    else
      var target :- AsString(Lookup(v.fields, "target"));
      var port :- AsU16(Lookup(v.fields, "port"));
      var password :- AsOptionalString(Lookup(v.fields, "password"));
      Some(HopTarget(target, port, password))
  }

  function HopsFromJson(items: seq<Json>): Option<seq<HopTarget>> {
    if items == [] then Some([])
    else
      var first :- HopFromJson(items[0]);
      var rest :- HopsFromJson(items[1..]);
      Some([first] + rest)
  }

  function RequestFromJson(v: Json): Option<ExecRequest> {
    if !v.JObj? || !Known(v.fields, REQUEST_KEYS) || !NoRepeat(v.fields) then None
    else
      var version :- AsU16(Lookup(v.fields, "version"));
      var target :- AsString(Lookup(v.fields, "target"));
      var targetPort :- AsU16(Lookup(v.fields, "target_port"));
      var command :- AsString(Lookup(v.fields, "command"));
      var stdinBytes :- AsU64(Lookup(v.fields, "stdin_bytes"));
      var password :- AsOptionalString(Lookup(v.fields, "password"));
      var tty :- match Lookup(v.fields, "tty")
                 case None => Some(false)
                 case Some(JBool(b)) => Some(b)
                 case _ => None;
      var remaining :- match Lookup(v.fields, "remaining")
                       case None => Some([])
                       case Some(JArr(items)) => HopsFromJson(items)
                       case _ => None;
      Some(ExecRequest(version, target, targetPort, command, stdinBytes, password, tty, remaining))
  }

  lemma HopRoundTrip(h: HopTarget)
    ensures HopFromJson(JObj(HopFields(h))) == Some(h)
  {
    var f := HopFields(h);
    LookupFound(f, 0);
    LookupFound(f, 1);
    if h.password.Some? { LookupFound(f, 2); } else { LookupMissing(f, "password"); }
  }

  lemma {:induction false} HopsRoundTrip(hops: seq<HopTarget>)
    ensures HopsFromJson(HopsJson(hops)) == Some(hops)
  {
    hide HopFromJson;
    if hops != [] {
      HopRoundTrip(hops[0]);
      HopsRoundTrip(hops[1..]);
      assert [hops[0]] + hops[1..] == hops;
    }
  }

  lemma RequestNoRepeat(r: ExecRequest)
    ensures NoRepeat(RequestFields(r)) && Known(RequestFields(r), REQUEST_KEYS)
  {
    hide HopsJson;
    var f := RequestFields(r);
    var d := if r.password.Some? then 0 else 1;
    assert forall i :: 0 <= i < |f| ==> f[i].key == REQUEST_KEYS[if i < 5 then i else i + d];
    RequestKeysDistinct();
  }

  lemma RequestKeysDistinct()
    ensures forall i, j :: 0 <= i < j < |REQUEST_KEYS| ==> REQUEST_KEYS[i] != REQUEST_KEYS[j]
  {
    assert REQUEST_KEYS[0][0] == 'v' && REQUEST_KEYS[3][0] == 'c';
    assert REQUEST_KEYS[2][0] == 't' && REQUEST_KEYS[4][0] == 's';
    var lengths := [7, 6, 11, 7, 11, 8, 3, 9];
    assert forall i :: 0 <= i < 8 ==> |REQUEST_KEYS[i]| == lengths[i];
  }

  lemma RequestRoundTrip(r: ExecRequest)
    ensures RequestFromJson(JObj(RequestFields(r))) == Some(r)
  {
    hide HopsJson, HopsFromJson, NoRepeat, Known, Lookup;
    var f := RequestFields(r);
    RequestNoRepeat(r);
    LookupFound(f, 0);
    LookupFound(f, 1);
    LookupFound(f, 2);
    LookupFound(f, 3);
    LookupFound(f, 4);
    LookupFound(f, |f| - 2);
    LookupFound(f, |f| - 1);
    if r.password.Some? { LookupFound(f, 5); } else { LookupMissing(f, "password"); }
    HopsRoundTrip(r.remaining);
  }

  lemma KeysWellFormed()
    ensures forall i :: 0 <= i < |REQUEST_KEYS| ==> ValidUtf8(REQUEST_KEYS[i])
    ensures ValidUtf8("port")
  {
    hide ValidUtf8;
    forall i | 0 <= i < |REQUEST_KEYS| ensures ValidUtf8(REQUEST_KEYS[i]) {
      assert Ascii(REQUEST_KEYS[i]);
      AsciiIsUtf8(REQUEST_KEYS[i]);
    }
    AsciiIsUtf8("port");
  }

  lemma RequestWellFormed(r: ExecRequest)
    ensures WellFormed(JObj(RequestFields(r)))
  {
    hide ValidUtf8;
    KeysWellFormed();
    assert forall k: nat :: k < 8 ==> ValidUtf8(REQUEST_KEYS[k]);
    assert ValidUtf8(REQUEST_KEYS[0]) && ValidUtf8(REQUEST_KEYS[1]) && ValidUtf8(REQUEST_KEYS[2])
        && ValidUtf8(REQUEST_KEYS[3]) && ValidUtf8(REQUEST_KEYS[4]) && ValidUtf8(REQUEST_KEYS[5])
        && ValidUtf8(REQUEST_KEYS[6]) && ValidUtf8(REQUEST_KEYS[7]);
    forall i | 0 <= i < |r.remaining| ensures WellFormed(HopsJson(r.remaining)[i]) {
      var f := HopFields(r.remaining[i]);
      assert forall k :: 0 <= k < |f| ==> ValidUtf8(f[k].key) && WellFormed(f[k].value);
    }
    assert WellFormed(JArr(HopsJson(r.remaining)));
  }

  // ---------------------------------------------------------------- Header text and frame

  /** `serde_json::to_vec` of the request. */
  function HeaderText(r: ExecRequest): Bytes {
    Print(JObj(RequestFields(r)), Compact, 0)
  }

  function ParseHeader(header: Bytes): Result<ExecRequest, WireError> {
    match Parse(header)
    case None => Err(InvalidHeader)
    case Some(v) =>
      match RequestFromJson(v)
      case None => Err(InvalidHeader)
      case Some(r) => if r.version != PROTOCOL_VERSION then Err(UnsupportedVersion) else Ok(r)
  }

  lemma HeaderRoundTrip(r: ExecRequest)
    requires r.version == PROTOCOL_VERSION
    ensures ParseHeader(HeaderText(r)) == Ok(r)
    ensures |HeaderText(r)| > 0
  {
    hide Parse, Print, WellFormed, RequestFields, RequestFromJson;
    RequestWellFormed(r);
    PrintParse(JObj(RequestFields(r)), Compact);
    RequestRoundTrip(r);
    PrintHead(JObj(RequestFields(r)), Compact, 0);
  }

  /** `u32::to_be_bytes`. */
  function Be32(n: u32): (b: Bytes)
    ensures |b| == 4
  {
    [(n / 0x100_0000) as char, (n / 0x1_0000 % 0x100) as char, (n / 0x100 % 0x100) as char, (n % 0x100) as char]
  }

  function FromBe32(b: Bytes): nat
    requires |b| == 4
  {
    b[0] as nat * 0x100_0000 + b[1] as nat * 0x1_0000 + b[2] as nat * 0x100 + b[3] as nat
  }

  lemma Be32RoundTrip(n: u32)
    ensures FromBe32(Be32(n)) == n
  {
    var a, b, c := n / 0x100, n / 0x1_0000, n / 0x100_0000;
    assert b == a / 0x100 && c == b / 0x100;
    assert n == a * 0x100 + n % 0x100 && a == b * 0x100 + a % 0x100 && b == c * 0x100 + b % 0x100;
  }

  function EncodeRequestHeader(r: ExecRequest): Result<Bytes, WireError> {
    if r.version != PROTOCOL_VERSION then Err(UnsupportedVersion)
    else if |HeaderText(r)| > MAX_HEADER_BYTES then Err(HeaderTooLarge)
    else Ok(Be32(|HeaderText(r)|) + HeaderText(r))
  }

  /** `write_request` into an empty buffer: the version and payload checks come before the size check. */
  function EncodeRequest(r: ExecRequest, input: Bytes): Result<Bytes, WireError> {
    if r.version != PROTOCOL_VERSION then Err(UnsupportedVersion)
    else if r.stdinBytes != |input| then Err(LengthMismatch)
    else
      var frame :- EncodeRequestHeader(r);
      Ok(frame + input)
  }

  /** The header a reader takes from the front of `s`, and the unread rest. */
  function DecodeFrame(s: Bytes): Result<(ExecRequest, Bytes), WireError> {
    if |s| < 4 then Err(UnexpectedEof)
    else
      var n := FromBe32(s[..4]);
      if n == 0 || n > MAX_HEADER_BYTES then Err(InvalidLength)
      else if |s| < 4 + n then Err(UnexpectedEof)
      else
        var r :- ParseHeader(s[4..4 + n]);
        Ok((r, s[4 + n..]))
  }

  /** A frame of an accepted request is decoded to it, and reading stops exactly at what follows. */
  lemma FrameRoundTrip(r: ExecRequest, tail: Bytes)
    requires EncodeRequestHeader(r).Ok?
    ensures var frame := EncodeRequestHeader(r).value;
            && |frame| == 4 + |HeaderText(r)| && 0 < |HeaderText(r)| <= MAX_HEADER_BYTES
            && FromBe32(frame[..4]) == |HeaderText(r)|
            && frame[4..] == HeaderText(r)
            && DecodeFrame(frame + tail) == Ok((r, tail))
  {
    hide HeaderText, ParseHeader, Be32, FromBe32;
    var text := HeaderText(r);
    var s := Be32(|text|) + text + tail;
    assert s[..4] == Be32(|text|);
    assert (Be32(|text|) + text)[..4] == Be32(|text|);
    assert s[4..4 + |text|] == text;
    assert s[4 + |text|..] == tail;
    Be32RoundTrip(|text|);
    HeaderRoundTrip(r);
  }

  /** `read_request`: the header, then exactly `stdin_bytes` of payload. */
  function DecodeRequest(s: Bytes): Result<(ExecRequest, Bytes, Bytes), WireError> {
    var (r, rest) :- DecodeFrame(s);
    if |rest| < r.stdinBytes then Err(UnexpectedEof)
    else Ok((r, rest[..r.stdinBytes], rest[r.stdinBytes..]))
  }

  lemma RequestFrameRoundTrip(r: ExecRequest, input: Bytes, tail: Bytes)
    requires EncodeRequest(r, input).Ok?
    ensures DecodeRequest(EncodeRequest(r, input).value + tail) == Ok((r, input, tail))
  {
    var frame := EncodeRequestHeader(r).value;
    assert frame + input + tail == frame + (input + tail);
    FrameRoundTrip(r, input + tail);
    assert (input + tail)[..|input|] == input;
    assert (input + tail)[|input|..] == tail;
  }

  /** Encoding refuses exactly a wrong version, a payload of another length, or an oversized header. */
  lemma EncodeAccepts(r: ExecRequest, input: Bytes)
    ensures EncodeRequest(r, input).Ok? <==>
            r.version == PROTOCOL_VERSION && r.stdinBytes == |input| && |HeaderText(r)| <= MAX_HEADER_BYTES
  {
  }

  /** No frame is a prefix of another: the stream position after one request is never ambiguous. */
  lemma FramesPrefixFree(r1: ExecRequest, in1: Bytes, r2: ExecRequest, in2: Bytes)
    requires EncodeRequest(r1, in1).Ok? && EncodeRequest(r2, in2).Ok?
    requires EncodeRequest(r1, in1).value <= EncodeRequest(r2, in2).value
    ensures r1 == r2 && in1 == in2
  {
    hide EncodeRequest, DecodeRequest;
    var a, b := EncodeRequest(r1, in1).value, EncodeRequest(r2, in2).value;
    RequestFrameRoundTrip(r1, in1, b[|a|..]);
    RequestFrameRoundTrip(r2, in2, "");
    assert a + b[|a|..] == b == b + "";
  }

  // ---------------------------------------------------------------- Peeling one hop

  /** What a helper with hops left sends on: the next hop moves into the request's own slots. */
  function Peel(r: ExecRequest): ExecRequest
    requires r.remaining != []
  {
    r.(target := r.remaining[0].target, targetPort := r.remaining[0].port,
       password := r.remaining[0].password, remaining := r.remaining[1..])
  }

  function FieldSize(f: Field): nat {
    |PrintField(f, Compact, 1)| + 1
  }

  function PasswordSize(password: Option<Utf8>): nat {
    FieldsSize(PasswordField(password))
  }

  function HopsSize(hops: seq<HopTarget>): nat {
    |Print(JArr(HopsJson(hops)), Compact, 1)|
  }

  lemma HeaderSize(r: ExecRequest)
    ensures |HeaderText(r)| == 1
            + FieldSize(Field("version", JNum(r.version))) + FieldSize(Field("command", JStr(r.command)))
            + FieldSize(Field("stdin_bytes", JNum(r.stdinBytes))) + FieldSize(Field("tty", JBool(r.tty)))
            + FieldSize(Field("target", JStr(r.target))) + FieldSize(Field("target_port", JNum(r.targetPort)))
            + PasswordSize(r.password) + FieldSize(Field("remaining", JArr(HopsJson(r.remaining))))
  {
    hide Print, PrintField, HopsJson;
    var a := [Field("version", JNum(r.version)), Field("target", JStr(r.target)),
              Field("target_port", JNum(r.targetPort)), Field("command", JStr(r.command)),
              Field("stdin_bytes", JNum(r.stdinBytes))];
    var b := [Field("tty", JBool(r.tty)), Field("remaining", JArr(HopsJson(r.remaining)))];
    FieldsSizeAppend(a + PasswordField(r.password), b);
    FieldsSizeAppend(a, PasswordField(r.password));
    FiveFields(a);
    TwoFields(b);
    ObjectSize(RequestFields(r), 0);
  }

  lemma TwoFields(f: seq<Field>)
    requires |f| == 2
    ensures FieldsSize(f) == FieldSize(f[0]) + FieldSize(f[1])
  {
    hide PrintField;
    assert FieldsSize(f[1..]) == FieldSize(f[1]);
  }

  lemma FiveFields(f: seq<Field>)
    requires |f| == 5
    ensures FieldsSize(f) == FieldSize(f[0]) + FieldSize(f[1]) + FieldSize(f[2]) + FieldSize(f[3]) + FieldSize(f[4])
  {
    hide PrintField;
    assert f == [f[0]] + ([f[1]] + ([f[2]] + f[3..]));
    FieldsSizeAppend([f[0]], [f[1]] + ([f[2]] + f[3..]));
    FieldsSizeAppend([f[1]], [f[2]] + f[3..]);
    FieldsSizeAppend([f[2]], f[3..]);
    TwoFields(f[3..]);
  }

  lemma HopSize(h: HopTarget)
    ensures |Print(JObj(HopFields(h)), Compact, 1)| == 1
            + FieldSize(Field("target", JStr(h.target))) + FieldSize(Field("port", JNum(h.port)))
            + PasswordSize(h.password)
  {
    hide Print, PrintField;
    var a := [Field("target", JStr(h.target)), Field("port", JNum(h.port))];
    FieldsSizeAppend(a, PasswordField(h.password));
    TwoFields(a);
    ObjectSize(HopFields(h), 1);
  }

  lemma PeelRemaining(hops: seq<HopTarget>)
    requires hops != []
    ensures HopsSize(hops) >= HopsSize(hops[1..]) + |Print(JObj(HopFields(hops[0])), Compact, 1)|
  {
    hide Print;
    var items := HopsJson(hops);
    assert items == [JObj(HopFields(hops[0]))] + HopsJson(hops[1..]);
    assert items[1..] == HopsJson(hops[1..]);
    ArraySize(items, 1);
    ArraySize(items[1..], 1);
  }

  lemma FieldSizes(target: string, port: nat, hops: seq<HopTarget>)
    ensures FieldSize(Field("target", JStr(target))) == 10 + |Quote(target)|
    ensures FieldSize(Field("target_port", JNum(port))) == 15 + |Decimal(port)|
    ensures FieldSize(Field("port", JNum(port))) == 8 + |Decimal(port)|
    ensures FieldSize(Field("remaining", JArr(HopsJson(hops)))) == 13 + HopsSize(hops)
  {
    hide HopsJson, Escape, EscapeChar;
    PlainKey("target");
    PlainKey("target_port");
    PlainKey("port");
    PlainKey("remaining");
    assert Print(JStr(target), Compact, 1) == Quote(target);
    assert Print(JNum(port), Compact, 1) == Decimal(port);
  }

  lemma PlainKey(key: string)
    requires forall i :: 0 <= i < |key| ==> '_' <= key[i] <= 'z'
    ensures |Quote(key)| == |key| + 2
  {
    EscapePlain(key);
  }

  lemma {:induction false} EscapePlain(s: string)
    requires forall i :: 0 <= i < |s| ==> EscapeChar(s[i]) == [s[i]]
    ensures Escape(s) == s
  {
    if s != "" {
      EscapePlain(s[1..]);
      assert [s[0]] + s[1..] == s;
    }
  }

  /**
   Header shrinkage: with the bytes of the old target, port and password freed and one array element gone,
   the header of the next hop is strictly shorter.
   */
  lemma PeelShrinks(r: ExecRequest)
    requires r.remaining != []
    ensures |HeaderText(Peel(r))| < |HeaderText(r)|
  {
    hide HeaderText, FieldSize, HopsJson, PasswordSize, HopsSize, Print;
    var h := r.remaining[0];
    HeaderSize(r);
    HeaderSize(Peel(r));
    HopSize(h);
    PeelRemaining(r.remaining);
    FieldSizes(r.target, r.targetPort, r.remaining);
    FieldSizes(h.target, h.port, r.remaining[1..]);
  }

  /** The request the helper at position `i` of the route reads. */
  function HopRequest(r: ExecRequest, i: nat): (q: ExecRequest)
    requires i <= |r.remaining|
    ensures q.remaining == r.remaining[i..]
    ensures q.version == r.version && q.command == r.command && q.stdinBytes == r.stdinBytes && q.tty == r.tty
    ensures i == 0 ==> q == r
    ensures i > 0 ==> q.target == r.remaining[i - 1].target && q.targetPort == r.remaining[i - 1].port
                      && q.password == r.remaining[i - 1].password
  {
    if i == 0 then r else Peel(HopRequest(r, i - 1))
  }

  /** A request the client can encode is encodable at every later hop, each time strictly shorter. */
  lemma {:induction false} LaterHopsFit(r: ExecRequest, i: nat)
    requires i <= |r.remaining| && EncodeRequestHeader(r).Ok?
    ensures EncodeRequestHeader(HopRequest(r, i)).Ok?
    ensures i > 0 ==> |HeaderText(HopRequest(r, i))| < |HeaderText(HopRequest(r, i - 1))|
  {
    hide HeaderText;
    if i > 0 {
      LaterHopsFit(r, i - 1);
      PeelShrinks(HopRequest(r, i - 1));
    }
  }
}
