/**
 RFC 8259 text as serde_json writes and reads it: compact and two-space pretty printers, and one parser
 that skips insignificant whitespace (section 2), decodes string escapes (section 7) and rejects
 duplicates of nothing but malformed text; typed checks are left to the callers. Strings are UTF-8 byte
 strings, as Rust's `String` is.
 */
module Json {
  import opened Wrappers
  import opened Text

  datatype Json =
    | JNull
    | JBool(b: bool)
    | JNum(n: nat)
    | JStr(s: string)
    | JArr(items: seq<Json>)
    | JObj(fields: seq<Field>)

  datatype Field = Field(key: string, value: Json)

  datatype Style = Compact | Pretty

  type Parsed<+T> = Option<(T, string)>

  // ---------------------------------------------------------------- UTF-8 (RFC 3629, section 4)

  predicate ByteIn(s: string, k: nat, low: int, high: int) {
    k < |s| && low <= s[k] as int <= high
  }

  predicate Tail(s: string, k: nat) {
    ByteIn(s, k, 0x80, 0xBF)
  }

  /** Length of the well-formed sequence that starts `s`, or 0 when there is none. */
  function LeadLength(s: string): (n: nat)
    ensures n <= |s|
  {
    if ByteIn(s, 0, 0, 0x7F) then 1
    else if ByteIn(s, 0, 0xC2, 0xDF) && Tail(s, 1) then 2
    else if ByteIn(s, 0, 0xE0, 0xE0) && ByteIn(s, 1, 0xA0, 0xBF) && Tail(s, 2) then 3
    else if ByteIn(s, 0, 0xED, 0xED) && ByteIn(s, 1, 0x80, 0x9F) && Tail(s, 2) then 3
    else if ByteIn(s, 0, 0xE1, 0xEF) && s[0] as int != 0xED && Tail(s, 1) && Tail(s, 2) then 3
    else if ByteIn(s, 0, 0xF0, 0xF0) && ByteIn(s, 1, 0x90, 0xBF) && Tail(s, 2) && Tail(s, 3) then 4
    else if ByteIn(s, 0, 0xF1, 0xF3) && Tail(s, 1) && Tail(s, 2) && Tail(s, 3) then 4
    else if ByteIn(s, 0, 0xF4, 0xF4) && ByteIn(s, 1, 0x80, 0x8F) && Tail(s, 2) && Tail(s, 3) then 4
    else 0
  }

  predicate ValidUtf8(s: string) {
    s == "" || (LeadLength(s) > 0 && ValidUtf8(s[LeadLength(s)..]))
  }

  predicate Ascii(s: string) {
    forall i :: 0 <= i < |s| ==> s[i] as int < 0x80
  }

  lemma {:induction false} AsciiIsUtf8(s: string)
    requires Ascii(s)
    ensures ValidUtf8(s)
  {
    if s != "" {
      AsciiIsUtf8(s[1..]);
    }
  }

  function EncodeUtf8(cp: nat): string
    requires cp <= 0x10FFFF
  {
    if cp < 0x80 then [cp as char]
    else if cp < 0x800 then [(0xC0 + cp / 64) as char, (0x80 + cp % 64) as char]
    else if cp < 0x10000 then
      [(0xE0 + cp / 4096) as char, (0x80 + cp / 64 % 64) as char, (0x80 + cp % 64) as char]
    else
      [(0xF0 + cp / 262144) as char, (0x80 + cp / 4096 % 64) as char,
       (0x80 + cp / 64 % 64) as char, (0x80 + cp % 64) as char]
  }

  // ---------------------------------------------------------------- Printing

  function HexDigit(n: nat): char
    requires n < 16
  {
    if n < 10 then '0' + n as char else 'a' + (n - 10) as char
  }

  function EscapeChar(c: char): (e: string)
    ensures e != ""
  {
    if c == '"' then "\\\""
    else if c == '\\' then "\\\\"
    else if c as int == 8 then "\\b"
    else if c as int == 9 then "\\t"
    else if c as int == 10 then "\\n"
    else if c as int == 12 then "\\f"
    else if c as int == 13 then "\\r"
    else if c as int < 32 then ['\\', 'u', '0', '0', HexDigit(c as int / 16), HexDigit(c as int % 16)]
    else [c]
  }

  function Escape(s: string): string {
    if s == "" then "" else EscapeChar(s[0]) + Escape(s[1..])
  }

  function Quote(s: string): string {
    "\"" + Escape(s) + "\""
  }

  function Spaces(n: nat): string {
    seq(n, _ => ' ')
  }

  function Break(style: Style, depth: nat): string {
    if style.Compact? then "" else "\n" + Spaces(2 * depth)
  }

  function Colon(style: Style): string {
    if style.Compact? then ":" else ": "
  }

  function Print(v: Json, style: Style, depth: nat): (text: string)
    decreases v, 1
  {
    match v
    case JNull => "null"
    case JBool(b) => if b then "true" else "false"
    case JNum(n) => Decimal(n)
    case JStr(s) => Quote(s)
    case JArr(items) =>
      if items == [] then "[]"
      else "[" + PrintItems(items, style, depth + 1) + Break(style, depth) + "]"
    case JObj(fields) =>
      if fields == [] then "{}"
      else "{" + PrintFields(fields, style, depth + 1) + Break(style, depth) + "}"
  }

  function PrintItems(items: seq<Json>, style: Style, depth: nat): string
    requires items != []
    decreases items, 0
  {
    Break(style, depth) + Print(items[0], style, depth) +
    if |items| == 1 then "" else "," + PrintItems(items[1..], style, depth)
  }

  function PrintField(f: Field, style: Style, depth: nat): string
    decreases f, 0
  {
    Quote(f.key) + Colon(style) + Print(f.value, style, depth)
  }

  function PrintFields(fields: seq<Field>, style: Style, depth: nat): string
    requires fields != []
    decreases fields, 0
  {
    Break(style, depth) + PrintField(fields[0], style, depth) +
    if |fields| == 1 then "" else "," + PrintFields(fields[1..], style, depth)
  }

  // ---------------------------------------------------------------- Parsing

  predicate IsSpace(c: char) {
    c == ' ' || c == '\t' || c == '\n' || c == '\r'
  }

  function SkipSpace(s: string): (rest: string)
    ensures |rest| <= |s|
    ensures rest != "" ==> !IsSpace(rest[0])
  {
    if s != "" && IsSpace(s[0]) then SkipSpace(s[1..]) else s
  }

  function HexValue(c: char): (r: Option<nat>)
    ensures r.Some? ==> r.value < 16
  {
    if IsDigit(c) then Some((c - '0') as nat)
    else if 'a' <= c <= 'f' then Some((c - 'a') as nat + 10)
    else if 'A' <= c <= 'F' then Some((c - 'A') as nat + 10)
    else None
  }

  function Hex4(s: string): (r: Option<nat>)
    ensures r.Some? ==> |s| >= 4 && r.value < 0x10000
  {
    if |s| < 4 then None
    else
      var a :- HexValue(s[0]);
      var b :- HexValue(s[1]);
      var c :- HexValue(s[2]);
      var d :- HexValue(s[3]);
      Some(4096 * a + 256 * b + 16 * c + d)
  }

  /** The characters denoted by the escape whose text follows a backslash. */
  function Unescape(s: string): (r: Parsed<string>)
    ensures r.Some? ==> |r.value.1| < |s|
  {
    if s == "" then None
    else if s[0] == '"' || s[0] == '\\' || s[0] == '/' then Some(([s[0]], s[1..]))
    else if s[0] == 'b' then Some(([8 as char], s[1..]))
    else if s[0] == 't' then Some(([9 as char], s[1..]))
    else if s[0] == 'n' then Some(([10 as char], s[1..]))
    else if s[0] == 'f' then Some(([12 as char], s[1..]))
    else if s[0] == 'r' then Some(([13 as char], s[1..]))
    else if s[0] != 'u' then None
    else
      var high :- Hex4(s[1..]);
      if 0xD800 <= high < 0xDC00 then
        if |s| < 7 || s[5] != '\\' || s[6] != 'u' then None
        else
          var low :- Hex4(s[7..]);
          if 0xDC00 <= low < 0xE000
          then Some((EncodeUtf8(0x10000 + 1024 * (high - 0xD800) + (low - 0xDC00)), s[11..]))
          else None
      else if 0xDC00 <= high < 0xE000 then None
      else Some((EncodeUtf8(high), s[5..]))
  }

  /** The rest of a string whose opening quote has been consumed. */
  function ParseChars(s: string): (r: Parsed<string>)
    ensures r.Some? ==> |r.value.1| < |s|
    decreases |s|
  {
    if s == "" then None
    else if s[0] == '"' then Some(("", s[1..]))
    else if s[0] == '\\' then
      var (chars, rest) :- Unescape(s[1..]);
      var (more, rest') :- ParseChars(rest);
      Some((chars + more, rest'))
    else if s[0] as int < 32 then None
    else
      var (more, rest) :- ParseChars(s[1..]);
      Some(([s[0]] + more, rest))
  }

  function ParseString(s: string): (r: Parsed<string>)
    ensures r.Some? ==> |r.value.1| < |s|
  {
    var (chars, rest) :- ParseChars(s);
    if ValidUtf8(chars) then Some((chars, rest)) else None
  }

  function SpanDigits(s: string): (n: nat)
    ensures n <= |s| && AllDigits(s[..n])
    ensures n < |s| ==> !IsDigit(s[n])
  {
    if s == "" || !IsDigit(s[0]) then 0 else 1 + SpanDigits(s[1..])
  }

  function ParseNumber(s: string): (r: Parsed<Json>)
    requires s != "" && IsDigit(s[0])
    ensures r.Some? ==> |r.value.1| < |s|
  {
    var n := SpanDigits(s);
    assert n > 0;
    if n > 1 && s[0] == '0' then None else Some((JNum(DigitsValue(s[..n])), s[n..]))
  }

  function ParseWord(s: string, word: string, v: Json): (r: Parsed<Json>)
    requires word != ""
    ensures r.Some? ==> |r.value.1| < |s|
  {
    if word <= s then Some((v, s[|word|..])) else None
  }

  function ParseValue(s: string): (r: Parsed<Json>)
    ensures r.Some? ==> |r.value.1| < |s|
    decreases |s|, 0
  {
    var t := SkipSpace(s);
    if t == "" then None
    else if t[0] == 'n' then ParseWord(t, "null", JNull)
    else if t[0] == 't' then ParseWord(t, "true", JBool(true))
    else if t[0] == 'f' then ParseWord(t, "false", JBool(false))
    else if IsDigit(t[0]) then ParseNumber(t)
    else if t[0] == '"' then
      var (chars, rest) :- ParseString(t[1..]);
      Some((JStr(chars), rest))
    else if t[0] == '[' then
      var u := SkipSpace(t[1..]);
      if u != "" && u[0] == ']' then Some((JArr([]), u[1..]))
      else
        var (items, rest) :- ParseItems(t[1..]);
        Some((JArr(items), rest))
    else if t[0] == '{' then
      var u := SkipSpace(t[1..]);
      if u != "" && u[0] == '}' then Some((JObj([]), u[1..]))
      else
        var (fields, rest) :- ParseFields(t[1..]);
        Some((JObj(fields), rest))
    else None
  }

  function ParseItems(s: string): (r: Parsed<seq<Json>>)
    ensures r.Some? ==> |r.value.1| < |s|
    decreases |s|, 1
  {
    var (v, rest) :- ParseValue(s);
    var t := SkipSpace(rest);
    if t == "" then None
    else if t[0] == ']' then Some(([v], t[1..]))
    else if t[0] == ',' then
      var (more, rest') :- ParseItems(t[1..]);
      Some(([v] + more, rest'))
    else None
  }

  function ParseFields(s: string): (r: Parsed<seq<Field>>)
    ensures r.Some? ==> |r.value.1| < |s|
    decreases |s|, 1
  {
    var t := SkipSpace(s);
    if t == "" || t[0] != '"' then None
    else
      var (key, rest) :- ParseString(t[1..]);
      var u := SkipSpace(rest);
      if u == "" || u[0] != ':' then None
      else
        var (v, rest') :- ParseValue(u[1..]);
        var w := SkipSpace(rest');
        if w == "" then None
        else if w[0] == '}' then Some(([Field(key, v)], w[1..]))
        else if w[0] == ',' then
          var (more, rest'') :- ParseFields(w[1..]);
          Some(([Field(key, v)] + more, rest''))
        else None
  }

  /** `serde_json::from_slice` up to typing: one value, then only whitespace; what it builds of it is another matter. */
  function Parse(s: string): Option<Json> {
    var (v, rest) :- ParseValue(s);
    if SkipSpace(rest) == "" then Some(v) else None
  }

  // ---------------------------------------------------------------- Round trip

  /** Every string inside is a Rust `String`. */
  predicate WellFormed(v: Json) {
    match v
    case JStr(s) => ValidUtf8(s)
    case JArr(items) => forall i :: 0 <= i < |items| ==> WellFormed(items[i])
    case JObj(fields) =>
      forall i :: 0 <= i < |fields| ==> ValidUtf8(fields[i].key) && WellFormed(fields[i].value)
    case _ => true
  }

  predicate AllSpace(s: string) {
    forall i :: 0 <= i < |s| ==> IsSpace(s[i])
  }

  lemma {:induction false} SkipLead(lead: string, s: string)
    requires AllSpace(lead)
    ensures SkipSpace(lead + s) == SkipSpace(s)
  {
    if lead == "" {
      assert lead + s == s;
    } else {
      assert (lead + s)[1..] == lead[1..] + s;
      SkipLead(lead[1..], s);
    }
  }

  lemma EscapeCharRoundTrip(c: char, more: string)
    requires EscapeChar(c)[0] == '\\'
    ensures Unescape(EscapeChar(c)[1..] + more) == Some(([c], more))
  {
    var e := EscapeChar(c);
    var t := e[1..] + more;
    if |e| == 2 {
      assert t[1..] == more;
    } else {
      var h := t[1..];
      assert h[0] == '0' && h[1] == '0' && h[2] == e[4] && h[3] == e[5];
      assert Hex4(h) == Some(c as nat);
      assert t[5..] == more;
    }
  }

  lemma EscapedCharFirst(c: char, more: string, rest: string, tail: string)
    requires ParseChars(more) == Some((rest, tail))
    ensures ParseChars(EscapeChar(c) + more) == Some(([c] + rest, tail))
  {
    var e := EscapeChar(c);
    var whole := e + more;
    assert whole[|e|..] == more && whole[1..] == e[1..] + more;
    if e[0] == '\\' {
      EscapeCharRoundTrip(c, more);
      hide Unescape;
    }
  }

  lemma {:induction false} EscapeRoundTrip(s: string, tail: string)
    ensures ParseChars(Escape(s) + "\"" + tail) == Some((s, tail))
  {
    if s == "" {
      assert Escape(s) + "\"" + tail == "\"" + tail;
    } else {
      var e, more := EscapeChar(s[0]), Escape(s[1..]) + "\"" + tail;
      EscapeRoundTrip(s[1..], tail);
      assert Escape(s) + "\"" + tail == e + more;
      EscapedCharFirst(s[0], more, s[1..], tail);
      assert [s[0]] + s[1..] == s;
    }
  }

  lemma StringRoundTrip(s: string, tail: string)
    requires ValidUtf8(s)
    ensures (Quote(s) + tail)[0] == '"'
    ensures ParseString((Quote(s) + tail)[1..]) == Some((s, tail))
  {
    hide ValidUtf8, LeadLength, Escape, ParseChars;
    EscapeRoundTrip(s, tail);
    assert (Quote(s) + tail)[1..] == Escape(s) + "\"" + tail;
  }

  lemma {:induction false} SpanAll(d: string, tail: string)
    requires AllDigits(d)
    requires tail != "" ==> !IsDigit(tail[0])
    ensures SpanDigits(d + tail) == |d|
  {
    if d != "" {
      assert (d + tail)[1..] == d[1..] + tail;
      SpanAll(d[1..], tail);
    }
  }

  lemma NumberRoundTrip(n: nat, tail: string)
    requires tail != "" ==> !IsDigit(tail[0])
    ensures ParseNumber(Decimal(n) + tail) == Some((JNum(n), tail))
  {
    var d := Decimal(n);
    SpanAll(d, tail);
    DecimalValue(n);
    assert (d + tail)[..|d|] == d;
    assert (d + tail)[|d|..] == tail;
  }

  /** Text after a value: anything that does not prolong a number. */
  predicate Stops(tail: string) {
    tail != "" ==> !IsDigit(tail[0])
  }

  lemma PrintHead(v: Json, style: Style, depth: nat)
    ensures var p := Print(v, style, depth);
            p != "" && !IsSpace(p[0]) && p[0] != ']' && p[0] != '}' && p[0] != ',' && p[0] != ':'
  {
  }

  lemma Assoc(a: string, b: string, c: string, d: string)
    ensures (a + b + c) + d == a + (b + (c + d))
    ensures (a + b + c) + d == a + b + (c + d)
  {
  }

  /** The part of an array or object that follows its last element. */
  function Closing(end: string, bracket: string, tail: string): string {
    end + (bracket + tail)
  }

  lemma ScalarRoundTrip(v: Json, style: Style, depth: nat, tail: string)
    requires WellFormed(v) && !v.JArr? && !v.JObj? && Stops(tail)
    ensures ParseValue(Print(v, style, depth) + tail) == Some((v, tail))
  {
    hide ValidUtf8, LeadLength, Escape, ParseChars, ParseItems, ParseFields, Decimal, ParseNumber, ParseString;
    var p := Print(v, style, depth);
    var t := p + tail;
    assert SkipSpace(t) == t;
    match v {
      case JNull => assert t[4..] == tail;
      case JBool(b) => assert t[|p|..] == tail;
      case JNum(n) => NumberRoundTrip(n, tail);
      case JStr(s) => StringRoundTrip(s, tail);
    }
  }

  lemma ArrayStep(items: seq<Json>, body: string, tail: string)
    requires items != [] ==> ParseItems(body) == Some((items, tail))
    requires items != [] ==> SkipSpace(body) != "" && SkipSpace(body)[0] != ']'
    requires items == [] ==> body == "]" + tail
    ensures ParseValue("[" + body) == Some((JArr(items), tail))
  {
    hide ParseItems, ParseFields;
    var t := "[" + body;
    assert SkipSpace(t) == t;
    assert t[1..] == body;
    if items == [] {
      assert body[1..] == tail;
    }
  }

  lemma ObjectStep(fields: seq<Field>, body: string, tail: string)
    requires fields != [] ==> ParseFields(body) == Some((fields, tail))
    requires fields != [] ==> SkipSpace(body) != "" && SkipSpace(body)[0] != '}'
    requires fields == [] ==> body == "}" + tail
    ensures ParseValue("{" + body) == Some((JObj(fields), tail))
  {
    hide ParseItems, ParseFields;
    var t := "{" + body;
    assert SkipSpace(t) == t;
    assert t[1..] == body;
    if fields == [] {
      assert body[1..] == tail;
    }
  }

  lemma {:induction false} ValueRoundTrip(v: Json, style: Style, depth: nat, tail: string)
    requires WellFormed(v) && Stops(tail)
    ensures ParseValue(Print(v, style, depth) + tail) == Some((v, tail))
    decreases v, 1
  {
    hide ValidUtf8, ParseValue, ParseItems, ParseFields, PrintItems, PrintFields, SkipSpace, Break;
    var text := Print(v, style, depth) + tail;
    match v {
      case JArr(items) =>
        if items == [] {
          assert text == "[" + ("]" + tail);
          ArrayStep(items, "]" + tail, tail);
        } else {
          var body := PrintItems(items, style, depth + 1) + Closing(Break(style, depth), "]", tail);
          assert text == "[" + body;
          BreakIsSpace(style, depth);
          ItemsRoundTrip(items, style, depth + 1, Break(style, depth), tail);
          ArrayStep(items, body, tail);
        }
      case JObj(fields) =>
        if fields == [] {
          assert text == "{" + ("}" + tail);
          ObjectStep(fields, "}" + tail, tail);
        } else {
          var body := PrintFields(fields, style, depth + 1) + Closing(Break(style, depth), "}", tail);
          assert text == "{" + body;
          BreakIsSpace(style, depth);
          FieldsRoundTrip(fields, style, depth + 1, Break(style, depth), tail);
          ObjectStep(fields, body, tail);
        }
      case _ => ScalarRoundTrip(v, style, depth, tail);
    }
  }

  lemma ParseValueLead(lead: string, s: string)
    requires AllSpace(lead)
    ensures ParseValue(lead + s) == ParseValue(s)
  {
    hide ParseItems, ParseFields, ParseString, ParseNumber;
    SkipLead(lead, s);
  }

  lemma BreakIsSpace(style: Style, depth: nat)
    ensures AllSpace(Break(style, depth))
  {
  }

  lemma ClosingHead(end: string, bracket: string, tail: string)
    requires AllSpace(end) && |bracket| == 1 && !IsSpace(bracket[0]) && !IsDigit(bracket[0])
    ensures Stops(Closing(end, bracket, tail))
    ensures SkipSpace(Closing(end, bracket, tail)) == bracket + tail
  {
    SkipLead(end, bracket + tail);
    if end != "" { assert Closing(end, bracket, tail)[0] == end[0]; }
  }

  /** The rest of a list behind its first element. */
  function ItemsRest(items: seq<Json>, style: Style, depth: nat, close: string): string
    requires items != []
  {
    (if |items| == 1 then "" else "," + PrintItems(items[1..], style, depth)) + close
  }

  lemma ItemsText(items: seq<Json>, style: Style, depth: nat, close: string)
    requires items != []
    ensures PrintItems(items, style, depth) + close
         == Break(style, depth) + (Print(items[0], style, depth) + ItemsRest(items, style, depth, close))
  {
    hide Print, Break;
    Assoc(Break(style, depth), Print(items[0], style, depth), if |items| == 1 then ""
        else "," + PrintItems(items[1..], style, depth), close);
  }

  predicate ItemsWellFormed(items: seq<Json>) {
    forall i :: 0 <= i < |items| ==> WellFormed(items[i])
  }

  lemma ItemsTail(items: seq<Json>)
    requires items != [] && ItemsWellFormed(items)
    ensures WellFormed(items[0]) && ItemsWellFormed(items[1..]) && items == [items[0]] + items[1..]
  {
    hide WellFormed;
  }

  lemma {:induction false} ItemsRoundTrip(items: seq<Json>, style: Style, depth: nat, end: string, tail: string)
    requires items != [] && AllSpace(end) && ItemsWellFormed(items)
    ensures var s := PrintItems(items, style, depth) + Closing(end, "]", tail);
            ParseItems(s) == Some((items, tail)) && SkipSpace(s) != "" && SkipSpace(s)[0] != ']'
    decreases items, 0
  {
    var close := Closing(end, "]", tail);
    var after := ItemsRest(items, style, depth, close);
    hide ValidUtf8, WellFormed, ParseValue, ParseItems, Print, PrintItems, Break, Closing, ItemsRest, SkipSpace, Stops,
        AllSpace, ItemsWellFormed;
    ItemsTail(items);
    ItemsText(items, style, depth, close);
    ItemLead(items[0], style, depth, after);
    ClosingHead(end, "]", tail);
    ItemsRestIs(items, style, depth, close);
    ValueRoundTrip(items[0], style, depth, after);
    var s := PrintItems(items, style, depth) + close;
    if |items| == 1 {
      assert items[1..] == [] && [items[0]] + [] == [items[0]];
      ListEnds(s, items[0], after, tail);
    } else {
      ItemsRoundTrip(items[1..], style, depth, end, tail);
      ListGoesOn(s, items[0], after, PrintItems(items[1..], style, depth) + close, items[1..], tail);
    }
  }

  lemma ItemsRestIs(items: seq<Json>, style: Style, depth: nat, close: string)
    requires items != [] && Stops(close)
    ensures var after := ItemsRest(items, style, depth, close);
            Stops(after) && after == if |items| == 1 then close
                else "," + (PrintItems(items[1..], style, depth) + close)
  {
    hide PrintItems;
    assert "" + close == close;
  }

  /** An element behind its line break. */
  lemma ItemLead(v: Json, style: Style, depth: nat, after: string)
    ensures var s := Break(style, depth) + (Print(v, style, depth) + after);
            && ParseValue(s) == ParseValue(Print(v, style, depth) + after)
            && SkipSpace(s) != "" && SkipSpace(s)[0] != ']'
  {
    hide Print, ParseValue, Break;
    PrintHead(v, style, depth);
    BreakIsSpace(style, depth);
    SkipLead(Break(style, depth), Print(v, style, depth) + after);
    ParseValueLead(Break(style, depth), Print(v, style, depth) + after);
  }

  lemma ListEnds(s: string, v: Json, after: string, tail: string)
    requires ParseValue(s) == Some((v, after)) && SkipSpace(after) == "]" + tail
    ensures ParseItems(s) == Some(([v], tail))
  {
    hide ParseValue, SkipSpace;
    assert ("]" + tail)[1..] == tail;
  }

  lemma ListGoesOn(s: string, v: Json, after: string, more: string, rest: seq<Json>, tail: string)
    requires ParseValue(s) == Some((v, after)) && after == "," + more && ParseItems(more) == Some((rest, tail))
    ensures ParseItems(s) == Some(([v] + rest, tail))
  {
    hide ParseValue;
    assert SkipSpace(after) == after && after[1..] == more;
  }

  lemma FieldRoundTrip(f: Field, style: Style, depth: nat, after: string)
    requires ValidUtf8(f.key) && Stops(after)
    requires ParseValue(Print(f.value, style, depth) + after) == Some((f.value, after))
    ensures var t := PrintField(f, style, depth) + after;
            && t != "" && t[0] == '"'
            && ParseString(t[1..]).Some?
            && var (key, rest) := ParseString(t[1..]).value;
            && key == f.key && rest != "" && rest[0] == ':'
            && ParseValue(rest[1..]) == Some((f.value, after))
  {
    hide ValidUtf8, ParseValue, ParseString, Print, Quote;
    var p := Print(f.value, style, depth);
    var rest := Colon(style) + (p + after);
    assert PrintField(f, style, depth) + after == Quote(f.key) + rest;
    StringRoundTrip(f.key, rest);
    var gap := Colon(style)[1..];
    assert rest[1..] == gap + (p + after);
    ParseValueLead(gap, p + after);
  }

  function FieldsRest(fields: seq<Field>, style: Style, depth: nat, close: string): string
    requires fields != []
  {
    (if |fields| == 1 then "" else "," + PrintFields(fields[1..], style, depth)) + close
  }

  lemma FieldsText(fields: seq<Field>, style: Style, depth: nat, close: string)
    requires fields != []
    ensures PrintFields(fields, style, depth) + close
         == Break(style, depth) + (PrintField(fields[0], style, depth) + FieldsRest(fields, style, depth, close))
  {
    hide PrintField, Break;
    Assoc(Break(style, depth), PrintField(fields[0], style, depth),
      if |fields| == 1 then "" else "," + PrintFields(fields[1..], style, depth), close);
  }

  predicate FieldsWellFormed(fields: seq<Field>) {
    forall i :: 0 <= i < |fields| ==> ValidUtf8(fields[i].key) && WellFormed(fields[i].value)
  }

  lemma FieldsTail(fields: seq<Field>)
    requires fields != [] && FieldsWellFormed(fields)
    ensures ValidUtf8(fields[0].key) && WellFormed(fields[0].value) && FieldsWellFormed(fields[1..])
    ensures fields == [fields[0]] + fields[1..]
  {
    hide ValidUtf8, WellFormed;
  }

  lemma {:induction false} FieldsRoundTrip(fields: seq<Field>, style: Style, depth: nat, end: string, tail: string)
    requires fields != [] && AllSpace(end) && FieldsWellFormed(fields)
    ensures var s := PrintFields(fields, style, depth) + Closing(end, "}", tail);
            ParseFields(s) == Some((fields, tail)) && SkipSpace(s) != "" && SkipSpace(s)[0] == '"'
    decreases fields, 0
  {
    var f := fields[0];
    var close := Closing(end, "}", tail);
    var after := FieldsRest(fields, style, depth, close);
    hide ValidUtf8, WellFormed, ParseValue, ParseFields, ParseString, Print, PrintField, PrintFields, Break, Closing,
        FieldsRest, SkipSpace, Stops,
      FieldFirst, AllSpace, FieldsWellFormed;
    FieldsTail(fields);
    FieldsText(fields, style, depth, close);
    ClosingHead(end, "}", tail);
    FieldsRestIs(fields, style, depth, close);
    ValueRoundTrip(f.value, style, depth, after);
    FieldLead(f, style, depth, after);
    var s, t := PrintFields(fields, style, depth) + close, PrintField(f, style, depth) + after;
    if |fields| == 1 {
      assert fields[1..] == [] && [f] + [] == [f];
      ObjectEnds(s, t, f, after, tail);
    } else {
      FieldsRoundTrip(fields[1..], style, depth, end, tail);
      ObjectGoesOn(s, t, f, after, PrintFields(fields[1..], style, depth) + close, fields[1..], tail);
    }
  }

  lemma FieldsRestIs(fields: seq<Field>, style: Style, depth: nat, close: string)
    requires fields != [] && Stops(close)
    ensures var after := FieldsRest(fields, style, depth, close);
            Stops(after) && after == if |fields| == 1 then close
                else "," + (PrintFields(fields[1..], style, depth) + close)
  {
    hide PrintFields;
    assert "" + close == close;
  }

  /** A field behind its line break. */
  lemma FieldLead(f: Field, style: Style, depth: nat, after: string)
    requires ValidUtf8(f.key) && Stops(after)
    requires ParseValue(Print(f.value, style, depth) + after) == Some((f.value, after))
    ensures var t := PrintField(f, style, depth) + after;
            FieldFirst(t, f, after) && SkipSpace(Break(style, depth) + t) == t
  {
    hide ValidUtf8, ParseValue, ParseString, Print, PrintField, Break;
    FieldRoundTrip(f, style, depth, after);
    BreakIsSpace(style, depth);
    var t := PrintField(f, style, depth) + after;
    SkipLead(Break(style, depth), t);
    assert SkipSpace(t) == t;
  }

  /** A printed field at the front of a text, as the parser takes it. */
  predicate FieldFirst(t: string, f: Field, after: string) {
    && t != "" && t[0] == '"' && ParseString(t[1..]).Some?
    && var (key, rest) := ParseString(t[1..]).value;
       key == f.key && rest != "" && rest[0] == ':' && ParseValue(rest[1..]) == Some((f.value, after))
  }

  lemma ObjectEnds(s: string, t: string, f: Field, after: string, tail: string)
    requires SkipSpace(s) == t && FieldFirst(t, f, after) && SkipSpace(after) == "}" + tail
    ensures ParseFields(s) == Some(([f], tail))
  {
    hide ParseValue, ParseString;
    assert ("}" + tail)[1..] == tail;
    assert SkipSpace(ParseString(t[1..]).value.1) == ParseString(t[1..]).value.1;
  }

  lemma ObjectGoesOn(s: string, t: string, f: Field, after: string, more: string, rest: seq<Field>, tail: string)
    requires SkipSpace(s) == t && FieldFirst(t, f, after) && after == "," + more &&
        ParseFields(more) == Some((rest, tail))
    ensures ParseFields(s) == Some(([f] + rest, tail))
  {
    hide ParseValue, ParseString;
    assert SkipSpace(after) == after && after[1..] == more;
    assert SkipSpace(ParseString(t[1..]).value.1) == ParseString(t[1..]).value.1;
  }

  /** Whatever serde_json prints, in either style, parses back. */
  lemma PrintParse(v: Json, style: Style)
    requires WellFormed(v)
    ensures Parse(Print(v, style, 0)) == Some(v)
  {
    ValueRoundTrip(v, style, 0, "");
    assert Print(v, style, 0) + "" == Print(v, style, 0);
  }

  // ---------------------------------------------------------------- Values

  /** How many arrays and objects are inside one another. */
  function Depth(v: Json): nat
    decreases v, 1
  {
    match v
    case JArr(items) => 1 + ItemsDepth(items)
    case JObj(fields) => 1 + FieldsDepth(fields)
    case _ => 0
  }

  function ItemsDepth(items: seq<Json>): nat
    decreases items, 0
  {
    if items == [] then 0
    else
      var first, rest := Depth(items[0]), ItemsDepth(items[1..]);
      if first > rest then first else rest
  }

  function FieldsDepth(fields: seq<Field>): nat
    decreases fields, 0
  {
    if fields == [] then 0
    else
      var first, rest := Depth(fields[0].value), FieldsDepth(fields[1..]);
      if first > rest then first else rest
  }

  /** serde_json stops at the 128th nested array or object when it builds a value. */
  const DEPTH_LIMIT: nat := 127

  /** The reader that builds a value: it knows how many more arrays and objects it may enter. */
  function ValueWithin(s: string, room: nat): (r: Parsed<Json>)
    ensures r.Some? ==> |r.value.1| < |s|
    decreases |s|, 0
  {
    var t := SkipSpace(s);
    if t == "" || t[0] !in "[{" then ParseValue(s)
    else if room == 0 then None
    else
      var u := SkipSpace(t[1..]);
      if t[0] == '[' then
        if u != "" && u[0] == ']' then Some((JArr([]), u[1..]))
        else
          var (items, rest) :- ItemsWithin(t[1..], room - 1);
          Some((JArr(items), rest))
      else if u != "" && u[0] == '}' then Some((JObj([]), u[1..]))
      else
        var (fields, rest) :- FieldsWithin(t[1..], room - 1);
        Some((JObj(fields), rest))
  }

  function ItemsWithin(s: string, room: nat): (r: Parsed<seq<Json>>)
    ensures r.Some? ==> |r.value.1| < |s|
    decreases |s|, 1
  {
    var (v, rest) :- ValueWithin(s, room);
    var t := SkipSpace(rest);
    if t == "" then None
    else if t[0] == ']' then Some(([v], t[1..]))
    else if t[0] == ',' then
      var (more, rest') :- ItemsWithin(t[1..], room);
      Some(([v] + more, rest'))
    else None
  }

  function FieldsWithin(s: string, room: nat): (r: Parsed<seq<Field>>)
    ensures r.Some? ==> |r.value.1| < |s|
    decreases |s|, 1
  {
    var t := SkipSpace(s);
    if t == "" || t[0] != '"' then None
    else
      var (key, rest) :- ParseString(t[1..]);
      var u := SkipSpace(rest);
      if u == "" || u[0] != ':' then None
      else
        var (v, rest') :- ValueWithin(u[1..], room);
        var w := SkipSpace(rest');
        if w == "" then None
        else if w[0] == '}' then Some(([Field(key, v)], w[1..]))
        else if w[0] == ',' then
          var (more, rest'') :- FieldsWithin(w[1..], room);
          Some(([Field(key, v)] + more, rest''))
        else None
  }

  lemma ItemsDepthCons(v: Json, more: seq<Json>)
    ensures ItemsDepth([v] + more) == var first, rest := Depth(v), ItemsDepth(more); if first > rest then first
        else rest
  {
    hide Depth;
    assert ([v] + more)[1..] == more;
  }

  lemma FieldsDepthCons(f: Field, more: seq<Field>)
    ensures FieldsDepth([f] + more) == var first, rest := Depth(f.value), FieldsDepth(more); if first > rest then first
        else rest
  {
    hide Depth;
    assert ([f] + more)[1..] == more;
  }

  /** It reads what the grammar reads, as long as that is not nested more deeply than it may go. */
  lemma {:induction false} WithinExactly(s: string, room: nat)
    ensures var r := ParseValue(s); ValueWithin(s, room) == if r.Some? && Depth(r.value.0) <= room then r else None
    decreases |s|, 0
  {
    hide ParseString, ParseNumber, ParseWord, ItemsDepth, FieldsDepth, ParseItems, ParseFields, ItemsWithin,
        FieldsWithin, SkipSpace;
    var t := SkipSpace(s);
    if t != "" && t[0] in "[{" && room > 0 {
      ItemsWithinExactly(t[1..], room - 1);
      FieldsWithinExactly(t[1..], room - 1);
    }
    assert ItemsDepth([]) == 0 && FieldsDepth([]) == 0 by { EmptyDepth(); }
    assert t != "" && t[0] !in "[{" ==> ParseValue(s).Some? ==> Depth(ParseValue(s).value.0) == 0 by {
      if t != "" && t[0] !in "[{" { FlatDepth(s); }
    }
  }

  lemma EmptyDepth()
    ensures ItemsDepth([]) == 0 && FieldsDepth([]) == 0
  {
  }

  lemma FlatDepth(s: string)
    requires var t := SkipSpace(s); t != "" && t[0] !in "[{"
    ensures ParseValue(s).Some? ==> Depth(ParseValue(s).value.0) == 0
  {
    hide ParseString, SkipSpace;
  }

  lemma {:induction false} ItemsWithinExactly(s: string, room: nat)
    ensures var r := ParseItems(s); ItemsWithin(s, room) == if r.Some? && ItemsDepth(r.value.0) <= room then r else None
    decreases |s|, 1
  {
    hide ParseValue, ValueWithin, Depth, SkipSpace;
    WithinExactly(s, room);
    var first := ParseValue(s);
    if first.Some? {
      var (v, rest) := first.value;
      var t := SkipSpace(rest);
      ItemsDepthCons(v, []);
      assert [v] + [] == [v];
      if t != "" && t[0] == ',' {
        ItemsWithinExactly(t[1..], room);
        if ParseItems(t[1..]).Some? { ItemsDepthCons(v, ParseItems(t[1..]).value.0); }
      }
      hide ItemsDepth;
    }
  }

  lemma {:induction false} FieldsWithinExactly(s: string, room: nat)
    ensures var r := ParseFields(s); FieldsWithin(s, room) == if r.Some? && FieldsDepth(r.value.0) <= room then r
        else None
    decreases |s|, 1
  {
    hide ParseValue, ValueWithin, Depth, SkipSpace, ParseString;
    var t := SkipSpace(s);
    if t != "" && t[0] == '"' && ParseString(t[1..]).Some? {
      var (key, rest) := ParseString(t[1..]).value;
      var u := SkipSpace(rest);
      if u != "" && u[0] == ':' { OneFieldWithin(key, u[1..], room); }
    }
    hide FieldsDepth;
  }

  /** What follows a key and its colon. */
  lemma {:induction false} OneFieldWithin(key: string, s: string, room: nat)
    ensures var r := ParseValue(s); ValueWithin(s, room) == if r.Some? && Depth(r.value.0) <= room then r else None
    ensures var r := ParseValue(s);
            r.Some? ==>
              && FieldsDepth([Field(key, r.value.0)]) == Depth(r.value.0)
              && var w := SkipSpace(r.value.1);
              (w != "" && w[0] == ',' ==>
                 var m := ParseFields(w[1..]);
                 && FieldsWithin(w[1..], room) == (if m.Some? && FieldsDepth(m.value.0) <= room then m else None)
                 && (m.Some? ==> FieldsDepth([Field(key, r.value.0)] + m.value.0)
                                 == var a, b := Depth(r.value.0), FieldsDepth(m.value.0); if a > b then a else b))
    decreases |s|, 2
  {
    hide ParseValue, ValueWithin, Depth, SkipSpace, ParseFields, FieldsWithin;
    WithinExactly(s, room);
    var r := ParseValue(s);
    if r.Some? {
      var f := Field(key, r.value.0);
      FieldsDepthCons(f, []);
      assert [f] + [] == [f] && FieldsDepth([]) == 0;
      hide FieldsDepth;
      var w := SkipSpace(r.value.1);
      if w != "" && w[0] == ',' {
        FieldsWithinExactly(w[1..], room);
        if ParseFields(w[1..]).Some? { FieldsDepthCons(f, ParseFields(w[1..]).value.0); }
      }
    }
  }

  /** Reading a `serde_json::Value`. */
  function ReadValue(s: string): Option<Json> {
    var (v, rest) :- ValueWithin(s, DEPTH_LIMIT);
    if SkipSpace(rest) == "" then Some(v) else None
  }

  /** Reading a value is parsing it within the limit, whatever the text. */
  lemma ReadValueWithin(s: string)
    ensures ReadValue(s) == if Parse(s).Some? && Depth(Parse(s).value) <= DEPTH_LIMIT then Parse(s) else None
  {
    hide Depth, ParseValue, ValueWithin, SkipSpace;
    WithinExactly(s, DEPTH_LIMIT);
  }

  /** So a printed value is read back exactly when it is not nested too deeply. */
  lemma ReadValueExactly(v: Json, style: Style)
    requires WellFormed(v)
    ensures ReadValue(Print(v, style, 0)) == Some(v) <==> Depth(v) <= DEPTH_LIMIT
  {
    hide Print, Depth, Parse, ReadValue, WellFormed;
    PrintParse(v, style);
    ReadValueWithin(Print(v, style, 0));
  }
}
