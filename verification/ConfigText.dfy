/**
 SSH-style configuration text: lines, comments, directives and keywords. Both configuration parsers read
 lines with the same steps, and the renderer's lines are read back as what they set.
 */
module ConfigText {
  import opened Wrappers
  import opened Text

  /** `char::is_whitespace`: the Unicode White_Space property. */
  predicate IsSpace(c: char) {
    var n := c as int;
    n == 0x20 || 0x09 <= n <= 0x0D || n == 0x85 || n == 0xA0 || n == 0x1680 || 0x2000 <= n <= 0x200A ||
    n == 0x2028 || n == 0x2029 || n == 0x202F || n == 0x205F || n == 0x3000
  }

  /** `str::lines`: split at line feeds, dropping one carriage return before each. */
  function Lines(s: string): seq<string> {
    LinesFrom(s, "")
  }

  function LinesFrom(s: string, line: string): seq<string> {
    if s == "" then (if line == "" then [] else [line])
    else if s[0] == '\n' then [DropReturn(line)] + LinesFrom(s[1..], "")
    else LinesFrom(s[1..], line + [s[0]])
  }

  function DropReturn(line: string): string {
    if line != "" && line[|line| - 1] == '\r' then line[..|line| - 1] else line
  }

  /** Text before the first `#`. */
  function BeforeHash(s: string): string {
    if s == "" || s[0] == '#' then "" else [s[0]] + BeforeHash(s[1..])
  }

  function TrimStart(s: string): string {
    if s != "" && IsSpace(s[0]) then TrimStart(s[1..]) else s
  }

  function TrimEnd(s: string): string {
    if s != "" && IsSpace(s[|s| - 1]) then TrimEnd(s[..|s| - 1]) else s
  }

  function Trim(s: string): string {
    TrimEnd(TrimStart(s))
  }

  function FirstSpace(s: string): (n: nat)
    ensures n <= |s| && (n < |s| ==> IsSpace(s[n]))
    ensures forall i :: 0 <= i < n ==> !IsSpace(s[i])
  {
    if s == "" || IsSpace(s[0]) then 0 else 1 + FirstSpace(s[1..])
  }

  /** Keyword of a line and the text after it, if it has both. */
  function RawDirective(line: string): Option<(string, string)> {
    var text := Trim(BeforeHash(line));
    var n := FirstSpace(text);
    if n == |text| then None else Some((text[..n], text[n + 1..]))
  }

  /** Keyword and trimmed value. */
  function Directive(line: string): Option<(string, string)> {
    var raw := RawDirective(line);
    if raw == None then None else Some((raw.value.0, Trim(raw.value.1)))
  }

  /** `str::split_whitespace`. */
  function SplitSpaces(s: string): seq<string>
    decreases |s|
  {
    if s == "" then []
    else if IsSpace(s[0]) then SplitSpaces(s[1..])
    else
      var n := FirstSpace(s);
      [s[..n]] + SplitSpaces(s[n..])
  }

  // ---------------------------------------------------------------- Keywords

  datatype Key =
    | Host | HostName | User | Port | IdentityFile | ProxyJump | Strategy
    | BastionProxy | BastionUser | BastionAccount | BastionPort | BastionPreset | BastionFormat

  const KEYS: seq<Key> :=
    [Host, HostName, User, Port, IdentityFile, ProxyJump, Strategy,
     BastionProxy, BastionUser, BastionAccount, BastionPort, BastionPreset, BastionFormat]

  /** The spelling the renderer uses. */
  function Label(k: Key): string {
    match k
    case Host => "Host"
    case HostName => "HostName"
    case User => "User"
    case Port => "Port"
    case IdentityFile => "IdentityFile"
    case ProxyJump => "ProxyJump"
    case Strategy => "BinportStrategy"
    case BastionProxy => "BastionProxy"
    case BastionUser => "BastionUser"
    case BastionAccount => "BastionAccount"
    case BastionPort => "BastionPort"
    case BastionPreset => "BastionPreset"
    case BastionFormat => "BastionFormat"
  }

  function Lower(c: char): char {
    if 'A' <= c <= 'Z' then 'a' + (c - 'A') else c
  }

  predicate EqIgnoreCase(a: string, b: string) {
    |a| == |b| && forall i :: 0 <= i < |a| ==> Lower(a[i]) == Lower(b[i])
  }

  function FindKey(keys: seq<Key>, word: string): Option<Key> {
    if keys == [] then None
    else if EqIgnoreCase(Label(keys[0]), word) then Some(keys[0])
    else FindKey(keys[1..], word)
  }

  /** The keyword a word spells in any letter case. */
  function KeyOf(word: string): Option<Key> {
    FindKey(KEYS, word)
  }

  lemma {:induction false} FindKeyLabel(keys: seq<Key>, k: Key)
    requires k in keys
    ensures FindKey(keys, Label(k)) == Some(k)
  {
    if keys[0] != k {
      LabelsDiffer(keys[0], k);
      FindKeyLabel(keys[1..], k);
    }
  }

  /** Labels differ at a fixed position, or in length. */
  function Fingerprint(label_: string): (int, char, char) {
    (|label_|, if |label_| > 0 then Lower(label_[0]) else ' ', if |label_| > 7 then Lower(label_[7]) else ' ')
  }

  lemma SameFingerprint(a: string, b: string)
    requires EqIgnoreCase(a, b)
    ensures Fingerprint(a) == Fingerprint(b)
  {
  }

  lemma LabelsDiffer(j: Key, k: Key)
    requires j != k
    ensures !EqIgnoreCase(Label(j), Label(k))
  {
    hide EqIgnoreCase;
    if EqIgnoreCase(Label(j), Label(k)) {
      SameFingerprint(Label(j), Label(k));
    }
  }

  lemma KeyOfLabel(k: Key)
    ensures KeyOf(Label(k)) == Some(k)
  {
    FindKeyLabel(KEYS, k);
  }

  // ---------------------------------------------------------------- Rendered lines

  /** What validation guarantees of every value: not empty, no ASCII blank or control character, no `#`. */
  predicate IsToken(v: string) {
    v != "" && forall i :: 0 <= i < |v| ==> 32 < v[i] as int != 127 && v[i] != '#'
  }

  /** No white space, of any script, at either end. */
  predicate Trimmed(v: string) {
    v != "" ==> !IsSpace(v[0]) && !IsSpace(v[|v| - 1])
  }

  /** A value that a line gives back unchanged. */
  predicate IsValue(v: string) {
    IsToken(v) && Trimmed(v)
  }

  predicate NoSpace(v: string) {
    forall i :: 0 <= i < |v| ==> !IsSpace(v[i])
  }

  lemma {:induction false} TrimEndTrimmed(s: string)
    ensures var t := TrimEnd(s); t <= s && (t != "" ==> !IsSpace(t[|t| - 1]))
  {
    if s != "" && IsSpace(s[|s| - 1]) { TrimEndTrimmed(s[..|s| - 1]); }
  }

  lemma {:induction false} TrimStartTrimmed(s: string)
    ensures var t := TrimStart(s); t != "" ==> !IsSpace(t[0])
  {
    if s != "" && IsSpace(s[0]) { TrimStartTrimmed(s[1..]); }
  }

  lemma TrimTrimmed(s: string)
    ensures Trimmed(Trim(s))
  {
    TrimStartTrimmed(s);
    TrimEndTrimmed(TrimStart(s));
  }

  const INDENT := "    "

  function SettingLine(k: Key, value: string): string {
    INDENT + Label(k) + " " + value
  }

  lemma {:induction false} NoHash(s: string)
    requires '#' !in s
    ensures BeforeHash(s) == s
  {
    if s != "" {
      NoHash(s[1..]);
      assert [s[0]] + s[1..] == s;
    }
  }

  lemma {:induction false} TrimLead(lead: string, s: string)
    requires forall i :: 0 <= i < |lead| ==> IsSpace(lead[i])
    requires s != "" && !IsSpace(s[0])
    ensures TrimStart(lead + s) == s
  {
    if lead == "" {
      assert lead + s == s;
    } else {
      assert (lead + s)[1..] == lead[1..] + s;
      TrimLead(lead[1..], s);
    }
  }

  lemma ValueTrim(v: string)
    requires IsValue(v)
    ensures Trim(v) == v && TrimEnd(v) == v
  {
  }

  lemma SplitValue(v: string)
    requires v != "" && NoSpace(v)
    ensures SplitSpaces(v) == [v]
  {
    assert FirstSpace(v) == |v|;
    assert v[..|v|] == v && v[|v|..] == "";
  }

  lemma {:induction false} FirstSpaceAfter(word: string, rest: string)
    requires forall i :: 0 <= i < |word| ==> !IsSpace(word[i])
    ensures FirstSpace(word + " " + rest) == |word|
  {
    var text := word + " " + rest;
    if word != "" {
      assert text[1..] == word[1..] + " " + rest;
      FirstSpaceAfter(word[1..], rest);
    }
  }

  lemma DirectiveLine(lead: string, word: string, value: string)
    requires forall i :: 0 <= i < |lead| ==> IsSpace(lead[i])
    requires IsValue(word) && NoSpace(word) && IsValue(value)
    ensures Directive(lead + word + " " + value) == RawDirective(lead + word + " " + value) == Some((word, value))
  {
    var line := lead + word + " " + value;
    var text := word + " " + value;
    NoHash(line);
    assert line == lead + text;
    TrimLead(lead, text);
    assert text[|text| - 1] == value[|value| - 1];
    assert TrimEnd(text) == text;
    FirstSpaceAfter(word, value);
    assert text[..|word|] == word;
    assert text[|word| + 1..] == value;
    ValueTrim(value);
  }

  predicate Letters(s: string) {
    s != "" && forall i :: 0 <= i < |s| ==> 'A' <= s[i] <= 'z'
  }

  lemma LettersAreValue(s: string)
    requires Letters(s)
    ensures IsValue(s) && NoSpace(s)
  {
  }

  lemma LabelIsValue(k: Key)
    ensures IsValue(Label(k)) && NoSpace(Label(k))
  {
    hide IsValue, NoSpace;
    assert Letters(Label(k));
    LettersAreValue(Label(k));
  }

  lemma SettingDirective(k: Key, value: string)
    requires IsValue(value)
    ensures Directive(SettingLine(k, value)) == Some((Label(k), value)) && KeyOf(Label(k)) == Some(k)
  {
    LabelIsValue(k);
    DirectiveLine(INDENT, Label(k), value);
    KeyOfLabel(k);
  }

  lemma HostDirective(name: string)
    requires IsValue(name)
    ensures Directive("Host " + name) == Some(("Host", name)) && KeyOf("Host") == Some(Host)
  {
    LabelIsValue(Host);
    DirectiveLine("", "Host", name);
    assert "" + "Host" + " " + name == "Host " + name;
    KeyOfLabel(Host);
  }

  // ---------------------------------------------------------------- Lines of rendered text

  function Unlines(lines: seq<string>): string {
    if lines == [] then "" else lines[0] + "\n" + Unlines(lines[1..])
  }

  predicate IsLine(s: string) {
    '\n' !in s && '\r' !in s
  }

  lemma {:induction false} LinesFromLine(s: string, line: string, rest: string)
    requires IsLine(s) && IsLine(line)
    ensures LinesFrom(s + "\n" + rest, line) == [line + s] + LinesFrom(rest, "")
  {
    var text := s + "\n" + rest;
    if s == "" {
      assert text[1..] == rest;
      assert line + s == line;
    } else {
      assert text[1..] == s[1..] + "\n" + rest;
      LinesFromLine(s[1..], line + [s[0]], rest);
      assert line + [s[0]] + s[1..] == line + s;
    }
  }

  lemma {:induction false} LinesUnlines(lines: seq<string>)
    requires forall i :: 0 <= i < |lines| ==> IsLine(lines[i])
    ensures Lines(Unlines(lines)) == lines
  {
    if lines != [] {
      LinesFromLine(lines[0], "", Unlines(lines[1..]));
      assert "" + lines[0] == lines[0];
      LinesUnlines(lines[1..]);
      assert [lines[0]] + lines[1..] == lines;
    }
  }

  lemma {:induction false} UnlinesAppend(a: seq<string>, b: seq<string>)
    ensures Unlines(a + b) == Unlines(a) + Unlines(b)
  {
    if a == [] {
      assert a + b == b;
    } else {
      assert (a + b)[1..] == a[1..] + b;
      UnlinesAppend(a[1..], b);
    }
  }

  // ---------------------------------------------------------------- Ports

  /** `str::parse::<u16>`: an optional plus sign, then decimal digits within range. */
  function ParseU16(s: string): Option<u16> {
    var d := if s != "" && s[0] == '+' then s[1..] else s;
    if d == "" || !AllDigits(d) then None
    else if DigitsValue(d) < 0x1_0000 then Some(DigitsValue(d)) else None
  }

  lemma PortRoundTrip(port: u16)
    ensures ParseU16(Decimal(port)) == Some(port) && IsValue(Decimal(port))
  {
    DecimalValue(port);
    var d := Decimal(port);
    assert IsDigit(d[0]);
    assert forall i :: 0 <= i < |d| ==> IsDigit(d[i]);
  }
}
