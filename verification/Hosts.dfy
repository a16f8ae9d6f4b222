/** Managed host entries, their validation, and the text they are kept in. */
module Hosts {
  import opened Wrappers
  import opened Text
  import opened ConfigText

  datatype HostEntry = HostEntry(
    name: string,
    hostname: string,
    user: string,
    port: u16,
    proxyJump: Option<string>,
    strategy: Option<string>,
    bastionProxy: Option<string>,
    bastionUser: Option<string>,
    bastionAccount: Option<string>,
    bastionPort: Option<u16>,
    bastionPreset: Option<string>,
    bastionFormat: Option<string>)

  const EXEC_HOP := "exec-hop"
  const DEFAULT_FORMAT := "{user}/{host}/{account}"

  datatype HostError = InvalidValue(value: string) | InvalidCombination | InvalidPort | AlreadyExists | InMainConfig

  predicate IsExecHop(e: HostEntry) {
    e.strategy == Some(EXEC_HOP)
  }

  // ---------------------------------------------------------------- Validation

  /** `validate_token`: a value that is no pattern either. */
  predicate ValidToken(v: string) {
    IsToken(v) && '*' !in v && '?' !in v && '!' !in v
  }

  predicate ValidOptional(v: Option<string>) {
    v.Some? ==> ValidToken(v.value)
  }

  function PresetFormat(name: string): Option<string> {
    if name == "h3c-iware-slash" then Some("{user}/{host}/{account}")
    else if name == "huawei-cbh-at" then Some("{user}@{account}@{host}")
    else if name == "jumpserver-koko-at" then Some("{user}@{account}@{host}")
    else if name == "oneidentity-sps-inband" then Some("{account}@{host}")
    else if name == "wallix-bastion-shell" then Some("{account}@{host}:SSH:{user}")
    else if name == "cyberark-psmp-at" then Some("{user}@{account}@{host}")
    else None
  }

  predicate Contains(s: string, part: string) {
    exists i :: 0 <= i <= |s| && part <= s[i..]
  }

  predicate HasBastionOptions(e: HostEntry) {
    e.bastionUser.Some? || e.bastionAccount.Some? || e.bastionPort.Some? || e.bastionPreset.Some? ||
        e.bastionFormat.Some?
  }

  predicate PresetOk(e: HostEntry) {
    e.bastionPreset.Some? ==>
      && PresetFormat(e.bastionPreset.value).Some?
      && (e.bastionFormat.Some? ==> e.bastionFormat == PresetFormat(e.bastionPreset.value))
  }

  /** The format's placeholders are backed by the options that fill them. */
  predicate FormatOk(e: HostEntry) {
    e.bastionProxy.Some? ==>
      var format := e.bastionFormat.GetOr(DEFAULT_FORMAT);
      && (Contains(format, "{user}") ==> e.bastionUser.Some?)
      && (Contains(format, "{account}") ==> e.bastionAccount.Some?)
  }

  predicate ValidValues(e: HostEntry) {
    && ValidToken(e.name) && ValidToken(e.hostname) && ValidToken(e.user)
    && ValidOptional(e.proxyJump) && ValidOptional(e.strategy) && ValidOptional(e.bastionProxy)
    && ValidOptional(e.bastionUser) && ValidOptional(e.bastionAccount) && ValidOptional(e.bastionPreset)
    && (e.bastionFormat.Some? ==> IsToken(e.bastionFormat.value))
  }

  /** `validate_entry`. */
  predicate ValidEntry(e: HostEntry) {
    && ValidValues(e)
    && (e.proxyJump.Some? ==> e.proxyJump.value != e.name)
    && (e.strategy.Some? ==> e.strategy.value == EXEC_HOP && e.proxyJump.Some?)
    && !(e.proxyJump.Some? && e.bastionProxy.Some?)
    && (e.bastionProxy == None ==> !HasBastionOptions(e))
    && PresetOk(e)
    && FormatOk(e)
  }

  // ---------------------------------------------------------------- Rendering

  datatype Setting = Setting(key: Key, value: string)

  function Optional(k: Key, v: Option<string>): seq<Setting> {
    if v.Some? then [Setting(k, v.value)] else []
  }

  function PortText(port: Option<u16>): Option<string> {
    if port.Some? then Some(Decimal(port.value)) else None
  }

  function RequiredSettings(e: HostEntry): seq<Setting> {
    [Setting(HostName, e.hostname), Setting(User, e.user), Setting(Port, Decimal(e.port))]
  }

  function JumpSettings(e: HostEntry): seq<Setting> {
    Optional(ProxyJump, e.proxyJump) + Optional(Strategy, e.strategy) + Optional(BastionProxy, e.bastionProxy)
    + Optional(BastionUser, e.bastionUser)
  }

  function AccountSettings(e: HostEntry): seq<Setting> {
    Optional(BastionAccount, e.bastionAccount) + Optional(BastionPort, PortText(e.bastionPort))
    + Optional(BastionPreset, e.bastionPreset) + Optional(BastionFormat, e.bastionFormat)
  }

  /** The settings of an entry below its `Host` line, in the order they are written. */
  function Settings(e: HostEntry): seq<Setting> {
    RequiredSettings(e) + JumpSettings(e) + AccountSettings(e)
  }

  function SettingLines(settings: seq<Setting>): (lines: seq<string>)
    ensures |lines| == |settings|
    ensures forall i :: 0 <= i < |settings| ==> lines[i] == SettingLine(settings[i].key, settings[i].value)
  {
    seq(|settings|, i requires 0 <= i < |settings| => SettingLine(settings[i].key, settings[i].value))
  }

  function EntryLines(e: HostEntry): seq<string> {
    ["Host " + e.name] + SettingLines(Settings(e)) + [""]
  }

  const HEADER_COMMENT := "# Managed by binport. " + "Use `binport host` to edit."
  const IGNORED: seq<string> :=
    ["BastionProxy,", "BastionUser,", "BastionAccount,", "BastionPort,", "BastionPreset,", "BastionFormat,",
     "BinportStrategy"]
  const IGNORE_WORD := "IgnoreUnknown"
  const HEADER_LINES: seq<string> := [HEADER_COMMENT, IGNORE_WORD + " " + Flatten(IGNORED), ""]

  function AllLines(entries: seq<HostEntry>): seq<string> {
    if entries == [] then [] else EntryLines(entries[0]) + AllLines(entries[1..])
  }

  /** The whole managed file. */
  function Rendered(entries: seq<HostEntry>): string {
    Unlines(HEADER_LINES + AllLines(entries))
  }

  lemma {:induction false} AllLinesSnoc(entries: seq<HostEntry>, e: HostEntry)
    ensures AllLines(entries + [e]) == AllLines(entries) + EntryLines(e)
  {
    hide EntryLines;
    if entries == [] {
      assert [] + [e] == [e];
    } else {
      assert (entries + [e])[1..] == entries[1..] + [e];
      AllLinesSnoc(entries[1..], e);
    }
  }

  method Render(entries: seq<HostEntry>) returns (output: string)
    ensures output == Rendered(entries)
  {
    hide EntryLines, HEADER_LINES;
    output := Unlines(HEADER_LINES);
    assert HEADER_LINES + AllLines([]) == HEADER_LINES;
    for i := 0 to |entries|
      invariant output == Rendered(entries[..i])
    {
      assert entries[..i + 1] == entries[..i] + [entries[i]];
      AllLinesSnoc(entries[..i], entries[i]);
      assert HEADER_LINES + (AllLines(entries[..i]) + EntryLines(entries[i]))
          == (HEADER_LINES + AllLines(entries[..i])) + EntryLines(entries[i]);
      UnlinesAppend(HEADER_LINES + AllLines(entries[..i]), EntryLines(entries[i]));
      output := output + Unlines(EntryLines(entries[i]));
    }
    assert entries[..|entries|] == entries;
  }

  // ---------------------------------------------------------------- Parsing

  function Blank(name: string): HostEntry {
    HostEntry(name, "", "", 22, None, None, None, None, None, None, None, None)
  }

  /** One setting applied to the entry being read; unknown keywords change nothing. */
  function SetField(e: HostEntry, k: Key, value: string): Result<HostEntry, HostError> {
    match k
    case HostName => Ok(e.(hostname := value))
    case User => Ok(e.(user := value))
    case Port =>
      var port := ParseU16(value);
      if port.Some? then Ok(e.(port := port.value)) else Err(InvalidPort)
    case ProxyJump => Ok(e.(proxyJump := Some(value)))
    case Strategy => Ok(e.(strategy := Some(value)))
    case BastionProxy => Ok(e.(bastionProxy := Some(value)))
    case BastionUser => Ok(e.(bastionUser := Some(value)))
    case BastionAccount => Ok(e.(bastionAccount := Some(value)))
    case BastionPort =>
      var port := ParseU16(value);
      if port.Some? then Ok(e.(bastionPort := port)) else Err(InvalidPort)
    case BastionPreset => Ok(e.(bastionPreset := Some(value)))
    case BastionFormat => Ok(e.(bastionFormat := Some(value)))
    case _ => Ok(e)
  }

  /** Entries finished so far and the one being read. */
  datatype Progress = Progress(entries: seq<HostEntry>, current: Option<HostEntry>)

  function Flush(p: Progress): Result<seq<HostEntry>, HostError> {
    if p.current == None then Ok(p.entries)
    else if ValidEntry(p.current.value) then Ok(p.entries + [p.current.value])
    else Err(InvalidCombination)
  }

  function ParseLine(p: Progress, line: string): Result<Progress, HostError> {
    var directive := Directive(line);
    if directive == None then Ok(p)
    else
      var (word, value) := directive.value;
      var key := KeyOf(word);
      if key == Some(Host) then
        var entries :- Flush(p);
        Ok(Progress(entries, Some(Blank(value))))
      else if key == None || p.current == None then Ok(p)
      else
        var e :- SetField(p.current.value, key.value, value);
        Ok(p.(current := Some(e)))
  }

  function ParseLines(p: Progress, lines: seq<string>): Result<Progress, HostError>
    decreases |lines|
  {
    if lines == [] then Ok(p)
    else
      var next :- ParseLine(p, lines[0]);
      ParseLines(next, lines[1..])
  }

  function Parsed(source: string): Result<seq<HostEntry>, HostError> {
    var p :- ParseLines(Progress([], None), Lines(source));
    Flush(p)
  }

  method Parse(source: string) returns (r: Result<seq<HostEntry>, HostError>)
    ensures r == Parsed(source)
  {
    hide ParseLine, Flush, Lines;
    var lines := Lines(source);
    var p := Progress([], None);
    var i := 0;
    while i < |lines|
      invariant 0 <= i <= |lines|
      invariant ParseLines(Progress([], None), lines) == ParseLines(p, lines[i..])
    {
      assert lines[i..][1..] == lines[i + 1..];
      var next := ParseLine(p, lines[i]);
      if next.Err? {
        return Err(next.error);
      }
      p := next.value;
      i := i + 1;
    }
    r := Flush(p);
  }

  // ---------------------------------------------------------------- Round trip

  lemma {:induction false} ParseLinesAppend(p: Progress, a: seq<string>, b: seq<string>)
    ensures ParseLines(p, a + b) ==
            match ParseLines(p, a) case Err(e) => Err(e) case Ok(q) => ParseLines(q, b)
    decreases |a|
  {
    hide ParseLine;
    if a == [] {
      assert a + b == b;
    } else {
      assert (a + b)[1..] == a[1..] + b;
      var next := ParseLine(p, a[0]);
      if next.Ok? { ParseLinesAppend(next.value, a[1..], b); }
    }
  }

  function ApplySettings(e: HostEntry, settings: seq<Setting>): Result<HostEntry, HostError>
    decreases |settings|
  {
    if settings == [] then Ok(e)
    else
      var next :- SetField(e, settings[0].key, settings[0].value);
      ApplySettings(next, settings[1..])
  }

  lemma {:induction false} ApplyAppend(e: HostEntry, a: seq<Setting>, b: seq<Setting>)
    ensures ApplySettings(e, a + b) ==
            match ApplySettings(e, a) case Err(x) => Err(x) case Ok(f) => ApplySettings(f, b)
    decreases |a|
  {
    hide SetField;
    if a == [] {
      assert a + b == b;
    } else {
      assert (a + b)[1..] == a[1..] + b;
      var next := SetField(e, a[0].key, a[0].value);
      if next.Ok? { ApplyAppend(next.value, a[1..], b); }
    }
  }

  predicate GoodSettings(settings: seq<Setting>) {
    forall i :: 0 <= i < |settings| ==> settings[i].key != Host && IsValue(settings[i].value)
  }

  lemma ParseSettingLine(p: Progress, k: Key, value: string)
    requires p.current.Some? && k != Host && IsValue(value)
    ensures ParseLine(p, SettingLine(k, value)) ==
            match SetField(p.current.value, k, value)
            case Err(x) => Err(x)
            case Ok(e) => Ok(p.(current := Some(e)))
  {
    hide Directive, KeyOf, SettingLine, IsValue, SetField;
    SettingDirective(k, value);
  }

  lemma {:induction false} ParseSettings(p: Progress, settings: seq<Setting>)
    requires p.current.Some? && GoodSettings(settings)
    ensures ParseLines(p, SettingLines(settings)) ==
            match ApplySettings(p.current.value, settings)
            case Err(x) => Err(x)
            case Ok(e) => Ok(p.(current := Some(e)))
    decreases |settings|
  {
    hide ParseLine, SettingLine, IsValue, SetField;
    if settings != [] {
      var s := settings[0];
      ParseSettingLine(p, s.key, s.value);
      assert SettingLines(settings)[1..] == SettingLines(settings[1..]);
      var next := SetField(p.current.value, s.key, s.value);
      if next.Ok? { ParseSettings(p.(current := Some(next.value)), settings[1..]); }
    }
  }

  /** Every value of the entry has no white space at either end. */
  predicate TrimmedEntry(e: HostEntry) {
    && Trimmed(e.name) && Trimmed(e.hostname) && Trimmed(e.user)
    && TrimmedOptional(e.proxyJump) && TrimmedOptional(e.strategy) && TrimmedOptional(e.bastionProxy)
    && TrimmedOptional(e.bastionUser) && TrimmedOptional(e.bastionAccount)
    && TrimmedOptional(e.bastionPreset) && TrimmedOptional(e.bastionFormat)
  }

  predicate TrimmedOptional(v: Option<string>) {
    v.Some? ==> Trimmed(v.value)
  }

  lemma GoodAppend(a: seq<Setting>, b: seq<Setting>)
    requires GoodSettings(a) && GoodSettings(b)
    ensures GoodSettings(a + b)
  {
  }

  lemma GoodOptional(k: Key, v: Option<string>)
    requires k != Host && (v.Some? ==> IsValue(v.value))
    ensures GoodSettings(Optional(k, v))
  {
  }

  lemma GoodFour(a: seq<Setting>, b: seq<Setting>, c: seq<Setting>, d: seq<Setting>)
    requires GoodSettings(a) && GoodSettings(b) && GoodSettings(c) && GoodSettings(d)
    ensures GoodSettings(a + b + c + d)
  {
    hide GoodSettings;
    GoodAppend(a, b);
    GoodAppend(a + b, c);
    GoodAppend(a + b + c, d);
  }

  lemma ValuesGood(e: HostEntry)
    requires ValidValues(e) && TrimmedEntry(e)
    ensures IsValue(e.hostname) && IsValue(e.user)
    ensures forall v :: v in [e.proxyJump, e.strategy, e.bastionProxy, e.bastionUser] && v.Some? ==> IsValue(v.value)
    ensures forall v :: v in [e.bastionAccount, e.bastionPreset, e.bastionFormat] && v.Some? ==> IsValue(v.value)
  {
    hide IsToken, Trimmed;
  }

  lemma SettingsGood(e: HostEntry)
    requires ValidValues(e) && TrimmedEntry(e)
    ensures GoodSettings(Settings(e))
  {
    PortRoundTrip(e.port);
    hide Decimal, ParseU16, IsValue, ValidValues, TrimmedEntry, Optional;
    ValuesGood(e);
    assert GoodSettings(RequiredSettings(e));
    JumpsGood(e);
    AccountsGood(e);
    hide GoodSettings, RequiredSettings, JumpSettings, AccountSettings;
    GoodAppend(RequiredSettings(e), JumpSettings(e));
    GoodAppend(RequiredSettings(e) + JumpSettings(e), AccountSettings(e));
  }

  lemma JumpsGood(e: HostEntry)
    requires ValidValues(e) && TrimmedEntry(e)
    ensures GoodSettings(JumpSettings(e))
  {
    ValuesGood(e);
    hide IsValue, ValidValues, TrimmedEntry, Optional, GoodSettings;
    var opt := [e.proxyJump, e.strategy, e.bastionProxy, e.bastionUser];
    assert opt[0] in opt && opt[1] in opt && opt[2] in opt && opt[3] in opt;
    GoodOptional(ProxyJump, opt[0]);
    GoodOptional(Strategy, opt[1]);
    GoodOptional(BastionProxy, opt[2]);
    GoodOptional(BastionUser, opt[3]);
    GoodFour(Optional(ProxyJump, opt[0]), Optional(Strategy, opt[1]), Optional(BastionProxy, opt[2]),
        Optional(BastionUser, opt[3]));
  }

  lemma AccountsGood(e: HostEntry)
    requires ValidValues(e) && TrimmedEntry(e)
    ensures GoodSettings(AccountSettings(e))
  {
    ValuesGood(e);
    if e.bastionPort.Some? { PortRoundTrip(e.bastionPort.value); }
    hide Decimal, ParseU16, IsValue, ValidValues, TrimmedEntry, Optional, GoodSettings;
    var acc := [e.bastionAccount, e.bastionPreset, e.bastionFormat];
    assert acc[0] in acc && acc[1] in acc && acc[2] in acc;
    GoodOptional(BastionAccount, acc[0]);
    GoodOptional(BastionPort, PortText(e.bastionPort));
    GoodOptional(BastionPreset, acc[1]);
    GoodOptional(BastionFormat, acc[2]);
    GoodFour(Optional(BastionAccount, acc[0]), Optional(BastionPort, PortText(e.bastionPort)),
             Optional(BastionPreset, acc[1]), Optional(BastionFormat, acc[2]));
  }

  lemma OneMore(start: HostEntry, settings: seq<Setting>, e: HostEntry, k: Key, v: Option<string>, f: HostEntry)
    requires ApplySettings(start, settings) == Ok(e)
    requires if v.Some? then SetField(e, k, v.value) == Ok(f) else f == e
    ensures ApplySettings(start, settings + Optional(k, v)) == Ok(f)
  {
    ApplyAppend(start, settings, Optional(k, v));
  }

  lemma ApplyRequired(e: HostEntry)
    ensures ApplySettings(Blank(e.name), RequiredSettings(e)) ==
            Ok(Blank(e.name).(hostname := e.hostname, user := e.user, port := e.port))
  {
    PortRoundTrip(e.port);
    hide Decimal, ParseU16;
    var b := Blank(e.name);
    OneMore(b, [], b, HostName, Some(e.hostname), b.(hostname := e.hostname));
    var s1 := [] + Optional(HostName, Some(e.hostname));
    OneMore(b, s1, b.(hostname := e.hostname), User, Some(e.user), b.(hostname := e.hostname, user := e.user));
    var s2 := s1 + Optional(User, Some(e.user));
    OneMore(b, s2, b.(hostname := e.hostname, user := e.user), Port, Some(Decimal(e.port)),
            b.(hostname := e.hostname, user := e.user, port := e.port));
    assert s2 + Optional(Port, Some(Decimal(e.port))) == RequiredSettings(e);
  }

  lemma ApplyJumps(b: HostEntry, e: HostEntry)
    requires b.proxyJump == b.strategy == b.bastionProxy == b.bastionUser == None
    ensures ApplySettings(b, JumpSettings(e)) ==
            Ok(b.(proxyJump := e.proxyJump, strategy := e.strategy, bastionProxy := e.bastionProxy,
                  bastionUser := e.bastionUser))
  {
    var b1 := b.(proxyJump := e.proxyJump);
    var b2 := b1.(strategy := e.strategy);
    var b3 := b2.(bastionProxy := e.bastionProxy);
    var b4 := b3.(bastionUser := e.bastionUser);
    assert ApplySettings(b, []) == Ok(b);
    hide ApplySettings, Optional;
    var s1 := [] + Optional(ProxyJump, e.proxyJump);
    OneMore(b, [], b, ProxyJump, e.proxyJump, b1);
    OneMore(b, s1, b1, Strategy, e.strategy, b2);
    OneMore(b, s1 + Optional(Strategy, e.strategy), b2, BastionProxy, e.bastionProxy, b3);
    OneMore(b, s1 + Optional(Strategy, e.strategy) + Optional(BastionProxy, e.bastionProxy), b3,
            BastionUser, e.bastionUser, b4);
    assert s1 == Optional(ProxyJump, e.proxyJump);
  }

  lemma ApplyAccounts(b: HostEntry, e: HostEntry)
    requires b.bastionAccount == b.bastionPreset == b.bastionFormat == None && b.bastionPort == None
    ensures ApplySettings(b, AccountSettings(e)) ==
            Ok(b.(bastionAccount := e.bastionAccount, bastionPort := e.bastionPort, bastionPreset := e.bastionPreset,
                  bastionFormat := e.bastionFormat))
  {
    if e.bastionPort.Some? { PortRoundTrip(e.bastionPort.value); }
    var b1 := b.(bastionAccount := e.bastionAccount);
    var b2 := b1.(bastionPort := e.bastionPort);
    var b3 := b2.(bastionPreset := e.bastionPreset);
    var b4 := b3.(bastionFormat := e.bastionFormat);
    assert ApplySettings(b, []) == Ok(b);
    hide ApplySettings, Optional, Decimal, ParseU16;
    var s1 := [] + Optional(BastionAccount, e.bastionAccount);
    var s2 := s1 + Optional(BastionPort, PortText(e.bastionPort));
    OneMore(b, [], b, BastionAccount, e.bastionAccount, b1);
    OneMore(b, s1, b1, BastionPort, PortText(e.bastionPort), b2);
    OneMore(b, s2, b2, BastionPreset, e.bastionPreset, b3);
    OneMore(b, s2 + Optional(BastionPreset, e.bastionPreset), b3, BastionFormat, e.bastionFormat, b4);
    assert s1 == Optional(BastionAccount, e.bastionAccount);
  }

  /** Reading an entry's own settings back into a blank one rebuilds the entry. */
  lemma SettingsRoundTrip(e: HostEntry)
    ensures ApplySettings(Blank(e.name), Settings(e)) == Ok(e)
  {
    hide ApplySettings, RequiredSettings, JumpSettings, AccountSettings;
    var b := Blank(e.name).(hostname := e.hostname, user := e.user, port := e.port);
    ApplyRequired(e);
    ApplyJumps(b, e);
    ApplyAppend(Blank(e.name), RequiredSettings(e), JumpSettings(e));
    var c := b.(proxyJump := e.proxyJump, strategy := e.strategy, bastionProxy := e.bastionProxy,
                bastionUser := e.bastionUser);
    ApplyAccounts(c, e);
    ApplyAppend(Blank(e.name), RequiredSettings(e) + JumpSettings(e), AccountSettings(e));
  }
}
