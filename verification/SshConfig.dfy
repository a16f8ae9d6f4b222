/** The second reader of the configuration text: first usable value per keyword among the active blocks. */
module SshConfig {
  import opened Wrappers
  import opened Text
  import opened ConfigText
  import opened Hosts
  import opened HostStore

  datatype Bastion = Bastion(
    host: string, port: u16, user: string, account: string, preset: Option<string>, format: string)

  datatype Destination = Destination(
    hostname: string, port: u16, user: string, identity: Option<string>, proxyJump: Option<string>,
    bastion: Option<Bastion>)

  /** The value that switches a jump off. */
  predicate IsNoJump(value: string) {
    value == "none"
  }

  function ExpandHome(value: string, home: Option<string>): string {
    if "~/" <= value && home.Some? then home.value + "/" + value[2..] else value
  }

  // ---------------------------------------------------------------- The flag-driven loop

  /** Local variables of the loop: what has been set so far, and the values set. */
  datatype Scan = Scan(
    active: bool,
    hostnameSet: bool, userSet: bool, portSet: bool, identitySet: bool, proxyJumpSet: bool,
    bastionHostSet: bool, bastionUserSet: bool, bastionAccountSet: bool, bastionPortSet: bool,
    bastionFormatSet: bool, bastionPresetSet: bool,
    bastionHost: string, bastionPort: u16, bastionUser: string, bastionAccount: string,
    bastionFormat: string, bastionPreset: string,
    destination: Destination)

  predicate Matches(value: string, alias: string) {
    alias in SplitSpaces(value) || "*" in SplitSpaces(value)
  }

  function StartScan(allowUser: bool, d: Destination): Scan {
    Scan(false, false, !allowUser, false, false, false, false, false, false, false, false, false,
         "", 22, "", "", "", "", d)
  }

  /** A keyword inside an active block; a set keyword, like an unusable port, changes nothing. */
  function ScanSetting(s: Scan, k: Key, value: string, home: Option<string>): Scan {
    match k
    case HostName =>
      if s.hostnameSet then s else s.(destination := s.destination.(hostname := value), hostnameSet := true)
    case User =>
      if s.userSet then s else s.(destination := s.destination.(user := value), userSet := true)
    case Port =>
      if s.portSet || ParseU16(value) == None then s
      else s.(destination := s.destination.(port := ParseU16(value).value), portSet := true)
    case IdentityFile =>
      if s.identitySet then s
      else s.(destination := s.destination.(identity := Some(ExpandHome(value, home))), identitySet := true)
    case ProxyJump =>
      if s.proxyJumpSet then s
      else if !IsNoJump(value) then s.(destination := s.destination.(proxyJump := Some(value)), proxyJumpSet := true)
      else s.(proxyJumpSet := true)
    case BastionProxy => if s.bastionHostSet then s else s.(bastionHost := value, bastionHostSet := true)
    case BastionUser => if s.bastionUserSet then s else s.(bastionUser := value, bastionUserSet := true)
    case BastionAccount => if s.bastionAccountSet then s else s.(bastionAccount := value, bastionAccountSet := true)
    case BastionPort =>
      if s.bastionPortSet || ParseU16(value) == None then s
      else s.(bastionPort := ParseU16(value).value, bastionPortSet := true)
    case BastionFormat => if s.bastionFormatSet then s else s.(bastionFormat := value, bastionFormatSet := true)
    case BastionPreset => if s.bastionPresetSet then s else s.(bastionPreset := value, bastionPresetSet := true)
    case _ => s
  }

  function ScanLine(s: Scan, line: string, alias: string, home: Option<string>): Scan {
    var directive := Directive(line);
    if directive == None then s
    else
      var (word, value) := directive.value;
      var key := KeyOf(word);
      if key == Some(Host) then s.(active := Matches(value, alias))
      else if !s.active || key == None then s
      else ScanSetting(s, key.value, value, home)
  }

  function FinishScan(s: Scan): Destination {
    if s.bastionHostSet && s.bastionHost != "" then
      s.destination.(bastion := Some(Bastion(
        s.bastionHost, s.bastionPort, s.bastionUser, s.bastionAccount,
        if s.bastionPresetSet then Some(s.bastionPreset) else None,
        if s.bastionFormat == "" then DEFAULT_FORMAT else s.bastionFormat)))
    else s.destination
  }

  // ---------------------------------------------------------------- The declarative reading

  /** Settings of the blocks that apply to `alias`, in order. */
  function ActiveSettings(lines: seq<string>, alias: string, active: bool): seq<Setting> {
    if lines == [] then []
    else
      var directive := Directive(lines[0]);
      if directive == None then ActiveSettings(lines[1..], alias, active)
      else
        var (word, value) := directive.value;
        var key := KeyOf(word);
        if key == Some(Host) then ActiveSettings(lines[1..], alias, Matches(value, alias))
        else if !active || key == None then ActiveSettings(lines[1..], alias, active)
        else [Setting(key.value, value)] + ActiveSettings(lines[1..], alias, active)
  }

  function First(settings: seq<Setting>, k: Key): Option<string> {
    if settings == [] then None
    else if settings[0].key == k then Some(settings[0].value)
    else First(settings[1..], k)
  }

  function FirstPort(settings: seq<Setting>, k: Key): Option<u16> {
    if settings == [] then None
    else if settings[0].key == k && ParseU16(settings[0].value).Some? then ParseU16(settings[0].value)
    else FirstPort(settings[1..], k)
  }

  /** The first usable value of each keyword. */
  datatype Found = Found(
    hostname: Option<string>, user: Option<string>, port: Option<u16>, identity: Option<string>,
    proxyJump: Option<string>, bastionHost: Option<string>, bastionUser: Option<string>,
    bastionAccount: Option<string>, bastionPort: Option<u16>, bastionFormat: Option<string>,
    bastionPreset: Option<string>)

  function FoundIn(s: seq<Setting>): Found {
    Found(First(s, HostName), First(s, User), FirstPort(s, Port), First(s, IdentityFile), First(s, ProxyJump),
          First(s, BastionProxy), First(s, BastionUser), First(s, BastionAccount), FirstPort(s, BastionPort),
          First(s, BastionFormat), First(s, BastionPreset))
  }

  function DeclaredBastion(f: Found): Option<Bastion> {
    if f.bastionHost == None || f.bastionHost == Some("") then None
    else
      var format := f.bastionFormat.GetOr("");
      Some(Bastion(f.bastionHost.value, f.bastionPort.GetOr(22), f.bastionUser.GetOr(""), f.bastionAccount.GetOr(""),
                   f.bastionPreset, if format == "" then DEFAULT_FORMAT else format))
  }

  /** Everything but the bastion. */
  function DeclaredHost(f: Found, allowUser: bool, home: Option<string>, d: Destination): Destination {
    Destination(
      f.hostname.GetOr(d.hostname),
      f.port.GetOr(d.port),
      if allowUser then f.user.GetOr(d.user) else d.user,
      if f.identity.Some? then Some(ExpandHome(f.identity.value, home)) else d.identity,
      if f.proxyJump.Some? && !IsNoJump(f.proxyJump.value) then f.proxyJump else d.proxyJump,
      d.bastion)
  }

  function Declared(f: Found, allowUser: bool, home: Option<string>, d: Destination): Destination {
    var bastion := DeclaredBastion(f);
    DeclaredHost(f, allowUser, home, d).(bastion := if bastion.Some? then bastion else d.bastion)
  }

  /** The loop's variables as functions of the values found so far. */
  function ScanOf(f: Found, active: bool, allowUser: bool, home: Option<string>, d: Destination): Scan {
    Scan(active,
         f.hostname.Some?, !allowUser || f.user.Some?, f.port.Some?, f.identity.Some?, f.proxyJump.Some?,
         f.bastionHost.Some?, f.bastionUser.Some?, f.bastionAccount.Some?, f.bastionPort.Some?,
         f.bastionFormat.Some?, f.bastionPreset.Some?,
         f.bastionHost.GetOr(""), f.bastionPort.GetOr(22), f.bastionUser.GetOr(""), f.bastionAccount.GetOr(""),
         f.bastionFormat.GetOr(""), f.bastionPreset.GetOr(""),
         DeclaredHost(f, allowUser, home, d))
  }

  function OrElse<T>(first: Option<T>, second: Option<T>): Option<T> {
    if first.Some? then first else second
  }

  /** One more setting: it counts only where nothing usable was found before. */
  function Note(f: Found, k: Key, value: string): Found {
    match k
    case HostName => f.(hostname := OrElse(f.hostname, Some(value)))
    case User => f.(user := OrElse(f.user, Some(value)))
    case Port => f.(port := OrElse(f.port, ParseU16(value)))
    case IdentityFile => f.(identity := OrElse(f.identity, Some(value)))
    case ProxyJump => f.(proxyJump := OrElse(f.proxyJump, Some(value)))
    case BastionProxy => f.(bastionHost := OrElse(f.bastionHost, Some(value)))
    case BastionUser => f.(bastionUser := OrElse(f.bastionUser, Some(value)))
    case BastionAccount => f.(bastionAccount := OrElse(f.bastionAccount, Some(value)))
    case BastionPort => f.(bastionPort := OrElse(f.bastionPort, ParseU16(value)))
    case BastionFormat => f.(bastionFormat := OrElse(f.bastionFormat, Some(value)))
    case BastionPreset => f.(bastionPreset := OrElse(f.bastionPreset, Some(value)))
    case _ => f
  }

  lemma {:induction false} FirstAppend(a: seq<Setting>, b: seq<Setting>, k: Key)
    ensures First(a + b, k) == if First(a, k).Some? then First(a, k) else First(b, k)
  {
    if a == [] {
      assert a + b == b;
    } else {
      assert (a + b)[1..] == a[1..] + b;
      FirstAppend(a[1..], b, k);
    }
  }

  lemma {:induction false} FirstPortAppend(a: seq<Setting>, b: seq<Setting>, k: Key)
    ensures FirstPort(a + b, k) == if FirstPort(a, k).Some? then FirstPort(a, k) else FirstPort(b, k)
  {
    hide ParseU16;
    if a == [] {
      assert a + b == b;
    } else {
      assert (a + b)[1..] == a[1..] + b;
      FirstPortAppend(a[1..], b, k);
    }
  }

  lemma FirstSnoc(s: seq<Setting>, k: Key, value: string, j: Key)
    ensures First(s + [Setting(k, value)], j) == if j == k then OrElse(First(s, j), Some(value)) else First(s, j)
    ensures FirstPort(s + [Setting(k, value)], j) ==
            if j == k then OrElse(FirstPort(s, j), ParseU16(value)) else FirstPort(s, j)
  {
    FirstAppend(s, [Setting(k, value)], j);
    FirstPortAppend(s, [Setting(k, value)], j);
    hide ParseU16;
  }

  lemma FoundSnoc(s: seq<Setting>, k: Key, value: string)
    ensures FoundIn(s + [Setting(k, value)]) == Note(FoundIn(s), k, value)
  {
    hide First, FirstPort, ParseU16;
    FirstSnoc(s, k, value, HostName);
    FirstSnoc(s, k, value, User);
    FirstSnoc(s, k, value, Port);
    FirstSnoc(s, k, value, IdentityFile);
    FirstSnoc(s, k, value, ProxyJump);
    FirstSnoc(s, k, value, BastionProxy);
    FirstSnoc(s, k, value, BastionUser);
    FirstSnoc(s, k, value, BastionAccount);
    FirstSnoc(s, k, value, BastionPort);
    FirstSnoc(s, k, value, BastionFormat);
    FirstSnoc(s, k, value, BastionPreset);
  }

  predicate IsHostKey(k: Key) {
    k == HostName || k == User || k == Port || k == IdentityFile || k == ProxyJump
  }

  lemma NameStep(f: Found, k: Key, value: string, allowUser: bool, home: Option<string>, d: Destination)
    requires k == HostName || k == User
    ensures ScanSetting(ScanOf(f, true, allowUser, home, d), k, value, home) ==
            ScanOf(Note(f, k, value), true, allowUser, home, d)
  {
    hide ParseU16, ExpandHome;
  }

  lemma PortStep(f: Found, k: Key, value: string, allowUser: bool, home: Option<string>, d: Destination)
    requires k == Port || k == IdentityFile
    ensures ScanSetting(ScanOf(f, true, allowUser, home, d), k, value, home) ==
            ScanOf(Note(f, k, value), true, allowUser, home, d)
  {
    hide ParseU16, ExpandHome, IsNoJump;
    if k == Port { OnlyPortStep(f, value, allowUser, home, d); } else {
      OnlyIdentityStep(f, value, allowUser, home, d);
    }
    hide ScanSetting, ScanOf, Note;
  }

  lemma OnlyPortStep(f: Found, value: string, allowUser: bool, home: Option<string>, d: Destination)
    ensures ScanSetting(ScanOf(f, true, allowUser, home, d), Port, value, home) ==
            ScanOf(Note(f, Port, value), true, allowUser, home, d)
  {
    hide ParseU16, ExpandHome, IsNoJump, DeclaredBastion;
  }

  lemma OnlyIdentityStep(f: Found, value: string, allowUser: bool, home: Option<string>, d: Destination)
    ensures ScanSetting(ScanOf(f, true, allowUser, home, d), IdentityFile, value, home) ==
            ScanOf(Note(f, IdentityFile, value), true, allowUser, home, d)
  {
    hide ParseU16, ExpandHome, IsNoJump, DeclaredBastion;
  }

  lemma JumpStep(f: Found, value: string, allowUser: bool, home: Option<string>, d: Destination)
    ensures ScanSetting(ScanOf(f, true, allowUser, home, d), ProxyJump, value, home) ==
            ScanOf(Note(f, ProxyJump, value), true, allowUser, home, d)
  {
    var g := f.(proxyJump := OrElse(f.proxyJump, Some(value)));
    assert Note(f, ProxyJump, value) == g;
    assert DeclaredHost(g, allowUser, home, d) ==
           if f.proxyJump.Some? || IsNoJump(value) then DeclaredHost(f, allowUser, home, d)
           else DeclaredHost(f, allowUser, home, d).(proxyJump := Some(value)) by {
      hide ExpandHome, IsNoJump;
    }
    hide ParseU16, ExpandHome, IsNoJump, DeclaredHost, Note;
  }

  lemma BastionStep(f: Found, k: Key, value: string, allowUser: bool, home: Option<string>, d: Destination)
    requires !IsHostKey(k)
    ensures ScanSetting(ScanOf(f, true, allowUser, home, d), k, value, home) ==
            ScanOf(Note(f, k, value), true, allowUser, home, d)
  {
    assert DeclaredHost(Note(f, k, value), allowUser, home, d) == DeclaredHost(f, allowUser, home, d) by {
      hide ParseU16, ExpandHome;
    }
    hide ParseU16, ExpandHome, DeclaredHost;
  }

  /** One keyword: the flag keeps the first usable value, as the declarative reading does. */
  lemma ScanSettingStep(f: Found, k: Key, value: string, allowUser: bool, home: Option<string>, d: Destination)
    ensures ScanSetting(ScanOf(f, true, allowUser, home, d), k, value, home) ==
            ScanOf(Note(f, k, value), true, allowUser, home, d)
  {
    hide ScanSetting, ScanOf, Note;
    if k == HostName || k == User {
      NameStep(f, k, value, allowUser, home, d);
    } else if k == Port || k == IdentityFile {
      PortStep(f, k, value, allowUser, home, d);
    } else if k == ProxyJump {
      JumpStep(f, value, allowUser, home, d);
    } else {
      BastionStep(f, k, value, allowUser, home, d);
    }
  }

  lemma FinishDeclared(f: Found, active: bool, allowUser: bool, home: Option<string>, d: Destination)
    ensures FinishScan(ScanOf(f, active, allowUser, home, d)) == Declared(f, allowUser, home, d)
  {
    hide ExpandHome;
  }

  method ApplySshConfig(source: string, alias: string, allowUser: bool, home: Option<string>, d: Destination)
    returns (r: Destination)
    ensures r == Declared(FoundIn(ActiveSettings(Lines(source), alias, false)), allowUser, home, d)
  {
    hide Lines, Directive, KeyOf, Matches, ScanSetting, ScanOf, Declared, FinishScan, FoundIn, Note;
    var scan := StartScan(allowUser, d);
    assert scan == ScanOf(FoundIn([]), false, allowUser, home, d) by { StartIsScanOf(allowUser, home, d); }
    var lines := Lines(source);
    ghost var done: seq<Setting> := [];
    var i := 0;
    while i < |lines|
      invariant 0 <= i <= |lines|
      invariant scan == ScanOf(FoundIn(done), scan.active, allowUser, home, d)
      invariant ActiveSettings(lines, alias, false) == done + ActiveSettings(lines[i..], alias, scan.active)
    {
      assert lines[i..][1..] == lines[i + 1..];
      var directive := Directive(lines[i]);
      if directive.Some? {
        var (word, value) := directive.value;
        var key := KeyOf(word);
        if key == Some(Host) {
          ScanActive(FoundIn(done), scan.active, Matches(value, alias), allowUser, home, d);
        } else if scan.active && key.Some? {
          ScanSettingStep(FoundIn(done), key.value, value, allowUser, home, d);
          FoundSnoc(done, key.value, value);
          ScanActive(FoundIn(done + [Setting(key.value, value)]), true, true, allowUser, home, d);
          assert done + ([Setting(key.value, value)] + ActiveSettings(lines[i + 1..], alias, true))
              == (done + [Setting(key.value, value)]) + ActiveSettings(lines[i + 1..], alias, true);
          done := done + [Setting(key.value, value)];
        }
      }
      scan := ScanLine(scan, lines[i], alias, home);
      i := i + 1;
    }
    assert done + [] == done;
    FinishDeclared(FoundIn(done), scan.active, allowUser, home, d);
    r := FinishScan(scan);
  }

  lemma StartIsScanOf(allowUser: bool, home: Option<string>, d: Destination)
    ensures StartScan(allowUser, d) == ScanOf(FoundIn([]), false, allowUser, home, d)
  {
  }

  lemma ScanActive(f: Found, before: bool, after: bool, allowUser: bool, home: Option<string>, d: Destination)
    ensures ScanOf(f, before, allowUser, home, d).(active := after) == ScanOf(f, after, allowUser, home, d)
    ensures ScanOf(f, before, allowUser, home, d).active == before
  {
    hide DeclaredHost;
  }

  // ---------------------------------------------------------------- Agreement on rendered text

  /** The value an entry writes for a keyword. */
  function WrittenValue(e: HostEntry, k: Key): Option<string> {
    match k
    case HostName => Some(e.hostname)
    case User => Some(e.user)
    case Port => Some(Decimal(e.port))
    case ProxyJump => e.proxyJump
    case Strategy => e.strategy
    case BastionProxy => e.bastionProxy
    case BastionUser => e.bastionUser
    case BastionAccount => e.bastionAccount
    case BastionPort => PortText(e.bastionPort)
    case BastionPreset => e.bastionPreset
    case BastionFormat => e.bastionFormat
    case _ => None
  }

  lemma FirstFour(a: seq<Setting>, b: seq<Setting>, c: seq<Setting>, d: seq<Setting>, k: Key)
    ensures First(a + b + c + d, k) ==
            if First(a, k).Some? then First(a, k) else if First(b, k).Some? then First(b, k)
            else if First(c, k).Some? then First(c, k) else First(d, k)
  {
    hide First;
    FirstAppend(a, b, k);
    FirstAppend(a + b, c, k);
    FirstAppend(a + b + c, d, k);
  }

  lemma FirstOptional(j: Key, v: Option<string>, k: Key)
    ensures First(Optional(j, v), k) == if j == k then v else None
  {
  }

  lemma FirstRequired(e: HostEntry, k: Key)
    ensures First(RequiredSettings(e), k) == if k == HostName || k == User || k == Port then WrittenValue(e, k)
        else None
  {
    hide Decimal;
    var s := RequiredSettings(e);
    assert s == Optional(HostName, Some(e.hostname)) + Optional(User, Some(e.user)) +
        Optional(Port, Some(Decimal(e.port)))
                + Optional(Port, None);
    FirstOptional(HostName, Some(e.hostname), k);
    FirstOptional(User, Some(e.user), k);
    FirstOptional(Port, Some(Decimal(e.port)), k);
    FirstOptional(Port, None, k);
    hide First, Optional;
    FirstFour(Optional(HostName, Some(e.hostname)), Optional(User, Some(e.user)),
              Optional(Port, Some(Decimal(e.port))), Optional(Port, None), k);
  }

  lemma FirstJumps(e: HostEntry, k: Key)
    ensures First(JumpSettings(e), k) ==
            if k == ProxyJump || k == Strategy || k == BastionProxy || k == BastionUser then WrittenValue(e, k)
                else None
  {
    hide First, Optional;
    FirstOptional(ProxyJump, e.proxyJump, k);
    FirstOptional(Strategy, e.strategy, k);
    FirstOptional(BastionProxy, e.bastionProxy, k);
    FirstOptional(BastionUser, e.bastionUser, k);
    FirstFour(Optional(ProxyJump, e.proxyJump), Optional(Strategy, e.strategy),
              Optional(BastionProxy, e.bastionProxy), Optional(BastionUser, e.bastionUser), k);
  }

  lemma FirstAccounts(e: HostEntry, k: Key)
    ensures First(AccountSettings(e), k) ==
            if k == BastionAccount || k == BastionPort || k == BastionPreset || k == BastionFormat
            then WrittenValue(e, k) else None
  {
    hide First, Optional, PortText;
    FirstOptional(BastionAccount, e.bastionAccount, k);
    FirstOptional(BastionPort, PortText(e.bastionPort), k);
    FirstOptional(BastionPreset, e.bastionPreset, k);
    FirstOptional(BastionFormat, e.bastionFormat, k);
    FirstFour(Optional(BastionAccount, e.bastionAccount), Optional(BastionPort, PortText(e.bastionPort)),
              Optional(BastionPreset, e.bastionPreset), Optional(BastionFormat, e.bastionFormat), k);
  }

  lemma FirstWritten(e: HostEntry, k: Key)
    ensures First(Settings(e), k) == WrittenValue(e, k)
  {
    hide First, RequiredSettings, JumpSettings, AccountSettings;
    FirstRequired(e, k);
    FirstJumps(e, k);
    FirstAccounts(e, k);
    FirstAppend(RequiredSettings(e), JumpSettings(e), k);
    FirstAppend(RequiredSettings(e) + JumpSettings(e), AccountSettings(e), k);
  }

  /** A keyword written at most once and with a usable port gives that port. */
  lemma {:induction false} FirstPortOnce(s: seq<Setting>, k: Key)
    requires forall i :: 0 <= i < |s| && s[i].key == k ==> ParseU16(s[i].value).Some?
    ensures FirstPort(s, k) == match First(s, k) case None => None case Some(v) => ParseU16(v)
  {
    hide ParseU16;
    if s != [] { FirstPortOnce(s[1..], k); }
  }

  /** The bastion the host commands build from an entry. */
  function BastionOf(e: HostEntry): Option<Bastion> {
    if e.bastionProxy == None then None
    else Some(Bastion(e.bastionProxy.value, e.bastionPort.GetOr(22), e.bastionUser.GetOr(""),
                      e.bastionAccount.GetOr(""), e.bastionPreset, e.bastionFormat.GetOr(DEFAULT_FORMAT)))
  }

  lemma {:induction false} ActiveAppend(a: seq<string>, b: seq<string>, alias: string, active: bool)
    requires forall i :: 0 <= i < |a| ==> Directive(a[i]).None? || KeyOf(Directive(a[i]).value.0) != Some(Host)
    ensures ActiveSettings(a + b, alias, active) == ActiveSettings(a, alias, active) + ActiveSettings(b, alias, active)
  {
    hide Directive, KeyOf, Matches;
    if a == [] {
      assert a + b == b;
    } else {
      assert (a + b)[1..] == a[1..] + b;
      ActiveAppend(a[1..], b, alias, active);
    }
  }

  lemma {:induction false} ActiveLines(settings: seq<Setting>, alias: string, active: bool)
    requires GoodSettings(settings)
    ensures ActiveSettings(SettingLines(settings), alias, active) == if active then settings else []
    ensures var a := SettingLines(settings);
            forall i :: 0 <= i < |a| ==> Directive(a[i]).None? || KeyOf(Directive(a[i]).value.0) != Some(Host)
  {
    hide Directive, KeyOf, Matches, IsValue, SettingLine;
    if settings != [] {
      var s := settings[0];
      SettingDirective(s.key, s.value);
      assert SettingLines(settings)[1..] == SettingLines(settings[1..]);
      ActiveLines(settings[1..], alias, active);
      assert [s] + settings[1..] == settings;
      var a := SettingLines(settings);
      forall i | 0 <= i < |a| ensures Directive(a[i]).None? || KeyOf(Directive(a[i]).value.0) != Some(Host) {
        SettingDirective(settings[i].key, settings[i].value);
      }
    }
  }

  /** What an alias is given: the settings of every entry that has it for a name, or for one word of a name. */
  function ActiveFor(entries: seq<HostEntry>, alias: string): seq<Setting> {
    if entries == [] then []
    else (if Matches(entries[0].name, alias) then Settings(entries[0]) else []) + ActiveFor(entries[1..], alias)
  }

  /** Among the names of the file only the entry's own has its name as a word. */
  predicate OwnName(entries: seq<HostEntry>, n: nat)
    requires n < |entries|
  {
    forall i :: 0 <= i < |entries| ==> (Matches(entries[i].name, entries[n].name) <==> i == n)
  }

  lemma NameMatches(name: string, alias: string)
    requires NoSpace(name) && ValidToken(name)
    ensures Matches(name, alias) <==> name == alias
  {
    SplitValue(name);
    assert name != "*" by { assert "*"[0] == '*'; }
  }

  /** So it is when no name has white space inside and no two are the same. */
  lemma PlainNamesAreOwn(entries: seq<HostEntry>, n: nat)
    requires GoodEntries(entries) && n < |entries| && forall i :: 0 <= i < |entries| ==> NoSpace(entries[i].name)
    requires forall i, j :: 0 <= i < j < |entries| ==> entries[i].name != entries[j].name
    ensures OwnName(entries, n)
  {
    forall i | 0 <= i < |entries| ensures Matches(entries[i].name, entries[n].name) <==> i == n {
      assert GoodEntry(entries[i]);
      NameMatches(entries[i].name, entries[n].name);
      hide NoSpace, ValidToken, Matches;
    }
  }

  lemma {:induction false} PieceFacts(v: string, w: string)
    requires w in SplitSpaces(v)
    ensures NoSpace(w) && w != "" && forall c :: c in w ==> c in v
    decreases |v|
  {
    var n := FirstSpace(v);
    if n > 0 && w == v[..n] {
    } else {
      PieceFacts(v[n + 1..], w);
    }
  }

  /** A name with white space inside is a word of no name. */
  lemma SpacedMatchesNothing(name: string, alias: string)
    requires ValidToken(name) && !NoSpace(alias)
    ensures !Matches(name, alias)
  {
    if alias in SplitSpaces(name) {
      PieceFacts(name, alias);
      assert false;
    }
    assert "*"[0] == '*';
    if "*" in SplitSpaces(name) {
      PieceFacts(name, "*");
      assert false;
    }
  }

  lemma ActiveEntry(e: HostEntry, rest: seq<string>, alias: string, active: bool)
    requires GoodEntry(e)
    ensures ActiveSettings(EntryLines(e) + rest, alias, active) ==
            (if Matches(e.name, alias) then Settings(e) else []) + ActiveSettings(rest, alias, Matches(e.name, alias))
  {
    SettingsGood(e);
    assert IsValue(e.name);
    hide ValidEntry, TrimmedEntry, Settings, Directive, KeyOf, Matches, IsValue, SettingLines, GoodSettings;
    HostDirective(e.name);
    var mine := Matches(e.name, alias);
    var body := SettingLines(Settings(e));
    assert EntryLines(e) + rest == ["Host " + e.name] + (body + ([""] + rest));
    var tail := body + ([""] + rest);
    assert (["Host " + e.name] + tail)[1..] == tail;
    ActiveLines(Settings(e), alias, mine);
    ActiveAppend(body, [""] + rest, alias, mine);
    assert Directive("") == None by { EmptyIsNothing(); }
    assert ([""] + rest)[1..] == rest;
  }

  lemma EmptyIsNothing()
    ensures Directive("") == None
  {
  }

  lemma {:induction false} ActiveAll(entries: seq<HostEntry>, alias: string, active: bool)
    requires GoodEntries(entries) && (entries != [] || !active)
    ensures ActiveSettings(AllLines(entries), alias, active) == ActiveFor(entries, alias)
  {
    hide GoodEntry, EntryLines, Settings, Matches;
    if entries != [] {
      var mine := Matches(entries[0].name, alias);
      ActiveEntry(entries[0], AllLines(entries[1..]), alias, active);
      if entries[1..] != [] {
        ActiveAll(entries[1..], alias, mine);
      } else {
        assert AllLines(entries[1..]) == [];
        assert ActiveSettings([], alias, mine) == [];
      }
    }
  }

  lemma {:induction false} ActiveForNone(entries: seq<HostEntry>, alias: string)
    requires forall i :: 0 <= i < |entries| ==> !Matches(entries[i].name, alias)
    ensures ActiveFor(entries, alias) == []
  {
    hide Matches, Settings;
    if entries != [] { ActiveForNone(entries[1..], alias); }
  }

  lemma {:induction false} ActiveForOwn(entries: seq<HostEntry>, alias: string, n: nat)
    requires n < |entries| && forall i :: 0 <= i < |entries| ==> (Matches(entries[i].name, alias) <==> i == n)
    ensures ActiveFor(entries, alias) == Settings(entries[n])
  {
    hide Matches, Settings;
    if n == 0 {
      ActiveForNone(entries[1..], alias);
      assert Settings(entries[0]) + [] == Settings(entries[0]);
    } else {
      ActiveForOwn(entries[1..], alias, n - 1);
      assert [] + Settings(entries[n]) == Settings(entries[n]);
    }
  }

  lemma {:induction false} ActiveForSize(entries: seq<HostEntry>, alias: string, n: nat)
    requires n < |entries| && Matches(entries[n].name, alias)
    ensures |ActiveFor(entries, alias)| >= |Settings(entries[n])|
  {
    hide Matches, Settings;
    if n > 0 { ActiveForSize(entries[1..], alias, n - 1); }
  }

  lemma {:induction false} ActiveForTwo(entries: seq<HostEntry>, alias: string, i: nat, j: nat)
    requires i < j < |entries| && Matches(entries[i].name, alias) && Matches(entries[j].name, alias)
    ensures |ActiveFor(entries, alias)| >= |Settings(entries[i])| + |Settings(entries[j])|
  {
    hide Matches, Settings;
    if i == 0 {
      ActiveForSize(entries[1..], alias, j - 1);
    } else {
      ActiveForTwo(entries[1..], alias, i - 1, j - 1);
    }
  }

  lemma SettingsNotEmpty(e: HostEntry)
    ensures |Settings(e)| >= 3
  {
  }

  /** It is given its own settings exactly when the file has no other entry for it, and it is one word itself. */
  lemma OwnSettingsExactly(entries: seq<HostEntry>, n: nat)
    requires GoodEntries(entries) && n < |entries|
    ensures ActiveFor(entries, entries[n].name) == Settings(entries[n]) <==> OwnName(entries, n)
  {
    var alias := entries[n].name;
    SettingsNotEmpty(entries[n]);
    hide Settings, ActiveFor, Matches;
    if OwnName(entries, n) { ActiveForOwn(entries, alias, n); }
    if ActiveFor(entries, alias) == Settings(entries[n]) {
      if !NoSpace(alias) {
        forall i | 0 <= i < |entries| ensures !Matches(entries[i].name, alias) {
          assert GoodEntry(entries[i]);
          SpacedMatchesNothing(entries[i].name, alias);
          hide NoSpace;
        }
        ActiveForNone(entries, alias);
        assert false;
      }
      assert GoodEntry(entries[n]);
      NameMatches(alias, alias);
      forall i | 0 <= i < |entries| ensures Matches(entries[i].name, alias) <==> i == n {
        if i != n && Matches(entries[i].name, alias) {
          SettingsNotEmpty(entries[i]);
          ActiveForTwo(entries, alias, if i < n then i else n, if i < n then n else i);
          assert false;
        }
      }
    }
  }

  /**
   Reading the rendered file for an alias yields the settings of the entries that have it as a word of their
   name: its own settings alone exactly when the name is its own.
   */
  lemma ActiveRendered(entries: seq<HostEntry>, alias: string)
    requires GoodEntries(entries)
    ensures ActiveSettings(Lines(Rendered(entries)), alias, false) == ActiveFor(entries, alias)
    ensures forall n :: 0 <= n < |entries| && entries[n].name == alias ==>
      (ActiveSettings(Lines(Rendered(entries)), alias, false) == Settings(entries[n]) <==> OwnName(entries, n))
  {
    forall n | 0 <= n < |entries| && entries[n].name == alias
      ensures ActiveFor(entries, alias) == Settings(entries[n]) <==> OwnName(entries, n)
    {
      OwnSettingsExactly(entries, n);
    }
    hide GoodEntry, AllLines, HEADER_LINES, Lines, Unlines, NoSpace, Settings, IsLine, OwnName, ActiveFor;
    HeaderLines();
    AllIsLines(entries);
    LinesUnlines(HEADER_LINES + AllLines(entries));
    ActiveAll(entries, alias, false);
    HeaderInactive(alias);
    ActiveAppend(HEADER_LINES, AllLines(entries), alias, false);
    assert [] + ActiveFor(entries, alias) == ActiveFor(entries, alias);
  }

  lemma HeaderInactive(alias: string)
    ensures forall i :: 0 <= i < |HEADER_LINES| ==>
      Directive(HEADER_LINES[i]).None? || KeyOf(Directive(HEADER_LINES[i]).value.0) != Some(Host)
    ensures ActiveSettings(HEADER_LINES, alias, false) == []
  {
    CommentLine();
    IgnoreNotHost();
    EmptyIsNothing();
    hide Directive, KeyOf, Matches;
    var second := HEADER_LINES[1];
    assert HEADER_LINES == [HEADER_COMMENT, second, ""];
    hide HEADER_LINES, HEADER_COMMENT;
    NothingActive(HEADER_LINES, alias);
  }

  lemma {:induction false} NothingActive(lines: seq<string>, alias: string)
    requires forall i :: 0 <= i < |lines| ==>
        Directive(lines[i]).None? || KeyOf(Directive(lines[i]).value.0) != Some(Host)
    ensures ActiveSettings(lines, alias, false) == []
  {
    hide Directive, KeyOf, Matches;
    if lines != [] { NothingActive(lines[1..], alias); }
  }

  lemma IgnoreNotHost()
    ensures Directive(HEADER_LINES[1]).Some? && KeyOf(Directive(HEADER_LINES[1]).value.0) != Some(Host)
  {
    IgnoreDirective();
    NotHost();
    hide KeyOf, Directive, HEADER_LINES;
  }

  lemma PortsWritten(e: HostEntry)
    ensures FirstPort(Settings(e), Port) == Some(e.port)
    ensures FirstPort(Settings(e), BastionPort) == e.bastionPort
  {
    PortRoundTrip(e.port);
    if e.bastionPort.Some? { PortRoundTrip(e.bastionPort.value); }
    hide Decimal, ParseU16, First, FirstPort;
    PortOfGroups(e, Port);
    PortOfGroups(e, BastionPort);
  }

  predicate PortsUsable(s: seq<Setting>) {
    forall i :: 0 <= i < |s| && (s[i].key == Port || s[i].key == BastionPort) ==> ParseU16(s[i].value).Some?
  }

  lemma SettingsPortsUsable(e: HostEntry)
    ensures PortsUsable(Settings(e))
  {
    PortRoundTrip(e.port);
    if e.bastionPort.Some? { PortRoundTrip(e.bastionPort.value); }
    hide Decimal, ParseU16;
    assert PortsUsable(RequiredSettings(e));
    assert PortsUsable(JumpSettings(e)) by {
      assert forall i :: 0 <= i < |JumpSettings(e)| ==>
          JumpSettings(e)[i].key != Port && JumpSettings(e)[i].key != BastionPort;
    }
    assert PortsUsable(AccountSettings(e)) by { AccountPorts(e); }
    hide RequiredSettings, JumpSettings, AccountSettings;
  }

  lemma AccountPorts(e: HostEntry)
    ensures PortsUsable(AccountSettings(e))
  {
    if e.bastionPort.Some? { PortRoundTrip(e.bastionPort.value); }
    hide Decimal, ParseU16;
    var a, b := Optional(BastionAccount, e.bastionAccount), Optional(BastionPort, PortText(e.bastionPort));
    var c, d := Optional(BastionPreset, e.bastionPreset), Optional(BastionFormat, e.bastionFormat);
    assert PortsUsable(a) && PortsUsable(b) && PortsUsable(c) && PortsUsable(d);
    assert PortsUsable(a + b);
    assert PortsUsable(a + b + c);
  }

  lemma PortOfGroups(e: HostEntry, k: Key)
    requires k == Port || k == BastionPort
    ensures FirstPort(Settings(e), k) == match WrittenValue(e, k) case None => None case Some(v) => ParseU16(v)
  {
    hide Decimal, ParseU16, First, FirstPort, Settings;
    SettingsPortsUsable(e);
    FirstPortOnce(Settings(e), k);
    FirstWritten(e, k);
  }

  // ---------------------------------------------------------------- A name that is not its own

  const SPACED: string := "a\U{2003}b"

  function Named(name: string): HostEntry {
    Blank(name).(hostname := "box", user := "root")
  }

  lemma SpacedWords()
    ensures SplitSpaces(SPACED) == ["a", "b"] && SplitSpaces("b") == ["b"]
  {
    assert FirstSpace("a\U{2003}b") == 1 && FirstSpace("b") == 1;
    assert SPACED[..1] == "a" && SPACED[1..] == "\U{2003}b" && SPACED[1..][1..] == "b" && "b"[..1] == "b" &&
        "b"[1..] == "";
    assert SplitSpaces("") == [];
    assert SplitSpaces("b") == ["b"] + [];
  }

  lemma SpacedAreGood()
    ensures GoodEntry(Named(SPACED)) && GoodEntry(Named("b"))
  {
    assert SPACED[0] == 'a' && SPACED[2] == 'b' && |SPACED| == 3;
  }

  lemma SpacedMatches()
    ensures Matches(SPACED, "b") && Matches("b", "b") && !Matches(SPACED, SPACED) && !Matches("b", SPACED)
  {
    SpacedWords();
    assert SPACED != "*" && "b" != "*" && SPACED[0] == 'a' && |SPACED| == 3;
  }

  /**
   Validation takes `a b` with an em space between. In the file of that host and `b`, the second parser finds
   nothing for the one, and for the other the settings of both.
   */
  lemma SpacedExample()
    ensures var entries := [Named(SPACED), Named("b")];
            && GoodEntries(entries)
            && ActiveSettings(Lines(Rendered(entries)), SPACED, false) == []
            && ActiveSettings(Lines(Rendered(entries)), "b", false) == Settings(Named(SPACED)) + Settings(Named("b"))
            && !OwnName(entries, 0) && !OwnName(entries, 1)
  {
    hide Matches, Settings, GoodEntry, SPACED, Lines, Rendered, ActiveSettings, ActiveFor;
    var entries := [Named(SPACED), Named("b")];
    SpacedAreGood();
    SpacedMatches();
    assert entries[0].name == SPACED && entries[1].name == "b";
    ActiveRendered(entries, SPACED);
    ActiveRendered(entries, "b");
    TwoActive(Named(SPACED), Named("b"), SPACED);
    TwoActive(Named(SPACED), Named("b"), "b");
  }

  lemma TwoActive(x: HostEntry, y: HostEntry, alias: string)
    ensures ActiveFor([x, y], alias)
         == (if Matches(x.name, alias) then Settings(x) else []) + (if Matches(y.name, alias) then Settings(y) else [])
  {
    hide Matches, Settings;
    assert [x, y][1..] == [y] && [y][1..] == [] && ActiveFor([], alias) == [];
  }

  /**
   Cross-parser agreement: for good entries, reading the rendered file gives every alias whose name is its own
   the entry's hostname, user and port, its jump unless that is the literal `none`, and the bastion the host
   commands build from the same entry.
   */
  lemma ParsersAgree(entries: seq<HostEntry>, n: nat, home: Option<string>, d: Destination)
    requires GoodEntries(entries) && n < |entries| && OwnName(entries, n)
    ensures var e := entries[n];
            var r := Declared(FoundIn(ActiveSettings(Lines(Rendered(entries)), e.name, false)), true, home, d);
            && r.hostname == e.hostname && r.user == e.user && r.port == e.port && r.identity == d.identity
            && r.proxyJump == (if e.proxyJump.Some? && !IsNoJump(e.proxyJump.value) then e.proxyJump else d.proxyJump)
            && r.bastion == (if BastionOf(e).Some? then BastionOf(e) else d.bastion)
  {
    var e := entries[n];
    assert ValidEntry(e) by { assert GoodEntry(e); }
    NotEmpty(e);
    hide GoodEntry, GoodEntries, Lines, Rendered, ActiveSettings, ValidEntry, OwnName, FoundIn;
    ActiveRendered(entries, e.name);
    FoundWritten(e);
  }

  lemma NotEmpty(e: HostEntry)
    requires ValidEntry(e)
    ensures e.bastionProxy != Some("") && e.bastionFormat != Some("")
  {
  }

  lemma FoundWritten(e: HostEntry)
    ensures FoundIn(Settings(e)) ==
            Found(Some(e.hostname), Some(e.user), Some(e.port), None, e.proxyJump, e.bastionProxy, e.bastionUser,
                  e.bastionAccount, e.bastionPort, e.bastionFormat, e.bastionPreset)
  {
    hide First, FirstPort, Settings;
    FirstWritten(e, HostName);
    FirstWritten(e, User);
    FirstWritten(e, IdentityFile);
    FirstWritten(e, ProxyJump);
    FirstWritten(e, BastionProxy);
    FirstWritten(e, BastionUser);
    FirstWritten(e, BastionAccount);
    FirstWritten(e, BastionPreset);
    FirstWritten(e, BastionFormat);
    PortsWritten(e);
  }
}
