/** Adding and removing hosts in the managed file, as a refinement of a map under insertion and deletion. */
module HostFile {
  import opened Wrappers
  import opened Text
  import opened ConfigText
  import opened Hosts
  import opened HostStore

  // ---------------------------------------------------------------- Ordered entries (BTreeMap by name)

  predicate Less(a: string, b: string) {
    b != "" && (a == "" || a[0] < b[0] || (a[0] == b[0] && Less(a[1..], b[1..])))
  }

  lemma {:induction false} LessTotal(a: string, b: string)
    ensures Less(a, b) || Less(b, a) || a == b
    ensures !(Less(a, b) && Less(b, a)) && !Less(a, a)
  {
    if a != "" && b != "" && a[0] == b[0] {
      LessTotal(a[1..], b[1..]);
      LessTotal(a[1..], a[1..]);
      assert [a[0]] + a[1..] == a && [b[0]] + b[1..] == b;
    } else if a != "" {
      LessTotal(a[1..], a[1..]);
    }
  }

  lemma {:induction false} LessTransitive(a: string, b: string, c: string)
    requires Less(a, b) && Less(b, c)
    ensures Less(a, c)
  {
    if a != "" && a[0] == b[0] == c[0] { LessTransitive(a[1..], b[1..], c[1..]); }
  }

  ghost predicate Sorted(entries: seq<HostEntry>) {
    forall i, j :: 0 <= i < j < |entries| ==> Less(entries[i].name, entries[j].name)
  }

  function Insert(entries: seq<HostEntry>, e: HostEntry): seq<HostEntry> {
    if entries == [] then [e]
    else if entries[0].name == e.name then [e] + entries[1..]
    else if Less(e.name, entries[0].name) then [e] + entries
    else [entries[0]] + Insert(entries[1..], e)
  }

  function Delete(entries: seq<HostEntry>, name: string): seq<HostEntry> {
    if entries == [] then []
    else if entries[0].name == name then entries[1..]
    else [entries[0]] + Delete(entries[1..], name)
  }

  predicate HasName(entries: seq<HostEntry>, name: string) {
    exists i :: 0 <= i < |entries| && entries[i].name == name
  }

  /** Collecting parsed entries into the map: a later entry replaces an earlier one of the same name. */
  function Collect(entries: seq<HostEntry>): seq<HostEntry> {
    if entries == [] then []
    else Insert(Collect(entries[..|entries| - 1]), entries[|entries| - 1])
  }

  function ToMap(entries: seq<HostEntry>): map<string, HostEntry> {
    if entries == [] then map[] else ToMap(entries[1..])[entries[0].name := entries[0]]
  }

  lemma {:induction false} ToMapKeys(entries: seq<HostEntry>)
    ensures forall n :: n in ToMap(entries) <==> HasName(entries, n)
  {
    if entries != [] {
      var rest := entries[1..];
      ToMapKeys(rest);
      forall n ensures n in ToMap(entries) <==> HasName(entries, n) {
        if HasName(rest, n) {
          var i :| 0 <= i < |rest| && rest[i].name == n;
          assert entries[i + 1].name == n;
        }
        if HasName(entries, n) && entries[0].name != n {
          var i :| 0 <= i < |entries| && entries[i].name == n;
          assert rest[i - 1].name == n;
        }
      }
    }
  }

  lemma TailSorted(entries: seq<HostEntry>)
    requires Sorted(entries) && entries != []
    ensures Sorted(entries[1..]) && !HasName(entries[1..], entries[0].name)
  {
    forall i | 0 <= i < |entries[1..]| ensures entries[1..][i].name != entries[0].name {
      LessTotal(entries[0].name, entries[0].name);
      assert Less(entries[0].name, entries[i + 1].name);
    }
  }

  lemma ConsSorted(e: HostEntry, rest: seq<HostEntry>)
    requires Sorted(rest) && (rest != [] ==> Less(e.name, rest[0].name))
    ensures Sorted([e] + rest)
  {
    var s := [e] + rest;
    forall i, j | 0 <= i < j < |s| ensures Less(s[i].name, s[j].name) {
      if i == 0 && j > 1 {
        LessTransitive(e.name, rest[0].name, rest[j - 1].name);
      }
    }
  }

  lemma {:induction false} InsertSorted(entries: seq<HostEntry>, e: HostEntry)
    requires Sorted(entries)
    ensures Sorted(Insert(entries, e)) && Insert(entries, e) != []
    ensures Insert(entries, e)[0].name == e.name || (entries != [] && Insert(entries, e)[0] == entries[0])
  {
    hide Less;
    if entries == [] {
    } else {
      TailSorted(entries);
      var rest := entries[1..];
      if rest != [] { assert rest[0] == entries[1]; }
      if entries[0].name == e.name {
        ConsSorted(e, rest);
      } else if Less(e.name, entries[0].name) {
        ConsSorted(e, entries);
      } else {
        LessTotal(e.name, entries[0].name);
        InsertSorted(rest, e);
        ConsSorted(entries[0], Insert(rest, e));
      }
    }
  }

  lemma {:induction false} InsertMap(entries: seq<HostEntry>, e: HostEntry)
    ensures ToMap(Insert(entries, e)) == ToMap(entries)[e.name := e]
  {
    hide Less;
    if entries != [] {
      var rest := entries[1..];
      if entries[0].name == e.name {
        assert ([e] + rest)[1..] == rest;
      } else if Less(e.name, entries[0].name) {
        assert ([e] + entries)[1..] == entries;
      } else {
        InsertMap(rest, e);
        assert ([entries[0]] + Insert(rest, e))[1..] == Insert(rest, e);
      }
    }
  }

  lemma {:induction false} InsertMembers(entries: seq<HostEntry>, e: HostEntry)
    ensures forall x :: x in Insert(entries, e) ==> x == e || x in entries
  {
    hide Less;
    if entries != [] { InsertMembers(entries[1..], e); }
  }

  lemma {:induction false} DeleteMembers(entries: seq<HostEntry>, name: string)
    ensures forall x :: x in Delete(entries, name) ==> x in entries
  {
    if entries != [] { DeleteMembers(entries[1..], name); }
  }

  lemma {:induction false} DeleteSorted(entries: seq<HostEntry>, name: string)
    requires Sorted(entries)
    ensures Sorted(Delete(entries, name))
  {
    hide Less;
    if entries != [] && entries[0].name != name {
      TailSorted(entries);
      var rest := entries[1..];
      DeleteSorted(rest, name);
      DeleteMembers(rest, name);
      var s := Delete(rest, name);
      if s != [] {
        assert s[0] in rest;
        var i :| 0 <= i < |rest| && rest[i] == s[0];
        assert entries[i + 1] == s[0];
      }
      ConsSorted(entries[0], s);
    } else if entries != [] {
      TailSorted(entries);
    }
  }

  lemma {:induction false} DeleteMap(entries: seq<HostEntry>, name: string)
    requires Sorted(entries)
    ensures ToMap(Delete(entries, name)) == ToMap(entries) - {name}
  {
    hide Less;
    if entries != [] {
      TailSorted(entries);
      var rest := entries[1..];
      ToMapKeys(rest);
      hide Sorted;
      if entries[0].name != name {
        DeleteMap(rest, name);
        assert ([entries[0]] + Delete(rest, name))[1..] == Delete(rest, name);
      }
    }
  }

  lemma {:induction false} InsertLast(entries: seq<HostEntry>, e: HostEntry)
    requires forall i :: 0 <= i < |entries| ==> Less(entries[i].name, e.name)
    ensures Insert(entries, e) == entries + [e]
  {
    if entries != [] {
      LessTotal(entries[0].name, e.name);
      InsertLast(entries[1..], e);
      assert [entries[0]] + (entries[1..] + [e]) == entries + [e];
    }
  }

  lemma {:induction false} CollectSorted(entries: seq<HostEntry>)
    requires Sorted(entries)
    ensures Collect(entries) == entries
  {
    if entries != [] {
      var n := |entries| - 1;
      CollectSorted(entries[..n]);
      InsertLast(entries[..n], entries[n]);
      assert entries[..n] + [entries[n]] == entries;
    }
  }

  /** The order makes the file of a map unique. */
  lemma {:induction false} SortedUnique(a: seq<HostEntry>, b: seq<HostEntry>)
    requires Sorted(a) && Sorted(b) && ToMap(a) == ToMap(b)
    ensures a == b
  {
    hide Less;
    ToMapKeys(a);
    ToMapKeys(b);
    if a != [] { assert HasName(a, a[0].name); }
    if b != [] { assert HasName(b, b[0].name); }
    if a != [] {
      FirstLeast(a, b);
      FirstLeast(b, a);
      LessTotal(a[0].name, b[0].name);
      assert ToMap(a)[a[0].name] == a[0] && ToMap(b)[b[0].name] == b[0];
      TailMap(a);
      TailMap(b);
      TailSorted(a);
      TailSorted(b);
      SortedUnique(a[1..], b[1..]);
      assert [a[0]] + a[1..] == a && [b[0]] + b[1..] == b;
    }
  }

  lemma TailMap(a: seq<HostEntry>)
    requires Sorted(a) && a != []
    ensures ToMap(a[1..]) == ToMap(a) - {a[0].name}
  {
    TailSorted(a);
    ToMapKeys(a[1..]);
    var rest := ToMap(a[1..]);
    assert a[0].name !in rest && ToMap(a) == rest[a[0].name := a[0]];
    hide *;
    MapTail(rest, a[0].name, a[0]);
  }

  lemma MapTail(m: map<string, HostEntry>, n: string, e: HostEntry)
    requires n !in m
    ensures m[n := e] - {n} == m
  {
  }

  lemma FirstLeast(a: seq<HostEntry>, b: seq<HostEntry>)
    requires Sorted(a) && a != [] && b != [] && ToMap(a) == ToMap(b)
    ensures a[0].name == b[0].name || Less(a[0].name, b[0].name)
  {
    ToMapKeys(a);
    ToMapKeys(b);
    assert HasName(b, b[0].name);
    var i :| 0 <= i < |a| && a[i].name == b[0].name;
  }

  // ---------------------------------------------------------------- The main configuration

  predicate DeclaresAlias(line: string, alias: string) {
    var raw := RawDirective(line);
    raw.Some? && KeyOf(raw.value.0) == Some(Host) && alias in SplitSpaces(raw.value.1)
  }

  predicate ContainsAlias(source: string, alias: string) {
    exists i :: 0 <= i < |Lines(source)| && DeclaresAlias(Lines(source)[i], alias)
  }

  const INCLUDE_WORD := "Include"
  const INCLUDE_PATH := "~/.ssh/binport_config"
  const INCLUDE_LINE := INCLUDE_WORD + " " + INCLUDE_PATH

  predicate IncludesManaged(line: string) {
    var d := Directive(line);
    d.Some? && EqIgnoreCase(INCLUDE_WORD, d.value.0) && EqIgnoreCase(INCLUDE_PATH, d.value.1)
  }

  predicate Included(source: string) {
    exists i :: 0 <= i < |Lines(source)| && IncludesManaged(Lines(source)[i])
  }

  function EnsureInclude(source: string): string {
    if Included(source) then source
    else if source == "" then INCLUDE_LINE + "\n"
    else INCLUDE_LINE + "\n\n" + source
  }

  lemma IncludeLineIncludes()
    ensures IncludesManaged(INCLUDE_LINE) && IsLine(INCLUDE_LINE)
  {
    hide Directive, INCLUDE_LINE, INCLUDE_WORD, INCLUDE_PATH;
    IncludeDirective();
  }

  /** After one pass the include is there, a second pass changes nothing, and the old text is kept whole. */
  lemma EnsureIncludeOnce(source: string)
    ensures Included(EnsureInclude(source))
    ensures EnsureInclude(EnsureInclude(source)) == EnsureInclude(source)
    ensures EnsureInclude(source) == source
            || (!Included(source) && EnsureInclude(source)
                == INCLUDE_LINE + "\n" + (if source == "" then "" else "\n" + source))
  {
    IncludeLineIncludes();
    hide IncludesManaged, IsLine, INCLUDE_LINE;
    if !Included(source) {
      var rest := if source == "" then "" else "\n" + source;
      assert EnsureInclude(source) == INCLUDE_LINE + "\n" + rest;
      LinesFromLine(INCLUDE_LINE, "", rest);
      assert "" + INCLUDE_LINE == INCLUDE_LINE;
      assert Lines(EnsureInclude(source))[0] == INCLUDE_LINE;
    }
  }

  // ---------------------------------------------------------------- add and remove

  datatype Files = Files(main: Option<string>, managed: Option<string>)

  function Stored(managed: Option<string>): Result<seq<HostEntry>, HostError> {
    if managed == None then Ok([])
    else
      var entries :- Parsed(managed.value);
      Ok(Collect(entries))
  }

  function AddTo(f: Files, e: HostEntry, force: bool): Result<Files, HostError> {
    if !ValidEntry(e) then Err(InvalidCombination)
    else if ContainsAlias(f.main.GetOr(""), e.name) then Err(InMainConfig)
    else
      var entries :- Stored(f.managed);
      if HasName(entries, e.name) && !force then Err(AlreadyExists)
      else
        var main := f.main.GetOr("");
        Ok(Files(if Included(main) then f.main else Some(EnsureInclude(main)), Some(Rendered(Insert(entries, e)))))
  }

  function RemoveFrom(f: Files, name: string): Result<(bool, Files), HostError> {
    if !ValidToken(name) then Err(InvalidValue(name))
    else if f.managed == None then Ok((false, f))
    else
      var entries :- Stored(f.managed);
      if HasName(entries, name) then Ok((true, f.(managed := Some(Rendered(Delete(entries, name))))))
      else Ok((false, f))
  }

  /** The two files on disk, rewritten by the commands. */
  class HostFiles {
    var main: Option<string>
    var managed: Option<string>

    constructor (f: Files)
      ensures main == f.main && managed == f.managed
    {
      main, managed := f.main, f.managed;
    }

    method Add(e: HostEntry, force: bool) returns (r: Option<HostError>)
      modifies this
      ensures match AddTo(old(Files(main, managed)), e, force)
              case Ok(f) => r == None && Files(main, managed) == f
              case Err(error) => r == Some(error) && Files(main, managed) == old(Files(main, managed))
    {
      hide ValidEntry, ContainsAlias, Parsed, Rendered, Included, EnsureInclude, Collect, Insert, HasName;
      if !ValidEntry(e) {
        return Some(InvalidCombination);
      }
      var mainSource := main.GetOr("");
      if ContainsAlias(mainSource, e.name) {
        return Some(InMainConfig);
      }
      var entries: seq<HostEntry> := [];
      if managed.Some? {
        var parsed := Parse(managed.value);
        if parsed.Err? {
          return Some(parsed.error);
        }
        entries := Collect(parsed.value);
      }
      if HasName(entries, e.name) && !force {
        return Some(AlreadyExists);
      }
      entries := Insert(entries, e);
      var text := Render(entries);
      managed := Some(text);
      if !Included(mainSource) {
        main := Some(EnsureInclude(mainSource));
      }
      return None;
    }

    method Remove(name: string) returns (r: Result<bool, HostError>)
      modifies this
      ensures match RemoveFrom(old(Files(main, managed)), name)
              case Ok((removed, f)) => r == Ok(removed) && Files(main, managed) == f
              case Err(error) => r == Err(error) && Files(main, managed) == old(Files(main, managed))
    {
      hide ValidToken, Parsed, Rendered, Collect, Delete, HasName;
      if !ValidToken(name) {
        return Err(InvalidValue(name));
      }
      if managed == None {
        return Ok(false);
      }
      var parsed := Parse(managed.value);
      if parsed.Err? {
        return Err(parsed.error);
      }
      var entries := Collect(parsed.value);
      var removed := HasName(entries, name);
      if removed {
        entries := Delete(entries, name);
        var text := Render(entries);
        managed := Some(text);
      }
      return Ok(removed);
    }
  }

  // ---------------------------------------------------------------- Refinement of a map

  /** The managed file is the rendering, in name order, of the entries of `m`, or is not there when there are none. */
  ghost predicate Renders(f: Files, m: map<string, HostEntry>) {
    exists entries :: RenderedBy(f, m, entries)
  }

  ghost predicate RenderedBy(f: Files, m: map<string, HostEntry>, entries: seq<HostEntry>) {
    && Sorted(entries) && ToMap(entries) == m
    && (f.managed == Some(Rendered(entries)) || (f.managed == None && entries == []))
  }

  /** And it reads back as these entries: whoever opens it next finds the map. */
  ghost predicate Represents(f: Files, m: map<string, HostEntry>) {
    exists entries :: RepresentedBy(f, m, entries)
  }

  ghost predicate RepresentedBy(f: Files, m: map<string, HostEntry>, entries: seq<HostEntry>) {
    RenderedBy(f, m, entries) && Stored(f.managed) == Ok(entries)
  }

  lemma {:induction false} CollectMembers(entries: seq<HostEntry>)
    ensures forall x :: x in Collect(entries) ==> x in entries
  {
    if entries != [] {
      var n := |entries| - 1;
      CollectMembers(entries[..n]);
      InsertMembers(Collect(entries[..n]), entries[n]);
      hide Collect, Insert;
      assert entries == entries[..n] + [entries[n]];
    }
  }

  /** What is read back is validated and trimmed. */
  lemma StoredIsGood(f: Files, m: map<string, HostEntry>, entries: seq<HostEntry>)
    requires RepresentedBy(f, m, entries)
    ensures GoodEntries(entries)
  {
    if f.managed.Some? {
      var found := Parsed(f.managed.value).value;
      ParsedIsGood(f.managed.value);
      CollectMembers(found);
      hide Parsed, Collect, GoodEntry;
      forall i | 0 <= i < |entries| ensures GoodEntry(entries[i]) {
        assert entries[i] in found;
      }
    }
  }

  /** A rendering of such entries is read back. */
  lemma GoodIsStored(f: Files, m: map<string, HostEntry>, entries: seq<HostEntry>)
    requires RenderedBy(f, m, entries) && GoodEntries(entries)
    ensures RepresentedBy(f, m, entries)
  {
    hide GoodEntries, ToMap, Rendered, Parsed;
    if f.managed.Some? {
      ParseRendered(entries);
      CollectSorted(entries);
    }
  }

  /** Two managed files of one map are the same text. */
  lemma OneFile(f: Files, g: Files, m: map<string, HostEntry>)
    requires Represents(f, m) && Represents(g, m) && f.managed.Some? && g.managed.Some?
    ensures f.managed == g.managed
  {
    var a :| RepresentedBy(f, m, a);
    var b :| RepresentedBy(g, m, b);
    hide Sorted, Stored, ToMap, Rendered;
    SortedUnique(a, b);
  }

  lemma GoodMembers(before: seq<HostEntry>, after: seq<HostEntry>, e: Option<HostEntry>)
    requires GoodEntries(before) && (e.Some? ==> GoodEntry(e.value))
    requires forall x :: x in after ==> x in before || e == Some(x)
    ensures GoodEntries(after)
  {
    hide GoodEntry;
    forall i | 0 <= i < |after| ensures GoodEntry(after[i]) {
      assert after[i] in after;
    }
  }

  /** When an add is refused, and why. */
  lemma AddOutcome(f: Files, m: map<string, HostEntry>, e: HostEntry, force: bool)
    requires Represents(f, m)
    ensures AddTo(f, e, force).Ok? <==>
              ValidEntry(e) && !ContainsAlias(f.main.GetOr(""), e.name) && (force || e.name !in m)
    ensures ValidEntry(e) && ContainsAlias(f.main.GetOr(""), e.name) ==> AddTo(f, e, force) == Err(InMainConfig)
    ensures ValidEntry(e) && !ContainsAlias(f.main.GetOr(""), e.name) && e.name in m && !force ==>
              AddTo(f, e, force) == Err(AlreadyExists)
  {
    var entries :| RepresentedBy(f, m, entries);
    assert ToMap(entries) == m;
    hide ValidEntry, ContainsAlias, Included, EnsureInclude, Rendered, Insert, Stored, RepresentedBy;
    ToMapKeys(entries);
  }

  lemma AddFiles(f: Files, e: HostEntry, force: bool)
    requires AddTo(f, e, force).Ok?
    ensures ValidEntry(e) && Stored(f.managed).Ok?
    ensures AddTo(f, e, force).value.managed == Some(Rendered(Insert(Stored(f.managed).value, e)))
    ensures AddTo(f, e, force).value.main.GetOr("") == EnsureInclude(f.main.GetOr(""))
    ensures Included(f.main.GetOr("")) ==> AddTo(f, e, force).value.main == f.main
  {
    hide ContainsAlias, Included, ValidEntry, Stored, Rendered, Insert;
  }

  lemma {:induction false} MapMember(entries: seq<HostEntry>, name: string)
    requires name in ToMap(entries)
    ensures ToMap(entries)[name] in entries
  {
    if name != entries[0].name { MapMember(entries[1..], name); }
  }

  /** What a file represents is validated and trimmed. */
  lemma RepresentedIsGood(f: Files, m: map<string, HostEntry>, name: string)
    requires Represents(f, m) && name in m
    ensures GoodEntry(m[name])
  {
    var entries :| RepresentedBy(f, m, entries);
    StoredIsGood(f, m, entries);
    MapMember(entries, name);
    hide GoodEntry, RenderedBy;
  }

  /**
   An add that goes through makes the file the rendering of the map with the entry. It is read back as that map
   exactly when the entry has no white space at the ends of its values.
   */
  lemma AddRefines(f: Files, m: map<string, HostEntry>, e: HostEntry, force: bool)
    requires Represents(f, m) && AddTo(f, e, force).Ok?
    ensures Renders(AddTo(f, e, force).value, m[e.name := e])
    ensures Represents(AddTo(f, e, force).value, m[e.name := e]) <==> TrimmedEntry(e)
    ensures Included(AddTo(f, e, force).value.main.GetOr(""))
    ensures Included(f.main.GetOr("")) ==> AddTo(f, e, force).value.main == f.main
  {
    AddFiles(f, e, force);
    EnsureIncludeOnce(f.main.GetOr(""));
    hide AddTo, Represents, Renders, EnsureInclude, Included, ValidEntry, TrimmedEntry;
    AddInserts(f, m, e, force);
    if Represents(AddTo(f, e, force).value, m[e.name := e]) {
      RepresentedIsGood(AddTo(f, e, force).value, m[e.name := e], e.name);
    }
  }

  lemma AddInserts(f: Files, m: map<string, HostEntry>, e: HostEntry, force: bool)
    requires Represents(f, m) && AddTo(f, e, force).Ok?
    ensures Renders(AddTo(f, e, force).value, m[e.name := e])
    ensures TrimmedEntry(e) ==> Represents(AddTo(f, e, force).value, m[e.name := e])
  {
    var entries :| RepresentedBy(f, m, entries);
    var after := Insert(entries, e);
    AddFiles(f, e, force);
    hide AddTo, TrimmedEntry, ValidEntry, Included, EnsureInclude, Rendered, Insert, Stored, GoodEntries, Sorted, ToMap;
    StoredIsGood(f, m, entries);
    EnsureIncludeOnce(f.main.GetOr(""));
    InsertSorted(entries, e);
    InsertMap(entries, e);
    InsertMembers(entries, e);
    assert RenderedBy(AddTo(f, e, force).value, m[e.name := e], after);
    if TrimmedEntry(e) {
      GoodMembers(entries, after, Some(e));
      GoodIsStored(AddTo(f, e, force).value, m[e.name := e], after);
    }
  }

  lemma RemoveFiles(f: Files, name: string, entries: seq<HostEntry>)
    requires ValidToken(name) && Stored(f.managed) == Ok(entries)
    ensures RemoveFrom(f, name) ==
            if HasName(entries, name) then Ok((true, f.(managed := Some(Rendered(Delete(entries, name))))))
                else Ok((false, f))
  {
    hide ValidToken, Rendered, Delete, Parsed, Collect;
  }

  lemma DeleteRepresents(f: Files, m: map<string, HostEntry>, name: string, entries: seq<HostEntry>)
    requires RepresentedBy(f, m, entries)
    ensures Represents(f.(managed := Some(Rendered(Delete(entries, name)))), m - {name})
  {
    var left := Delete(entries, name);
    StoredIsGood(f, m, entries);
    DeleteSorted(entries, name);
    DeleteMap(entries, name);
    DeleteMembers(entries, name);
    GoodMembers(entries, left, None);
    hide Rendered, Delete, GoodEntries, Sorted, ToMap, Stored;
    assert RenderedBy(f.(managed := Some(Rendered(left))), m - {name}, left);
    GoodIsStored(f.(managed := Some(Rendered(left))), m - {name}, left);
  }

  lemma RemoveRefines(f: Files, m: map<string, HostEntry>, name: string)
    requires Represents(f, m) && ValidToken(name)
    ensures RemoveFrom(f, name).Ok?
    ensures var (removed, after) := RemoveFrom(f, name).value;
            removed == (name in m) && Represents(after, m - {name}) && after.main == f.main
            && (!removed ==> after == f)
  {
    var entries :| RepresentedBy(f, m, entries);
    assert ToMap(entries) == m;
    hide ValidToken, Rendered, Delete, Stored, ToMap, RemoveFrom, RepresentedBy, Represents;
    RemoveFiles(f, name, entries);
    assert HasName(entries, name) <==> name in m by { ToMapKeys(entries); }
    hide HasName;
    if HasName(entries, name) {
      DeleteRepresents(f, m, name, entries);
    } else {
      NothingRemoved(m, name);
    }
  }

  lemma NothingRemoved(m: map<string, HostEntry>, name: string)
    requires name !in m
    ensures m - {name} == m
  {
  }

  datatype Command = AddHost(e: HostEntry, force: bool) | RemoveHost(name: string)

  function Execute(f: Files, c: Command): Files {
    match c
    case AddHost(e, force) => (match AddTo(f, e, force) case Ok(after) => after case Err(_) => f)
    case RemoveHost(name) => (match RemoveFrom(f, name) case Ok((_, after)) => after case Err(_) => f)
  }

  function ExecuteAll(f: Files, commands: seq<Command>): Files {
    if commands == [] then f else Execute(ExecuteAll(f, commands[..|commands| - 1]), commands[|commands| - 1])
  }

  /** The same commands on a map; `main` is the user's own configuration, which no command gives an alias. */
  function MapAll(m: map<string, HostEntry>, main: string, commands: seq<Command>): map<string, HostEntry> {
    if commands == [] then m
    else
      var before := MapAll(m, main, commands[..|commands| - 1]);
      match commands[|commands| - 1]
      case AddHost(e, force) =>
        if ValidEntry(e) && !ContainsAlias(main, e.name) && (force || e.name !in before) then before[e.name := e]
            else before
      case RemoveHost(name) => if ValidToken(name) then before - {name} else before
  }

  lemma IncludeLines(source: string)
    requires !Included(source)
    ensures Lines(EnsureInclude(source)) == [INCLUDE_LINE] + (if source == "" then [] else [""] + Lines(source))
  {
    IncludeLineIncludes();
    hide Included, INCLUDE_LINE, IncludesManaged;
    assert IsLine("");
    hide IsLine;
    var rest := if source == "" then "" else "\n" + source;
    assert EnsureInclude(source) == INCLUDE_LINE + "\n" + rest;
    LinesFromLine(INCLUDE_LINE, "", rest);
    assert "" + INCLUDE_LINE == INCLUDE_LINE;
    if source != "" {
      LinesFromLine("", "", source);
      assert "" + "\n" + source == rest;
      assert "" + "" == "";
    }
  }

  /** The include line declares no alias, so it never makes a later conflict. */
  lemma IncludeKeepsAliases(source: string, alias: string)
    ensures ContainsAlias(EnsureInclude(source), alias) == ContainsAlias(source, alias)
  {
    hide DeclaresAlias, Included, INCLUDE_LINE, LinesFrom;
    if !Included(source) {
      IncludeLines(source);
      NoAliasOnInclude(alias);
      var lines := Lines(EnsureInclude(source));
      hide EnsureInclude;
      if source != "" {
        if ContainsAlias(source, alias) {
          var i :| 0 <= i < |Lines(source)| && DeclaresAlias(Lines(source)[i], alias);
          assert lines[i + 2] == Lines(source)[i];
        }
        if j :| 0 <= j < |lines| && DeclaresAlias(lines[j], alias) {
          assert lines[j] == Lines(source)[j - 2];
        }
      } else {
        assert Lines(source) == [] by { EmptyLines(); }
      }
    } else {
      assert EnsureInclude(source) == source;
    }
  }

  lemma EmptyLines()
    ensures Lines("") == []
  {
  }

  lemma NoAliasOnInclude(alias: string)
    ensures !DeclaresAlias(INCLUDE_LINE, alias) && !DeclaresAlias("", alias)
  {
    hide RawDirective, KeyOf, SplitSpaces, INCLUDE_LINE, INCLUDE_WORD, INCLUDE_PATH;
    IncludeDirective();
    IncludeNotHost();
    EmptyDirective();
  }

  lemma IncludeDirective()
    ensures RawDirective(INCLUDE_LINE) == Directive(INCLUDE_LINE) == Some((INCLUDE_WORD, INCLUDE_PATH)) &&
        IsLine(INCLUDE_LINE)
  {
    assert Letters(INCLUDE_WORD);
    LettersAreValue(INCLUDE_WORD);
    assert IsValue(INCLUDE_PATH);
    assert IsLine(INCLUDE_PATH);
    assert IsLine(INCLUDE_WORD);
    hide IsValue, NoSpace, Directive, RawDirective, Letters;
    DirectiveLine("", INCLUDE_WORD, INCLUDE_PATH);
    assert "" + INCLUDE_WORD + " " + INCLUDE_PATH == INCLUDE_LINE;
  }

  lemma IncludeNotHost()
    ensures KeyOf(INCLUDE_WORD) != Some(Host)
  {
    FoundKey(KEYS, INCLUDE_WORD);
  }

  lemma EmptyDirective()
    ensures RawDirective("") == None
  {
  }

  /** The `k`th command adds an entry, and the map takes it. */
  predicate Accepts(m: map<string, HostEntry>, main: string, commands: seq<Command>, k: nat)
    requires k < |commands|
  {
    && commands[k].AddHost? && ValidEntry(commands[k].e) && !ContainsAlias(main, commands[k].e.name)
    && (commands[k].force || commands[k].e.name !in MapAll(m, main, commands[..k]))
  }

  /** The main configuration is as it was, or has the include line in front. */
  predicate SameMain(f: Files, after: Files) {
    after.main.GetOr("") == f.main.GetOr("") || after.main.GetOr("") == EnsureInclude(f.main.GetOr(""))
  }

  /** One more command, whatever it is. */
  lemma CommandRefines(f: Files, m: map<string, HostEntry>, commands: seq<Command>, k: nat)
    requires k < |commands|
    requires var main := f.main.GetOr("");
             Represents(ExecuteAll(f, commands[..k]), MapAll(m, main, commands[..k])) &&
                 SameMain(f, ExecuteAll(f, commands[..k]))
    ensures var main := f.main.GetOr("");
            && SameMain(f, ExecuteAll(f, commands[..k + 1]))
            && (Represents(ExecuteAll(f, commands[..k + 1]), MapAll(m, main, commands[..k + 1]))
                <==> (Accepts(m, main, commands, k) ==> TrimmedEntry(commands[k].e)))
  {
    var main := f.main.GetOr("");
    var before, middle := MapAll(m, main, commands[..k]), ExecuteAll(f, commands[..k]);
    assert commands[..k + 1][..k] == commands[..k];
    hide Represents, ContainsAlias, EnsureInclude, ValidEntry, ValidToken, TrimmedEntry, Included, AddTo, RemoveFrom;
    EnsureIncludeOnce(main);
    match commands[k] {
      case AddHost(e, force) =>
        IncludeKeepsAliases(main, e.name);
        AddOutcome(middle, before, e, force);
        if AddTo(middle, e, force).Ok? {
          AddRefines(middle, before, e, force);
          AddFiles(middle, e, force);
        }
      case RemoveHost(name) =>
        if ValidToken(name) { RemoveRefines(middle, before, name); } else { RefusedName(middle, name); }
    }
  }

  /** After each of the first `n` commands the file is the rendering of the map and reads back as it. */
  ghost predicate Tracks(f: Files, m: map<string, HostEntry>, commands: seq<Command>, n: nat)
    requires n <= |commands|
  {
    forall k: nat :: k <= n ==> Represents(ExecuteAll(f, commands[..k]), MapAll(m, f.main.GetOr(""), commands[..k]))
  }

  /** The entries taken by the first `n` commands have no white space at the ends of their values. */
  predicate TakesTrimmed(f: Files, m: map<string, HostEntry>, commands: seq<Command>, n: nat)
    requires n <= |commands|
  {
    forall k :: 0 <= k < n && Accepts(m, f.main.GetOr(""), commands, k) ==> TrimmedEntry(commands[k].e)
  }

  lemma TracksNext(f: Files, m: map<string, HostEntry>, commands: seq<Command>, n: nat)
    requires n < |commands|
    ensures Tracks(f, m, commands, n + 1) <==>
      Tracks(f, m, commands, n) &&
          Represents(ExecuteAll(f, commands[..n + 1]), MapAll(m, f.main.GetOr(""), commands[..n + 1]))
    ensures Tracks(f, m, commands, n) ==>
        Represents(ExecuteAll(f, commands[..n]), MapAll(m, f.main.GetOr(""), commands[..n]))
    ensures TakesTrimmed(f, m, commands, n + 1) <==>
      TakesTrimmed(f, m, commands, n) && (Accepts(m, f.main.GetOr(""), commands, n) ==> TrimmedEntry(commands[n].e))
  {
    hide Represents, ExecuteAll, MapAll, Accepts, TrimmedEntry;
  }

  /**
   Any sequence of adds and removes, refused ones included, keeps the managed file the rendering of the map
   under insert and delete, and readable as that map, all along: exactly when every entry it takes has no white
   space at the ends of its values.
   */
  lemma {:induction false} CommandsRefineMap(f: Files, m: map<string, HostEntry>, commands: seq<Command>, n: nat)
    requires Represents(f, m) && n <= |commands|
    ensures Tracks(f, m, commands, n) <==> TakesTrimmed(f, m, commands, n)
    ensures Tracks(f, m, commands, n) ==> SameMain(f, ExecuteAll(f, commands[..n]))
  {
    if n == 0 {
      NoCommands(f, m, commands);
    } else {
      hide Represents, Accepts, TrimmedEntry, SameMain, Execute, ExecuteAll, MapAll, Tracks, TakesTrimmed;
      CommandsRefineMap(f, m, commands, n - 1);
      TracksNext(f, m, commands, n - 1);
      if Tracks(f, m, commands, n - 1) { CommandRefines(f, m, commands, n - 1); }
    }
  }

  lemma NoCommands(f: Files, m: map<string, HostEntry>, commands: seq<Command>)
    requires Represents(f, m)
    ensures Tracks(f, m, commands, 0) && TakesTrimmed(f, m, commands, 0) && SameMain(f, ExecuteAll(f, commands[..0]))
  {
    hide Represents;
    MainUnchanged(f);
    assert commands[..0] == [];
  }

  lemma MainUnchanged(f: Files)
    ensures SameMain(f, f)
  {
  }

  lemma RefusedName(f: Files, name: string)
    requires !ValidToken(name)
    ensures RemoveFrom(f, name).Err?
  {
  }
}
