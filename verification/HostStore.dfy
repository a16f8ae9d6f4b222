/** The managed host file: parsing undoes rendering, and adding and removing refine a map. */
module HostStore {
  import opened Wrappers
  import opened Text
  import opened ConfigText
  import opened Hosts

  // ---------------------------------------------------------------- Parsing undoes rendering

  predicate GoodEntry(e: HostEntry) {
    ValidEntry(e) && TrimmedEntry(e)
  }

  predicate GoodEntries(entries: seq<HostEntry>) {
    forall i :: 0 <= i < |entries| ==> GoodEntry(entries[i])
  }

  lemma ParseEntry(p: Progress, e: HostEntry)
    requires GoodEntry(e) && Flush(p).Ok?
    ensures ParseLines(p, EntryLines(e)) == Ok(Progress(Flush(p).value, Some(e)))
  {
    SettingsGood(e);
    SettingsRoundTrip(e);
    assert IsValue(e.name) && Directive("") == None;
    hide ValidEntry, TrimmedEntry, Settings, SetField, GoodSettings, IsValue, Directive, KeyOf, Flush, Blank;
    HostDirective(e.name);
    var start := Progress(Flush(p).value, Some(Blank(e.name)));
    assert ParseLine(p, "Host " + e.name) == Ok(start);
    ParseSettings(start, Settings(e));
    var lines := SettingLines(Settings(e));
    hide ParseLine, SettingLines, ApplySettings;
    assert ParseLines(p, ["Host " + e.name]) == Ok(start);
    ParseLinesAppend(p, ["Host " + e.name], lines);
    ParseLinesAppend(p, ["Host " + e.name] + lines, [""]);
    assert ParseLines(Progress(Flush(p).value, Some(e)), [""]) == Ok(Progress(Flush(p).value, Some(e))) by {
      EmptyLine(Progress(Flush(p).value, Some(e)));
    }
  }

  lemma EmptyLine(p: Progress)
    ensures ParseLine(p, "") == Ok(p)
  {
  }

  /** What the parser holds after the lines of `entries`: all of them, the last one still open. */
  function After(entries: seq<HostEntry>): Progress {
    if entries == [] then Progress([], None) else Progress(entries[..|entries| - 1], Some(entries[|entries| - 1]))
  }

  lemma AfterFlush(entries: seq<HostEntry>)
    requires GoodEntries(entries)
    ensures Flush(After(entries)) == Ok(entries)
  {
    hide ValidEntry, TrimmedEntry;
    if entries != [] {
      assert GoodEntry(entries[|entries| - 1]);
      assert entries[..|entries| - 1] + [entries[|entries| - 1]] == entries;
    }
  }

  lemma {:induction false} ParseAll(entries: seq<HostEntry>)
    requires GoodEntries(entries)
    ensures ParseLines(Progress([], None), AllLines(entries)) == Ok(After(entries))
  {
    hide GoodEntry, EntryLines, ParseLine, Flush;
    if entries != [] {
      var n := |entries| - 1;
      ParseAll(entries[..n]);
      AfterFlush(entries[..n]);
      assert entries[..n] + [entries[n]] == entries;
      AllLinesSnoc(entries[..n], entries[n]);
      ParseLinesAppend(Progress([], None), AllLines(entries[..n]), EntryLines(entries[n]));
      ParseEntry(After(entries[..n]), entries[n]);
    }
  }

  /** Letters and commas. */
  predicate Wordy(s: string) {
    s != "" && forall i :: 0 <= i < |s| ==> ',' <= s[i] <= 'z'
  }

  lemma {:induction false} FlattenWordy(pieces: seq<string>)
    requires pieces != [] && forall i :: 0 <= i < |pieces| ==> Wordy(pieces[i])
    ensures Wordy(Flatten(pieces))
  {
    if |pieces| > 1 {
      FlattenWordy(pieces[1..]);
    } else {
      assert Flatten(pieces) == pieces[0] + "" == pieces[0];
    }
  }

  lemma WordyToken(s: string)
    requires Wordy(s)
    ensures IsValue(s) && NoSpace(s) && IsLine(s)
  {
  }

  lemma IgnoredWordy()
    ensures Wordy(Flatten(IGNORED))
  {
    hide Flatten;
    FlattenWordy(IGNORED);
  }

  lemma IgnoreDirective()
    ensures IsLine(HEADER_LINES[1]) && Directive(HEADER_LINES[1]) == Some((IGNORE_WORD, Flatten(IGNORED)))
  {
    IgnoredWordy();
    assert Wordy(IGNORE_WORD);
    var ignored := Flatten(IGNORED);
    assert HEADER_LINES[1] == IGNORE_WORD + " " + ignored;
    hide Flatten, IsToken, IsValue, NoSpace, IGNORED, HEADER_COMMENT, Directive, Wordy, HEADER_LINES, IGNORE_WORD,
        IsLine;
    WordyToken(ignored);
    WordyToken(IGNORE_WORD);
    DirectiveLine("", IGNORE_WORD, ignored);
    assert "" + IGNORE_WORD == IGNORE_WORD;
    LineJoin(IGNORE_WORD, ignored);
  }

  lemma LineJoin(a: string, b: string)
    requires IsLine(a) && IsLine(b)
    ensures IsLine(a + " " + b)
  {
  }

  lemma IgnoreLine()
    ensures ParseLine(Progress([], None), HEADER_LINES[1]) == Ok(Progress([], None))
  {
    hide Directive, KeyOf, HEADER_LINES, Flatten;
    IgnoreDirective();
    NotHost();
  }

  lemma CommentLine()
    ensures IsLine(HEADER_COMMENT) && Directive(HEADER_COMMENT) == None
  {
    assert IsLine("# Managed by binport. ") && IsLine("Use `binport host` to edit.");
    assert HEADER_COMMENT[0] == "# Managed by binport. "[0] == '#';
    assert BeforeHash(HEADER_COMMENT) == "";
  }

  /** The header sets nothing. */
  lemma HeaderLines()
    ensures forall i :: 0 <= i < |HEADER_LINES| ==> IsLine(HEADER_LINES[i])
    ensures ParseLines(Progress([], None), HEADER_LINES) == Ok(Progress([], None))
  {
    var p := Progress([], None);
    IgnoreDirective();
    IgnoreLine();
    CommentLine();
    assert ParseLine(p, HEADER_COMMENT) == Ok(p);
    EmptyLine(p);
    var second := HEADER_LINES[1];
    assert HEADER_LINES == [HEADER_COMMENT, second, ""];
    hide HEADER_LINES, HEADER_COMMENT, ParseLine;
    assert HEADER_LINES[1..] == [second, ""] && HEADER_LINES[1..][1..] == [""];
    assert ParseLines(p, [""]) == Ok(p);
    assert ParseLines(p, [second, ""]) == Ok(p);
  }

  lemma NotHost()
    ensures KeyOf(IGNORE_WORD) != Some(Host)
  {
    hide FindKey;
    FoundKey(KEYS, IGNORE_WORD);
  }

  lemma {:induction false} FoundKey(keys: seq<Key>, word: string)
    ensures FindKey(keys, word).Some? ==> |Label(FindKey(keys, word).value)| == |word|
  {
    if keys != [] { FoundKey(keys[1..], word); }
  }

  lemma SettingIsLine(k: Key, value: string)
    requires IsValue(value)
    ensures IsLine(SettingLine(k, value))
  {
    LabelIsValue(k);
    hide Label;
  }

  lemma EntryIsLines(e: HostEntry)
    requires GoodEntry(e)
    ensures forall i :: 0 <= i < |EntryLines(e)| ==> IsLine(EntryLines(e)[i])
  {
    SettingsGood(e);
    assert IsLine("Host " + e.name) by { assert IsToken(e.name); }
    assert IsLine("");
    hide ValidEntry, TrimmedEntry, Settings, IsLine, SettingLine, IsValue;
    forall i | 0 <= i < |Settings(e)| ensures IsLine(SettingLines(Settings(e))[i]) {
      SettingIsLine(Settings(e)[i].key, Settings(e)[i].value);
    }
  }

  lemma {:induction false} AllIsLines(entries: seq<HostEntry>)
    requires GoodEntries(entries)
    ensures forall i :: 0 <= i < |AllLines(entries)| ==> IsLine(AllLines(entries)[i])
  {
    hide EntryLines, GoodEntry, IsLine;
    if entries != [] {
      EntryIsLines(entries[0]);
      AllIsLines(entries[1..]);
    }
  }

  lemma ParseRendered(entries: seq<HostEntry>)
    requires GoodEntries(entries)
    ensures Parsed(Rendered(entries)) == Ok(entries)
  {
    hide GoodEntry, AllLines, HEADER_LINES, ParseLines, Flush, After, Unlines, Lines, IsLine;
    HeaderLines();
    AllIsLines(entries);
    LinesUnlines(HEADER_LINES + AllLines(entries));
    ParseAll(entries);
    ParseLinesAppend(Progress([], None), HEADER_LINES, AllLines(entries));
    AfterFlush(entries);
  }

  // ---------------------------------------------------------------- What parsing yields

  ghost predicate TrimmedProgress(p: Progress) {
    && (forall i :: 0 <= i < |p.entries| ==> GoodEntry(p.entries[i]))
    && (p.current.Some? ==> TrimmedEntry(p.current.value))
  }

  lemma SetFieldTrimmed(e: HostEntry, k: Key, value: string)
    requires TrimmedEntry(e) && Trimmed(value) && SetField(e, k, value).Ok?
    ensures TrimmedEntry(SetField(e, k, value).value)
  {
  }

  lemma ParseLineTrimmed(p: Progress, line: string)
    requires TrimmedProgress(p) && ParseLine(p, line).Ok?
    ensures TrimmedProgress(ParseLine(p, line).value)
  {
    if RawDirective(line).Some? {
      TrimTrimmed(RawDirective(line).value.1);
    }
    hide RawDirective, Trim, KeyOf, ValidEntry, Trimmed;
    var directive := Directive(line);
    if directive.Some? {
      var (word, value) := directive.value;
      assert TrimmedEntry(Blank(value)) by { BlankTrimmed(value); }
      var key := KeyOf(word);
      if key.Some? && p.current.Some? && SetField(p.current.value, key.value, value).Ok? {
        SetFieldTrimmed(p.current.value, key.value, value);
      }
      hide TrimmedEntry, SetField, Blank;
    }
  }

  lemma BlankTrimmed(name: string)
    requires Trimmed(name)
    ensures TrimmedEntry(Blank(name))
  {
  }

  lemma {:induction false} ParseLinesTrimmed(p: Progress, lines: seq<string>)
    requires TrimmedProgress(p) && ParseLines(p, lines).Ok?
    ensures TrimmedProgress(ParseLines(p, lines).value)
    decreases |lines|
  {
    hide TrimmedProgress, ParseLine;
    if lines != [] {
      ParseLineTrimmed(p, lines[0]);
      ParseLinesTrimmed(ParseLine(p, lines[0]).value, lines[1..]);
    }
  }

  /** Whatever the text, the entries read from it are valid and have no white space around their values. */
  lemma ParsedIsGood(source: string)
    requires Parsed(source).Ok?
    ensures GoodEntries(Parsed(source).value)
  {
    hide ParseLines, ValidEntry, TrimmedEntry, Lines;
    var start := Progress([], None);
    assert TrimmedProgress(start);
    ParseLinesTrimmed(start, Lines(source));
  }

  /**
   The file gives back what was rendered exactly when no value starts or ends with white space. Validation
   refuses ASCII blanks only, and the parser trims every Unicode one.
   */
  lemma RoundTripExactly(entries: seq<HostEntry>)
    requires forall i :: 0 <= i < |entries| ==> ValidEntry(entries[i])
    ensures Parsed(Rendered(entries)) == Ok(entries) <==>
            forall i :: 0 <= i < |entries| ==> TrimmedEntry(entries[i])
  {
    hide ValidEntry, TrimmedEntry, Parsed, Rendered;
    if Parsed(Rendered(entries)) == Ok(entries) {
      ParsedIsGood(Rendered(entries));
      assert forall i :: 0 <= i < |entries| ==> GoodEntry(entries[i]);
    }
    if forall i :: 0 <= i < |entries| ==> TrimmedEntry(entries[i]) {
      ParseRendered(entries);
    }
  }

  /** A host that validation accepts and the file does not give back: its hostname ends in U+00A0. */
  lemma UntrimmedExample()
    ensures var e := Blank("app").(hostname := "box\U{00A0}", user := "root");
            ValidEntry(e) && Parsed(Rendered([e])) != Ok([e])
  {
    var e := Blank("app").(hostname := "box\U{00A0}", user := "root");
    assert ValidEntry(e);
    assert !TrimmedEntry(e) by { assert IsSpace(e.hostname[3]); }
    hide ValidEntry, TrimmedEntry, Parsed, Rendered;
    RoundTripExactly([e]);
    assert [e][0] == e;
  }
}
