/**
 The command lines binport prints and the POSIX shell that reads them back: quoting (sections 2.2.1 to
 2.2.3 of the Shell Command Language chapter of POSIX.1-2017) and token recognition (section 2.3) as a
 state machine over simple commands, and parameter expansion of a name inside double quotes.
 */
module Shell {
  import opened Wrappers
  import opened Text

  datatype Part = Lit(c: char) | Param(name: string)

  type Word = seq<Part>

  datatype Mode = Between | Plain | Single | Double

  function Lits(s: string): (w: Word)
    ensures |w| == |s| && forall i :: 0 <= i < |s| ==> w[i] == Lit(s[i])
  {
    seq(|s|, i requires 0 <= i < |s| => Lit(s[i]))
  }

  // ---------------------------------------------------------------- The shell's lexer

  predicate IsBlank(c: char) {
    c == ' ' || c == '\t'
  }

  /** Unquoted, these end or change the simple command, or are expanded: outside the lexer's scope. */
  predicate IsSpecial(c: char) {
    c in "|&;<>()\n$`*?[~" || c as int == 0
  }

  predicate IsNameChar(c: char) {
    'a' <= c <= 'z' || 'A' <= c <= 'Z' || IsDigit(c) || c == '_'
  }

  function NameLength(s: string): (n: nat)
    ensures n <= |s|
  {
    if s != "" && IsNameChar(s[0]) then 1 + NameLength(s[1..]) else 0
  }

  /** The words of a simple command; None when a quote is open at the end or the text is not in scope. */
  function Lex(s: string, mode: Mode, word: Word): Option<seq<Word>>
    decreases |s|, mode.Between?
  {
    match mode
    case Between =>
      if s == "" then Some([])
      else if IsBlank(s[0]) then Lex(s[1..], Between, [])
      else if s[0] == '#' then None
      else Lex(s, Plain, [])
    case Plain =>
      if s == "" then Some([word])
      else if IsBlank(s[0]) then
        var rest :- Lex(s[1..], Between, []);
        Some([word] + rest)
      else if s[0] == '\'' then Lex(s[1..], Single, word)
      else if s[0] == '"' then Lex(s[1..], Double, word)
      else if s[0] == '\\' then
        if |s| == 1 || s[1] as int == 0 then None
        else if s[1] == '\n' then Lex(s[2..], Plain, word)
        else Lex(s[2..], Plain, word + [Lit(s[1])])
      else if IsSpecial(s[0]) then None
      else Lex(s[1..], Plain, word + [Lit(s[0])])
    case Single =>
      if s == "" || s[0] as int == 0 then None
      else if s[0] == '\'' then Lex(s[1..], Plain, word)
      else Lex(s[1..], Single, word + [Lit(s[0])])
    case Double =>
      if s == "" || s[0] as int == 0 || s[0] == '`' then None
      else if s[0] == '"' then Lex(s[1..], Plain, word)
      else if s[0] == '\\' then
        if |s| == 1 then None
        else if s[1] in "$`\"\\" then Lex(s[2..], Double, word + [Lit(s[1])])
        else if s[1] == '\n' then Lex(s[2..], Double, word)
        else Lex(s[1..], Double, word + [Lit('\\')])
      else if s[0] == '$' then
        var n := NameLength(s[1..]);
        if n == 0 || IsDigit(s[1]) then None
        else Lex(s[1 + n..], Double, word + [Param(s[1..1 + n])])
      else Lex(s[1..], Double, word + [Lit(s[0])])
  }

  function Words(commandLine: string): Option<seq<Word>> {
    Lex(commandLine, Between, [])
  }

  // ---------------------------------------------------------------- The printer

  function EscapeQuotes(s: string): string {
    if s == "" then ""
    else (if s[0] == '\'' then "'\\''" else [s[0]]) + EscapeQuotes(s[1..])
  }

  /** `shell_quote`. */
  function ShellQuote(s: string): string {
    "'" + EscapeQuotes(s) + "'"
  }

  const HOME_PREFIX := "$HOME/"

  function QuoteRemotePath(path: string): string {
    if HOME_PREFIX <= path then "\"" + path + "\"" else ShellQuote(path)
  }

  const EXECUTE_SCRIPT := "tool=$1; shift; exec \"$tool\" \"$@\""

  /** The arguments as they are appended to a command line. */
  function QuotedArguments(arguments: seq<string>): string {
    if arguments == [] then ""
    else QuotedArguments(arguments[..|arguments| - 1]) + " " + ShellQuote(arguments[|arguments| - 1])
  }

  function ScriptCommand(script: string, files: string, arguments: seq<string>): string {
    "sh -c '" + script + "' sh" + files + QuotedArguments(arguments)
  }

  method ExecuteCommand(remoteFile: string, arguments: seq<string>) returns (command: string)
    ensures command == ScriptCommand(EXECUTE_SCRIPT, " " + QuoteRemotePath(remoteFile), arguments)
  {
    command := "sh -c '" + EXECUTE_SCRIPT + "' sh" + (" " + QuoteRemotePath(remoteFile));
    for i := 0 to |arguments|
      invariant command == ScriptCommand(EXECUTE_SCRIPT, " " + QuoteRemotePath(remoteFile), arguments[..i])
    {
      assert arguments[..i + 1][..i] == arguments[..i];
      command := command + " " + ShellQuote(arguments[i]);
    }
    assert arguments[..|arguments|] == arguments;
  }

  // ---------------------------------------------------------------- Reading quoted text back

  predicate NulFree(s: string) {
    forall i :: 0 <= i < |s| ==> s[i] as int != 0
  }

  lemma {:induction false} SingleQuoted(s: string, tail: string, word: Word)
    requires NulFree(s)
    ensures Lex(EscapeQuotes(s) + "'" + tail, Single, word) == Lex(tail, Plain, word + Lits(s))
  {
    var text := EscapeQuotes(s) + "'" + tail;
    if s == "" {
      assert text[1..] == tail;
      assert word + Lits(s) == word;
    } else {
      var rest := EscapeQuotes(s[1..]) + "'" + tail;
      SingleQuoted(s[1..], tail, word + [Lit(s[0])]);
      assert word + [Lit(s[0])] + Lits(s[1..]) == word + Lits(s);
      if s[0] == '\'' {
        assert text == "'\\''" + rest;
        QuoteEscape(rest, word);
      } else {
        assert text == [s[0]] + rest;
        assert text[1..] == rest;
      }
    }
  }

  /** The four characters that stand for one single quote inside single quotes. */
  lemma QuoteEscape(rest: string, word: Word)
    ensures Lex("'\\''" + rest, Single, word) == Lex(rest, Single, word + [Lit('\'')])
  {
    var a := "'\\''" + rest;
    var b := "\\''" + rest;
    var c := "'" + rest;
    assert a[1..] == b;
    assert b[2..] == c;
    assert c[1..] == rest;
    assert Lex(a, Single, word) == Lex(b, Plain, word);
    assert Lex(b, Plain, word) == Lex(c, Plain, word + [Lit('\'')]);
  }

  lemma QuotedWord(s: string, tail: string, word: Word)
    requires NulFree(s)
    ensures Lex(ShellQuote(s) + tail, Plain, word) == Lex(tail, Plain, word + Lits(s))
  {
    var text := ShellQuote(s) + tail;
    assert text[1..] == EscapeQuotes(s) + "'" + tail;
    hide EscapeQuotes;
    SingleQuoted(s, tail, word);
  }

  predicate PlainText(s: string) {
    forall i :: 0 <= i < |s| ==>
      !IsBlank(s[i]) && !IsSpecial(s[i]) && s[i] != '\'' && s[i] != '"' && s[i] != '\\' && s[i] != '#'
  }

  lemma {:induction false} PlainWord(s: string, tail: string, word: Word)
    requires PlainText(s)
    ensures Lex(s + tail, Plain, word) == Lex(tail, Plain, word + Lits(s))
  {
    if s == "" {
      assert s + tail == tail;
      assert word + Lits(s) == word;
    } else {
      assert (s + tail)[1..] == s[1..] + tail;
      PlainWord(s[1..], tail, word + [Lit(s[0])]);
      assert word + [Lit(s[0])] + Lits(s[1..]) == word + Lits(s);
    }
  }

  /** Characters that stand for themselves between double quotes. */
  predicate DoubleSafe(s: string) {
    forall i :: 0 <= i < |s| ==> s[i] as int != 0 && s[i] != '$' && s[i] != '`' && s[i] != '"' && s[i] != '\\'
  }

  lemma {:induction false} DoubleQuoted(s: string, tail: string, word: Word)
    requires DoubleSafe(s)
    ensures Lex(s + "\"" + tail, Double, word) == Lex(tail, Plain, word + Lits(s))
  {
    var text := s + "\"" + tail;
    if s == "" {
      assert text[1..] == tail;
      assert word + Lits(s) == word;
    } else {
      assert text[1..] == s[1..] + "\"" + tail;
      DoubleQuoted(s[1..], tail, word + [Lit(s[0])]);
      assert word + [Lit(s[0])] + Lits(s[1..]) == word + Lits(s);
    }
  }

  /** The word a remote path is read as: the home directory and a literal suffix, or the literal path. */
  function PathWord(path: string): Word {
    if HOME_PREFIX <= path then [Param("HOME")] + Lits(path[5..]) else Lits(path)
  }

  /** Paths the shell reads back: cache paths of safe characters below the home directory, or any literal. */
  predicate SafePath(path: string) {
    NulFree(path) && (HOME_PREFIX <= path ==> DoubleSafe(path[5..]))
  }

  lemma RemotePathWord(path: string, tail: string)
    requires SafePath(path)
    ensures Lex(QuoteRemotePath(path) + tail, Plain, []) == Lex(tail, Plain, PathWord(path))
  {
    if HOME_PREFIX <= path {
      var suffix := path[5..];
      var rest := suffix + "\"" + tail;
      assert QuoteRemotePath(path) + tail == "\"" + ("$HOME" + rest) by {
        assert path == "$HOME" + suffix;
      }
      assert rest[0] == path[5] == HOME_PREFIX[5];
      hide Lex;
      OpenDouble("$HOME" + rest);
      HomeName(rest, []);
      assert [] + [Param("HOME")] == [Param("HOME")];
      DoubleQuoted(suffix, tail, [Param("HOME")]);
    } else {
      QuotedWord(path, tail, []);
      assert [] + Lits(path) == Lits(path);
    }
  }

  lemma OpenDouble(rest: string)
    ensures Lex("\"" + rest, Plain, []) == Lex(rest, Double, [])
  {
    assert ("\"" + rest)[1..] == rest;
  }

  /** A name inside double quotes is read up to the first character that cannot be part of it. */
  lemma HomeName(rest: string, word: Word)
    requires rest != "" && rest[0] == '/'
    ensures Lex("$HOME" + rest, Double, word) == Lex(rest, Double, word + [Param("HOME")])
  {
    var text := "$HOME" + rest;
    var a := "HOME" + rest;
    assert text[1..] == a;
    NameSpan("HOME", rest);
    assert text[5..] == rest;
    assert text[1..5] == "HOME";
    hide NameLength;
  }

  lemma {:induction false} NameSpan(name: string, rest: string)
    requires forall i :: 0 <= i < |name| ==> IsNameChar(name[i])
    requires rest != "" ==> !IsNameChar(rest[0])
    ensures NameLength(name + rest) == |name|
  {
    if name == "" {
      assert name + rest == rest;
    } else {
      assert (name + rest)[1..] == name[1..] + rest;
      NameSpan(name[1..], rest);
    }
  }

  function Before(word: Word, rest: Option<seq<Word>>): Option<seq<Word>> {
    if rest.Some? then Some([word] + rest.value) else None
  }

  /** A blank ends a word; the next one starts at the next character. */
  lemma NextWord(word: Word, next: string)
    requires next != "" && !IsBlank(next[0]) && next[0] != '#'
    ensures Lex(" " + next, Plain, word) == Before(word, Lex(next, Plain, []))
  {
    assert (" " + next)[1..] == next;
    assert Lex(next, Between, []) == Lex(next, Plain, []);
  }

  function ArgumentWords(arguments: seq<string>): (words: seq<Word>)
    ensures |words| == |arguments| && forall i :: 0 <= i < |arguments| ==> words[i] == Lits(arguments[i])
  {
    seq(|arguments|, i requires 0 <= i < |arguments| => Lits(arguments[i]))
  }

  predicate AllNulFree(arguments: seq<string>) {
    forall i :: 0 <= i < |arguments| ==> NulFree(arguments[i])
  }

  lemma {:induction false} QuotedArgumentsFirst(arguments: seq<string>)
    requires arguments != []
    ensures QuotedArguments(arguments) == " " + ShellQuote(arguments[0]) + QuotedArguments(arguments[1..])
  {
    hide ShellQuote;
    var n := |arguments|;
    if n > 1 {
      QuotedArgumentsFirst(arguments[..n - 1]);
      assert arguments[..n - 1][1..] == arguments[1..][..n - 2];
      var a, b, c := " " + ShellQuote(arguments[0]), QuotedArguments(arguments[1..][..n - 2]),
          " " + ShellQuote(arguments[n - 1]);
      assert (a + b) + " " + ShellQuote(arguments[n - 1]) == a + (b + " " + ShellQuote(arguments[n - 1]));
    } else {
      assert arguments[..0] == [] && arguments[1..] == [];
    }
  }

  lemma {:induction false} ArgumentsWords(arguments: seq<string>, word: Word)
    requires AllNulFree(arguments)
    ensures Lex(QuotedArguments(arguments), Plain, word) == Some([word] + ArgumentWords(arguments))
  {
    hide QuotedArguments;
    if arguments == [] {
      assert QuotedArguments(arguments) == "" by { NoArguments(); }
      assert [word] + ArgumentWords(arguments) == [word];
    } else {
      QuotedArgumentsFirst(arguments);
      var tail := QuotedArguments(arguments[1..]);
      var next := ShellQuote(arguments[0]) + tail;
      assert QuotedArguments(arguments) == " " + next;
      NextWord(word, next);
      QuotedWord(arguments[0], tail, []);
      assert [] + Lits(arguments[0]) == Lits(arguments[0]);
      hide Lex;
      ArgumentsWords(arguments[1..], Lits(arguments[0]));
      assert [word] + ([Lits(arguments[0])] + ArgumentWords(arguments[1..])) == [word] + ArgumentWords(arguments);
    }
  }

  lemma NoArguments()
    ensures QuotedArguments([]) == ""
  {
  }

  lemma {:induction false} EscapeNothing(s: string)
    requires '\'' !in s
    ensures EscapeQuotes(s) == s
  {
    if s != "" {
      EscapeNothing(s[1..]);
      assert [s[0]] + s[1..] == s;
    }
  }

  /** Text that starts a word, read up to the blank that ends it. */
  lemma PlainThenBlank(text: string, next: string)
    requires text != "" && PlainText(text) && next != "" && !IsBlank(next[0]) && next[0] != '#'
    ensures Lex(text + (" " + next), Plain, []) == Before(Lits(text), Lex(next, Plain, []))
  {
    hide Lex;
    PlainWord(text, " " + next, []);
    assert [] + Lits(text) == Lits(text);
    NextWord(Lits(text), next);
  }

  lemma QuotedThenBlank(text: string, next: string)
    requires NulFree(text) && next != "" && !IsBlank(next[0]) && next[0] != '#'
    ensures Lex(ShellQuote(text) + (" " + next), Plain, []) == Before(Lits(text), Lex(next, Plain, []))
  {
    hide Lex, ShellQuote;
    QuotedWord(text, " " + next, []);
    assert [] + Lits(text) == Lits(text);
    NextWord(Lits(text), next);
  }

  lemma ScriptText(script: string, tail: string)
    requires '\'' !in script
    ensures "sh -c '" + script + "' sh" + tail
        == "sh" + (" " + ("-c" + (" " + (ShellQuote(script) + (" " + ("sh" + tail))))))
  {
    EscapeNothing(script);
    var q := "'" + script + "'";
    assert ShellQuote(script) == q;
    hide ShellQuote;
    assert "sh -c '" + script + "' sh" + tail == "sh -c " + (q + " sh" + tail);
  }

  /** The words every script command starts with. */
  lemma ScriptPrefix(script: string, tail: string)
    requires NulFree(script) && '\'' !in script
    ensures Words("sh -c '" + script + "' sh" + tail) ==
            Before(Lits("sh"), Before(Lits("-c"), Before(Lits(script), Lex(tail, Plain, Lits("sh")))))
  {
    ScriptText(script, tail);
    var d := "sh" + tail;
    var c := ShellQuote(script) + (" " + d);
    var b := "-c" + (" " + c);
    StartWord("sh" + (" " + b));
    hide Lex, Words;
    PlainThenBlank("sh", b);
    PlainThenBlank("-c", c);
    QuotedThenBlank(script, d);
    PlainWord("sh", tail, []);
    assert [] + Lits("sh") == Lits("sh");
  }

  lemma StartWord(a: string)
    requires a != "" && !IsBlank(a[0]) && a[0] != '#'
    ensures Words(a) == Lex(a, Plain, [])
  {
  }

  lemma ScriptTexts()
    ensures NulFree(EXECUTE_SCRIPT) && '\'' !in EXECUTE_SCRIPT
  {
  }

  /** The shell reads exactly the words that were meant, whatever the arguments contain. */
  lemma ExecuteWords(remoteFile: string, arguments: seq<string>)
    requires SafePath(remoteFile) && AllNulFree(arguments)
    ensures Words(ScriptCommand(EXECUTE_SCRIPT, " " + QuoteRemotePath(remoteFile), arguments)) ==
            Some([Lits("sh"), Lits("-c"), Lits(EXECUTE_SCRIPT), Lits("sh"), PathWord(remoteFile)] +
                ArgumentWords(arguments))
  {
    ScriptTexts();
    var tail := QuotedArguments(arguments);
    var next := QuoteRemotePath(remoteFile) + tail;
    hide Lex, QuotedArguments, Words;
    ScriptPrefix(EXECUTE_SCRIPT, " " + next);
    assert ScriptCommand(EXECUTE_SCRIPT, " " + QuoteRemotePath(remoteFile), arguments)
        == "sh -c '" + EXECUTE_SCRIPT + "' sh" + (" " + next);
    NextWord(Lits("sh"), next);
    RemotePathWord(remoteFile, tail);
    ArgumentsWords(arguments, PathWord(remoteFile));
    var a, b := [Lits("sh"), Lits("-c"), Lits(EXECUTE_SCRIPT), Lits("sh")],
        [PathWord(remoteFile)] + ArgumentWords(arguments);
    assert [a[0]] + ([a[1]] + ([a[2]] + ([a[3]] + b)))
        == [a[0], a[1], a[2], a[3], PathWord(remoteFile)] + ArgumentWords(arguments);
  }

  // ---------------------------------------------------------------- The probe command

  /** The probe script, statement by statement. */
  const PROBE_DETECT := ["os=$(uname -s) || exit ", "126; arch=$(uname -m) ", "|| exit 126; "]
  const PROBE_AMD64 := ["case \"$os/$arch\" in ", "Linux/x86_64|Linux/amd64) ", "platform=linux/amd64; ", "tool=$1;; "]
  const PROBE_ARM64 := ["Linux/aarch64|Linux/arm64) ", "platform=linux/arm64; ", "tool=$2;; "]
  const PROBE_UNSUPPORTED := ["*) printf \"__BINPORT__ ", "unsupported %s/%s\\n\" ", "\"$os\" \"$arch\" >&2; exit ",
      "126;; esac; "]
  const PROBE_MISSING := ["shift 2; if [ -z ", "\"$tool\" ]; then printf ", "\"__BINPORT__ missing ",
      "%s\\n\" \"$platform\" >&2; ", "exit 126; fi; "]
  const PROBE_MISS := ["if [ ! -x \"$tool\" ]; ", "then printf ", "\"__BINPORT__ miss %s\\n\" ",
      "\"$platform\" >&2; exit ", "125; fi; "]
  const PROBE_HIT := ["printf \"__BINPORT__ hit ", "%s\\n\" \"$platform\" >&2; ", "exec \"$tool\" \"$@\""]

  const PROBE_SCRIPT :=
    Flatten(PROBE_DETECT) +
    Flatten(PROBE_AMD64) +
    Flatten(PROBE_ARM64) +
    Flatten(PROBE_UNSUPPORTED) +
    Flatten(PROBE_MISSING) +
    Flatten(PROBE_MISS) +
    Flatten(PROBE_HIT)

  predicate Quotable(s: string) {
    NulFree(s) && '\'' !in s
  }

  lemma {:induction false} FlattenQuotable(pieces: seq<string>)
    requires forall i :: 0 <= i < |pieces| ==> Quotable(pieces[i])
    ensures Quotable(Flatten(pieces))
  {
    if pieces != [] { FlattenQuotable(pieces[1..]); }
  }

  lemma ProbeDetectQuotable()
    ensures Quotable(Flatten(PROBE_DETECT))
  {
    hide Flatten;
    FlattenQuotable(PROBE_DETECT);
  }

  lemma ProbeAmd64Quotable()
    ensures Quotable(Flatten(PROBE_AMD64))
  {
    hide Flatten;
    FlattenQuotable(PROBE_AMD64);
  }

  lemma ProbeArm64Quotable()
    ensures Quotable(Flatten(PROBE_ARM64))
  {
    hide Flatten;
    FlattenQuotable(PROBE_ARM64);
  }

  lemma ProbeUnsupportedQuotable()
    ensures Quotable(Flatten(PROBE_UNSUPPORTED))
  {
    hide Flatten;
    FlattenQuotable(PROBE_UNSUPPORTED);
  }

  lemma ProbeMissingQuotable()
    ensures Quotable(Flatten(PROBE_MISSING))
  {
    hide Flatten;
    FlattenQuotable(PROBE_MISSING);
  }

  lemma ProbeMissQuotable()
    ensures Quotable(Flatten(PROBE_MISS))
  {
    hide Flatten;
    FlattenQuotable(PROBE_MISS);
  }

  lemma ProbeHitQuotable()
    ensures Quotable(Flatten(PROBE_HIT))
  {
    hide Flatten;
    FlattenQuotable(PROBE_HIT);
  }

  lemma ProbeQuotable()
    ensures Quotable(PROBE_SCRIPT)
  {
    ProbeDetectQuotable();
    ProbeAmd64Quotable();
    ProbeArm64Quotable();
    ProbeUnsupportedQuotable();
    ProbeMissingQuotable();
    ProbeMissQuotable();
    ProbeHitQuotable();
    hide Flatten;
  }

  function ProbeFiles(amd64: Option<string>, arm64: Option<string>): string {
    " " + QuoteRemotePath(amd64.GetOr("")) + (" " + QuoteRemotePath(arm64.GetOr("")))
  }

  method ProbeExecuteCommand(amd64: Option<string>, arm64: Option<string>, arguments: seq<string>)
    returns (command: string)
    ensures command == ScriptCommand(PROBE_SCRIPT, ProbeFiles(amd64, arm64), arguments)
  {
    hide QuoteRemotePath, ShellQuote, PROBE_SCRIPT;
    command := "sh -c '" + PROBE_SCRIPT + "' sh" + ProbeFiles(amd64, arm64);
    for i := 0 to |arguments|
      invariant command == ScriptCommand(PROBE_SCRIPT, ProbeFiles(amd64, arm64), arguments[..i])
    {
      assert arguments[..i + 1][..i] == arguments[..i];
      command := command + " " + ShellQuote(arguments[i]);
    }
    assert arguments[..|arguments|] == arguments;
  }

  lemma QuotedPathHead(path: string)
    ensures var q := QuoteRemotePath(path); q != "" && !IsBlank(q[0]) && q[0] != '#'
  {
  }

  /** Both tool paths stay single words, the empty one included, so `shift 2` always drops exactly them. */
  lemma ProbeWords(amd64: Option<string>, arm64: Option<string>, arguments: seq<string>)
    requires SafePath(amd64.GetOr("")) && SafePath(arm64.GetOr("")) && AllNulFree(arguments)
    ensures Words(ScriptCommand(PROBE_SCRIPT, ProbeFiles(amd64, arm64), arguments)) ==
            Some([Lits("sh"), Lits("-c"), Lits(PROBE_SCRIPT), Lits("sh"),
                  PathWord(amd64.GetOr("")), PathWord(arm64.GetOr(""))] + ArgumentWords(arguments))
  {
    ProbeQuotable();
    var tail := QuotedArguments(arguments);
    var p, q := QuoteRemotePath(amd64.GetOr("")), QuoteRemotePath(arm64.GetOr(""));
    QuotedPathHead(amd64.GetOr(""));
    QuotedPathHead(arm64.GetOr(""));
    var second := q + tail;
    var first := p + (" " + second);
    var script := PROBE_SCRIPT;
    hide Lex, QuotedArguments, Words, QuoteRemotePath, PROBE_SCRIPT;
    ScriptPrefix(script, " " + first);
    assert ScriptCommand(script, ProbeFiles(amd64, arm64), arguments)
        == "sh -c '" + script + "' sh" + (" " + first) by {
      assert ProbeFiles(amd64, arm64) + tail == " " + first;
    }
    NextWord(Lits("sh"), first);
    RemotePathWord(amd64.GetOr(""), " " + second);
    NextWord(PathWord(amd64.GetOr("")), second);
    RemotePathWord(arm64.GetOr(""), tail);
    ArgumentsWords(arguments, PathWord(arm64.GetOr("")));
    var a := [Lits("sh"), Lits("-c"), Lits(script), Lits("sh"), PathWord(amd64.GetOr("")), PathWord(arm64.GetOr(""))];
    var b := ArgumentWords(arguments);
    assert [a[0]] + ([a[1]] + ([a[2]] + ([a[3]] + ([a[4]] + ([a[5]] + b))))) == a + b;
  }

  // ---------------------------------------------------------------- Running a command line

  predicate IsHex(s: string) {
    forall i :: 0 <= i < |s| ==> IsDigit(s[i]) || 'a' <= s[i] <= 'f'
  }

  /** The character test of `safe_tool_name`. */
  predicate SafeToolName(name: string) {
    name != "" && forall i :: 0 <= i < |name| ==>
      'a' <= name[i] <= 'z' || 'A' <= name[i] <= 'Z' || IsDigit(name[i]) || name[i] == '-' || name[i] == '_' ||
          name[i] == '.'
  }

  /** Where the last component of a path starts. */
  function LastComponent(path: string): (i: nat)
    ensures i <= |path|
    ensures forall k :: i <= k < |path| ==> path[k] != '/'
    ensures i == 0 || path[i - 1] == '/'
  {
    if path == "" || path[|path| - 1] == '/' then |path| else LastComponent(path[..|path| - 1])
  }

  /** `Path::file_name`: the last component, when it names something. */
  function FileName(path: string): Option<string>
    decreases |path|
  {
    var cut := LastComponent(path);
    var piece := path[cut..];
    if piece == ".." then None
    else if piece != "" && piece != "." then Some(piece)
    else if cut == 0 then None
    else FileName(path[..cut - 1])
  }

  /** `safe_tool_name`. */
  function ToolName(path: string): Option<string> {
    var name :- FileName(path);
    if SafeToolName(name) then Some(name) else None
  }

  /** A tool name that is its own last path component. */
  predicate BareName(name: string) {
    SafeToolName(name) && name != "." && name != ".."
  }

  lemma BareToolName(name: string)
    ensures BareName(name) <==> ToolName(name) == Some(name)
  {
    if SafeToolName(name) {
      assert LastComponent(name) == 0;
      assert name[0..] == name;
    }
  }

  const CACHE_PREFIX := "/.cache/binport/"

  function RemoteDirectory(hash: string): string {
    "$HOME" + (CACHE_PREFIX + hash)
  }

  function RemoteFile(hash: string, tool: string): string {
    RemoteDirectory(hash) + "/" + tool
  }

  /** Parameter expansion inside double quotes, then quote removal: one string per word, never split. */
  function Expand(w: Word, home: string): string {
    if w == [] then ""
    else
      (match w[0] case Lit(c) => [c] case Param(name) => if name == "HOME" then home else "")
      + Expand(w[1..], home)
  }

  function ExpandAll(words: seq<Word>, home: string): (r: seq<string>)
    ensures |r| == |words| && forall i :: 0 <= i < |words| ==> r[i] == Expand(words[i], home)
  {
    seq(|words|, i requires 0 <= i < |words| => Expand(words[i], home))
  }

  lemma {:induction false} ExpandLits(s: string, home: string)
    ensures Expand(Lits(s), home) == s
  {
    if s != "" {
      assert Lits(s)[1..] == Lits(s[1..]);
      ExpandLits(s[1..], home);
      assert [s[0]] + s[1..] == s;
    }
  }

  /** Cache paths are read back as the home directory followed by the literal rest of the path. */
  lemma CachePath(hash: string, tool: string, home: string)
    requires IsHex(hash) && SafeToolName(tool)
    ensures SafePath(RemoteFile(hash, tool)) && SafePath(RemoteDirectory(hash))
    ensures Expand(PathWord(RemoteFile(hash, tool)), home) == home + (CACHE_PREFIX + hash + "/" + tool)
  {
    var suffix := CACHE_PREFIX + hash + "/" + tool;
    assert RemoteFile(hash, tool) == "$HOME" + suffix;
    assert DoubleSafe(CACHE_PREFIX) && DoubleSafe("/") by { LiteralsSafe(); }
    assert DoubleSafe(hash) && DoubleSafe(tool);
    assert CACHE_PREFIX[0] == '/';
    hide RemoteFile, IsHex, SafeToolName, CACHE_PREFIX, PathWord, Expand;
    HomePath(CACHE_PREFIX + hash, home);
    HomePath(suffix, home);
  }

  lemma LiteralsSafe()
    ensures DoubleSafe(CACHE_PREFIX) && DoubleSafe("/")
  {
  }

  lemma HomePath(suffix: string, home: string)
    requires DoubleSafe(suffix) && suffix != "" && suffix[0] == '/'
    ensures SafePath("$HOME" + suffix) && Expand(PathWord("$HOME" + suffix), home) == home + suffix
  {
    var path := "$HOME" + suffix;
    assert HOME_PREFIX == "$HOME" + "/";
    assert path[..6] == HOME_PREFIX;
    assert path[5..] == suffix;
    ExpandLits(suffix, home);
    assert PathWord(path)[1..] == Lits(suffix);
  }

  /** Arguments of the process a command line runs: the script replaces itself by its first operand. */
  function Executed(commandLine: string, home: string): Option<seq<string>> {
    var words :- Words(commandLine);
    var argv := ExpandAll(words, home);
    if |argv| >= 5 && argv[..4] == ["sh", "-c", EXECUTE_SCRIPT, "sh"] then Some(argv[4..]) else None
  }

  function Command(file: string, arguments: seq<string>): string {
    ScriptCommand(EXECUTE_SCRIPT, " " + QuoteRemotePath(file), arguments)
  }

  lemma ExecuteRuns(file: string, arguments: seq<string>, home: string)
    requires SafePath(file) && AllNulFree(arguments)
    ensures Executed(Command(file, arguments), home) == Some([Expand(PathWord(file), home)] + arguments)
  {
    hide Words, ScriptCommand, Expand, PathWord, EXECUTE_SCRIPT;
    ExecuteWords(file, arguments);
    var words := Words(Command(file, arguments)).value;
    ExpandedWords(PathWord(file), arguments, home);
    hide Lits, ArgumentWords, ExpandAll, Command;
    assert words == [Lits("sh"), Lits("-c"), Lits(EXECUTE_SCRIPT), Lits("sh"), PathWord(file)] +
        ArgumentWords(arguments);
  }

  lemma ExpandAppend(a: seq<Word>, b: seq<Word>, home: string)
    ensures ExpandAll(a + b, home) == ExpandAll(a, home) + ExpandAll(b, home)
  {
    hide Expand;
  }

  lemma ExpandArguments(arguments: seq<string>, home: string)
    ensures ExpandAll(ArgumentWords(arguments), home) == arguments
  {
    hide Expand;
    forall i | 0 <= i < |arguments| ensures ExpandAll(ArgumentWords(arguments), home)[i] == arguments[i] {
      ExpandLits(arguments[i], home);
    }
  }

  lemma ExpandedWords(path: Word, arguments: seq<string>, home: string)
    ensures ExpandAll([Lits("sh"), Lits("-c"), Lits(EXECUTE_SCRIPT), Lits("sh"), path] + ArgumentWords(arguments), home)
         == ["sh", "-c", EXECUTE_SCRIPT, "sh"] + ([Expand(path, home)] + arguments)
  {
    hide Expand, EXECUTE_SCRIPT, Lits, ArgumentWords;
    var front := [Lits("sh"), Lits("-c"), Lits(EXECUTE_SCRIPT), Lits("sh"), path];
    ExpandLits("sh", home);
    ExpandLits("-c", home);
    ExpandLits(EXECUTE_SCRIPT, home);
    assert ExpandAll(front, home) == ["sh", "-c", EXECUTE_SCRIPT, "sh", Expand(path, home)];
    hide ExpandAll;
    ExpandAppend(front, ArgumentWords(arguments), home);
    ExpandArguments(arguments, home);
  }

  lemma {:induction false} EscapeNulFree(s: string)
    requires NulFree(s)
    ensures NulFree(EscapeQuotes(s))
  {
    if s != "" { EscapeNulFree(s[1..]); }
  }

  lemma {:induction false} ArgumentsNulFree(arguments: seq<string>)
    requires AllNulFree(arguments)
    ensures NulFree(QuotedArguments(arguments))
  {
    if arguments != [] {
      var n := |arguments| - 1;
      ArgumentsNulFree(arguments[..n]);
      EscapeNulFree(arguments[n]);
      hide QuotedArguments, EscapeQuotes;
      assert NulFree(ShellQuote(arguments[n]));
    }
    if arguments != [] {
      hide ShellQuote;
    }
  }

  lemma CommandNulFree(file: string, arguments: seq<string>)
    requires NulFree(file) && AllNulFree(arguments)
    ensures NulFree(Command(file, arguments))
  {
    EscapeNulFree(file);
    ArgumentsNulFree(arguments);
    ScriptTexts();
    hide EscapeQuotes, QuotedArguments;
    assert NulFree(QuoteRemotePath(file));
    hide QuoteRemotePath;
    assert NulFree("sh -c '") && NulFree("' sh");
  }

  /** A command line passed `depth` times through `sh -c` as an argument of the next one. */
  function Nested(file: string, arguments: seq<string>, depth: nat): string {
    if depth == 0 then Command(file, arguments)
    else Command("sh", ["-c", Nested(file, arguments, depth - 1)])
  }

  /** What the innermost shell of `depth` nested ones executes. */
  function Innermost(commandLine: string, home: string, depth: nat): Option<seq<string>>
    decreases depth
  {
    var argv :- Executed(commandLine, home);
    if depth == 0 then Some(argv)
    else if |argv| == 3 && argv[..2] == ["sh", "-c"] then Innermost(argv[2], home, depth - 1)
    else None
  }

  lemma {:induction false} NestedRecovers(file: string, arguments: seq<string>, home: string, depth: nat)
    requires SafePath(file) && AllNulFree(arguments)
    ensures NulFree(Nested(file, arguments, depth))
    ensures Innermost(Nested(file, arguments, depth), home, depth) == Some([Expand(PathWord(file), home)] + arguments)
  {
    hide Executed, Command, NulFree, Expand;
    if depth == 0 {
      CommandNulFree(file, arguments);
      ExecuteRuns(file, arguments, home);
    } else {
      NestedRecovers(file, arguments, home, depth - 1);
      var inner := Nested(file, arguments, depth - 1);
      assert NulFree("sh") && NulFree("-c") by { ShNulFree(); }
      CommandNulFree("sh", ["-c", inner]);
      ExecuteRuns("sh", ["-c", inner], home);
      ExpandLits("sh", home);
      var argv := [Expand(PathWord("sh"), home)] + ["-c", inner];
      assert argv[..2] == ["sh", "-c"] && argv[2] == inner;
    }
  }

  lemma ShNulFree()
    ensures NulFree("sh") && NulFree("-c")
  {
  }
}
