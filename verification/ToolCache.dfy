/**
 The content-addressed tool cache on a remote host: warming it with every tool of the toolbox, and running
 a tool with one probe that either finds it there or has it uploaded first.
 */
module ToolCache {
  import opened Wrappers
  import opened Text
  import opened ConfigText
  import opened Oci
  import opened ProbeStream
  import Shell

  // ---------------------------------------------------------------- Candidates

  /** A toolbox entry as the cache sees it: its contents, and where they go on the host. */
  datatype Candidate = Candidate(name: string, platform: Platform, content: Bytes, remoteFile: string)

  datatype ToolError = UnknownPlatform | UnsafeName | MissingFile | Connection | NotSupported | BadResponse | Missing

  function CandidateFor(hash: string -> string, files: map<string, Bytes>, entry: LockedTool): Result<Candidate,
      ToolError> {
    var platform := ParsePlatform(entry.platform);
    var name := Shell.ToolName(entry.path);
    if platform == None then Err(ToolError.UnknownPlatform)
    else if name == None then Err(ToolError.UnsafeName)
    else if entry.path !in files then Err(ToolError.MissingFile)
    else
      var content := files[entry.path];
      Ok(Candidate(entry.name, platform.value, content, Shell.RemoteFile(hash(content), name.value)))
  }

  /** `toolbox_all_candidates`: every entry must do. */
  function AllCandidates(hash: string -> string, files: map<string, Bytes>,
      lock: seq<LockedTool>): Result<seq<Candidate>, ToolError> {
    if lock == [] then Ok([])
    else
      var first :- CandidateFor(hash, files, lock[0]);
      var rest :- AllCandidates(hash, files, lock[1..]);
      Ok([first] + rest)
  }

  /** `toolbox_candidates`. */
  function Named(all: seq<Candidate>, tool: string): seq<Candidate> {
    if all == [] then []
    else if all[0].name == tool then [all[0]] + Named(all[1..], tool)
    else Named(all[1..], tool)
  }

  function ForPlatform(all: seq<Candidate>, p: Platform): (r: seq<Candidate>)
    ensures forall c :: c in r <==> c in all && c.platform == p
  {
    if all == [] then []
    else if all[0].platform == p then [all[0]] + ForPlatform(all[1..], p)
    else ForPlatform(all[1..], p)
  }

  /** The first candidate for a platform, as `find` picks it. */
  function First(candidates: seq<Candidate>, p: Platform): (r: Option<Candidate>)
    ensures r.Some? ==> r.value in candidates && r.value.platform == p
  {
    if candidates == [] then None
    else if candidates[0].platform == p then Some(candidates[0])
    else First(candidates[1..], p)
  }

  lemma {:induction false} NamedIn(all: seq<Candidate>, tool: string, c: Candidate)
    ensures c in Named(all, tool) <==> c in all && c.name == tool
  {
    if all != [] { NamedIn(all[1..], tool, c); }
  }

  /** A candidate's path on the host starts with the hash of its contents. */
  ghost predicate Addressed(hash: string -> string, c: Candidate) {
    exists name :: Shell.RemoteFile(hash(c.content), name) == c.remoteFile
  }

  lemma {:induction false} CandidatesAddressed(hash: string -> string, files: map<string, Bytes>, lock: seq<LockedTool>,
      c: Candidate)
    requires AllCandidates(hash, files, lock).Ok? && c in AllCandidates(hash, files, lock).value
    ensures Addressed(hash, c)
  {
    var first := CandidateFor(hash, files, lock[0]).value;
    if c == first {
      assert Shell.RemoteFile(hash(c.content), Shell.ToolName(lock[0].path).value) == c.remoteFile;
    } else {
      CandidatesAddressed(hash, files, lock[1..], c);
    }
  }

  // ---------------------------------------------------------------- The host

  datatype Outcome = Outcome(status: nat, stdout: Bytes, stderr: Bytes)

  function LowerAll(s: string): (r: string)
    ensures |r| == |s| && forall i :: 0 <= i < |s| ==> r[i] == Lower(s[i])
  {
    seq(|s|, i requires 0 <= i < |s| => Lower(s[i]))
  }

  /** `Platform::from_uname`, which the warm command uses. */
  function FromUname(os: string, machine: string): Option<Platform> {
    if LowerAll(Trim(os)) != "linux" then None
    else if Trim(machine) == "x86_64" || Trim(machine) == "amd64" then Some(LinuxAmd64)
    else if Trim(machine) == "aarch64" || Trim(machine) == "arm64" then Some(LinuxArm64)
    else None
  }

  /** The `case` of the probe script, which compares literally. */
  function ProbePlatform(os: string, machine: string): Option<Platform> {
    if os != "Linux" then None
    else if machine == "x86_64" || machine == "amd64" then Some(LinuxAmd64)
    else if machine == "aarch64" || machine == "arm64" then Some(LinuxArm64)
    else None
  }

  const MARK := "__BINPORT__ "

  function ChosenFile(p: Platform, amd64: Option<string>, arm64: Option<string>): string {
    if p == LinuxAmd64 then amd64.GetOr("") else arm64.GetOr("")
  }

  /** What the probe script does on a host, a tool's run being a function of its contents and arguments. */
  function ProbeOutcome(
    os: string, machine: string, files: map<string, Bytes>, program: (Bytes, seq<string>) -> Outcome,
    amd64: Option<string>, arm64: Option<string>, arguments: seq<string>): Outcome
  {
    match ProbePlatform(os, machine)
    case None => Outcome(126, "", MARK + "unsupported " + os + "/" + machine + "\n")
    case Some(p) =>
      var tool := ChosenFile(p, amd64, arm64);
      if tool == "" then Outcome(126, "", MARK + "missing " + Name(p) + "\n")
      else if tool !in files then Outcome(125, "", MARK + "miss " + Name(p) + "\n")
      else
        var o := program(files[tool], arguments);
        Outcome(o.status, o.stdout, MARK + "hit " + Name(p) + "\n" + o.stderr)
  }

  function Flags(files: map<string, Bytes>, candidates: seq<Candidate>): (r: string)
    ensures |r| == |candidates| && forall i :: 0 <= i < |r| ==> r[i] == if candidates[i].remoteFile in files then '1'
        else '0'
  {
    seq(|candidates|, i requires 0 <= i < |candidates| => if candidates[i].remoteFile in files then '1' else '0')
  }

  /** A host: its executables by path, and which commands it fails to carry out. */
  class RemoteHost {
    const os: string
    const machine: string
    const program: (Bytes, seq<string>) -> Outcome
    const fails: nat -> bool
    var clock: nat
    var files: map<string, Bytes>

    /** Some command is not carried out. */
    ghost predicate Flaky() {
      exists n: nat :: fails(n)
    }

    method Command() returns (ok: bool)
      modifies this`clock
      ensures clock == old(clock) + 1 && ok == !fails(old(clock))
    {
      ok := !fails(clock);
      clock := clock + 1;
    }

    /** The joined `test -x` commands of a warm run. */
    method CheckFiles(candidates: seq<Candidate>) returns (flags: Option<string>)
      modifies this`clock
      ensures flags.Some? ==> flags.value == Flags(files, candidates)
      ensures flags == None ==> Flaky()
    {
      var ok := Command();
      flags := if ok then Some(Flags(files, candidates)) else None;
    }

    /** The upload script: the file is there complete, or not at all. */
    method Upload(path: string, data: Bytes) returns (ok: bool)
      modifies this`clock, this`files
      ensures files == if ok then old(files)[path := data] else old(files)
      ensures !ok ==> Flaky()
    {
      ok := Command();
      if ok { files := files[path := data]; }
    }

    method Probe(amd64: Option<string>, arm64: Option<string>, arguments: seq<string>) returns (r: Option<Outcome>)
      modifies this`clock
      ensures r.Some? ==> r.value == ProbeOutcome(os, machine, files, program, amd64, arm64, arguments)
      ensures r == None ==> Flaky()
    {
      var ok := Command();
      r := if ok then Some(ProbeOutcome(os, machine, files, program, amd64, arm64, arguments)) else None;
    }

    method Execute(path: string, arguments: seq<string>) returns (r: Option<Outcome>)
      requires path in files
      modifies this`clock
      ensures r.Some? ==> r.value == program(files[path], arguments)
      ensures r == None ==> Flaky()
    {
      var ok := Command();
      r := if ok then Some(program(files[path], arguments)) else None;
    }
  }

  // ---------------------------------------------------------------- Warming

  datatype WarmOutcome = WarmOutcome(platform: Platform, cached: nat, uploaded: nat, bytes: nat)

  /** How many of the candidates are missing, and how large they are together. */
  function Misses(files: map<string, Bytes>, candidates: seq<Candidate>): (nat, nat) {
    if candidates == [] then (0, 0)
    else
      var (n, size) := Misses(files, candidates[..|candidates| - 1]);
      var c := candidates[|candidates| - 1];
      if c.remoteFile in files then (n, size) else (n + 1, size + |c.content|)
  }

  /** The host has a file at every candidate's path. */
  predicate Warmed(files: map<string, Bytes>, candidates: seq<Candidate>) {
    forall c :: c in candidates ==> c.remoteFile in files
  }

  /** Nothing that was there is touched, and what is new is some candidate's contents. */
  predicate OnlyAdds(before: map<string, Bytes>, now: map<string, Bytes>, candidates: seq<Candidate>) {
    && (forall path :: path in before ==> path in now && now[path] == before[path])
    && (forall path :: path in now && path !in before ==>
          exists c :: c in candidates && c.remoteFile == path && now[path] == c.content)
  }

  lemma AddOne(before: map<string, Bytes>, now: map<string, Bytes>, all: seq<Candidate>, c: Candidate)
    requires OnlyAdds(before, now, all) && c in all && c.remoteFile !in before
    ensures OnlyAdds(before, now[c.remoteFile := c.content], all)
  {
    var after := now[c.remoteFile := c.content];
    forall path | path in after && path !in before
      ensures exists d :: d in all && d.remoteFile == path && after[path] == d.content
    {
      if path == c.remoteFile {
        assert c in all;
      } else {
        var d :| d in all && d.remoteFile == path && now[path] == d.content;
        assert d in all && after[path] == d.content;
      }
    }
  }

  lemma MissesNext(files: map<string, Bytes>, candidates: seq<Candidate>, k: nat)
    requires k < |candidates|
    ensures Misses(files, candidates[..k + 1]) ==
      var c, before := candidates[k], Misses(files, candidates[..k]);
      if c.remoteFile in files then before else (before.0 + 1, before.1 + |c.content|)
  {
    assert candidates[..k + 1][..k] == candidates[..k];
  }

  lemma WarmedNext(files: map<string, Bytes>, now: map<string, Bytes>, candidates: seq<Candidate>, k: nat)
    requires k < |candidates| && Warmed(files, candidates[..k]) && files.Keys <= now.Keys &&
        candidates[k].remoteFile in now
    ensures Warmed(now, candidates[..k + 1])
  {
    assert candidates[..k + 1] == candidates[..k] + [candidates[k]];
    forall c | c in candidates[..k + 1] ensures c.remoteFile in now {
      if c in candidates[..k] { assert c.remoteFile in files; }
    }
  }

  /** The upload loop, against the flags read before it. */
  method UploadMissing(host: RemoteHost, mine: seq<Candidate>, flags: string, ghost all: seq<Candidate>)
    returns (counts: Option<(nat, nat, nat)>)
    requires flags == Flags(host.files, mine) && forall c :: c in mine ==> c in all
    modifies host`clock, host`files
    ensures OnlyAdds(old(host.files), host.files, all)
    ensures counts.Some? ==>
      && Warmed(host.files, mine) && (counts.value.1, counts.value.2) == Misses(old(host.files), mine)
      && counts.value.0 + counts.value.1 == |mine|
  {
    ghost var start := host.files;
    var cached, uploaded, bytes, k := 0, 0, 0, 0;
    while k < |mine|
      invariant k <= |mine| && OnlyAdds(start, host.files, all)
      invariant Warmed(host.files, mine[..k])
      invariant (uploaded, bytes) == Misses(start, mine[..k]) && cached + uploaded == k
    {
      MissesNext(start, mine, k);
      ghost var before := host.files;
      assert mine[k].remoteFile in start ==> mine[k].remoteFile in before;
      if flags[k] == '1' {
        cached := cached + 1;
      } else {
        var c := mine[k];
        var ok := host.Upload(c.remoteFile, c.content);
        if !ok { return None; }
        AddOne(start, before, all, c);
        uploaded, bytes := uploaded + 1, bytes + |c.content|;
      }
      hide OnlyAdds, Misses, Warmed;
      WarmedNext(before, host.files, mine, k);
      k := k + 1;
    }
    assert mine[..k] == mine;
    counts := Some((cached, uploaded, bytes));
  }

  /**
   `warm_host`. The flags are read once, before anything is uploaded. On success every candidate of the host's
   platform is in the cache, and the counters are those of the state before; a failure leaves only whole files.
   */
  method WarmHost(host: RemoteHost, all: seq<Candidate>) returns (r: Result<WarmOutcome, ToolError>)
    modifies host`clock, host`files
    ensures OnlyAdds(old(host.files), host.files, all)
    ensures r.Ok? ==> FromUname(host.os, host.machine) == Some(r.value.platform)
    ensures r.Ok? ==>
      var mine := ForPlatform(all, r.value.platform);
      && Warmed(host.files, mine)
      && (r.value.uploaded, r.value.bytes) == Misses(old(host.files), mine)
      && r.value.cached + r.value.uploaded == |mine|
  {
    hide Misses, Warmed, FromUname;
    assert OnlyAdds(host.files, host.files, all);
    var detected := host.Command();
    if !detected { return Err(Connection); }
    var platform := FromUname(host.os, host.machine);
    if platform == None { return Err(NotSupported); }
    var mine := ForPlatform(all, platform.value);
    var flags := Some("");
    if mine != [] { flags := host.CheckFiles(mine); }
    if flags == None { return Err(Connection); }
    if |flags.value| != |mine| { return Err(BadResponse); }
    assert flags.value == Flags(host.files, mine);
    hide OnlyAdds, Flags;
    var counts := UploadMissing(host, mine, flags.value, all);
    if counts == None { return Err(Connection); }
    r := Ok(WarmOutcome(platform.value, counts.value.0, counts.value.1, counts.value.2));
  }

  lemma {:induction false} NoMisses(files: map<string, Bytes>, candidates: seq<Candidate>)
    requires Warmed(files, candidates)
    ensures Misses(files, candidates) == (0, 0)
  {
    if candidates != [] {
      NoMisses(files, candidates[..|candidates| - 1]);
      assert candidates[|candidates| - 1] in candidates;
    }
  }

  /** Warming again finds everything and transfers nothing. */
  method WarmTwice(host: RemoteHost, all: seq<Candidate>)
      returns (first: Result<WarmOutcome, ToolError>, second: Result<WarmOutcome, ToolError>)
    modifies host`clock, host`files
    ensures first.Ok? && second.Ok? ==>
      && second.value == WarmOutcome(first.value.platform, |ForPlatform(all, first.value.platform)|, 0, 0)
  {
    hide OnlyAdds, FromUname, Warmed, Misses;
    first := WarmHost(host, all);
    if first.Err? { return first, first; }
    NoMisses(host.files, ForPlatform(all, first.value.platform));
    second := WarmHost(host, all);
  }

  // ---------------------------------------------------------------- The protocol line

  /** What the first line of standard error says, and the tool's own standard error after it. */
  function ReadProtocol(stderr: Bytes): Result<(bool, Platform, Bytes), ToolError> {
    var (protocol, rest) := SplitOnce(stderr);
    var fields := SplitSpaces(protocol);
    if |fields| < 3 || fields[0] != "__BINPORT__" then Err(BadResponse)
    else
      var platform := ParsePlatform(fields[2]);
      if platform == None then Err(NotSupported)
      else if fields[1] == "hit" then Ok((true, platform.value, rest))
      else if fields[1] != "miss" then Err(NotSupported)
      else Ok((false, platform.value, rest))
  }

  lemma FirstField(w: string, rest: string)
    requires w != "" && NoSpace(w)
    ensures SplitSpaces(w + (" " + rest)) == [w] + SplitSpaces(rest)
    ensures SplitSpaces(w) == [w]
  {
    SplitValue(w);
    FirstSpaceAfter(w, rest);
    var all := w + (" " + rest);
    assert all == w + " " + rest;
    assert all[..|w|] == w && all[|w|..] == " " + rest;
    assert (" " + rest)[1..] == rest;
  }

  predicate OneLine(s: Bytes) {
    forall i :: 0 <= i < |s| ==> s[i] != '\n'
  }

  lemma LineOff(line: Bytes, rest: Bytes)
    requires OneLine(line)
    ensures SplitOnce(line + "\n" + rest) == (line, rest)
  {
    var all := line + "\n" + rest;
    FirstNewlineUnique(all, |line|);
    assert all[..|line|] == line && all[|line| + 1..] == rest;
  }

  /** A line of three words. */
  lemma ThreeWords(word: string, p: Platform)
    requires word != "" && NoSpace(word)
    ensures SplitSpaces(MARK + word + " " + Name(p)) == ["__BINPORT__", word, Name(p)]
    ensures OneLine(word) ==> OneLine(MARK + word + " " + Name(p))
  {
    hide SplitSpaces;
    assert NoSpace("__BINPORT__") && NoSpace("linux/") && NoSpace(Architecture(p)) && NoSpace(Name(p));
    var tail := word + (" " + Name(p));
    assert MARK + word + " " + Name(p) == "__BINPORT__" + (" " + tail) by { assert MARK == "__BINPORT__" + " "; }
    FirstField("__BINPORT__", tail);
    FirstField(word, Name(p));
    FirstField(Name(p), "");
    assert OneLine("linux/") && OneLine(Architecture(p)) && OneLine(MARK) && OneLine(" ");
  }

  lemma ReadsLine(word: string, p: Platform, rest: Bytes)
    requires word in ["hit", "miss", "missing"]
    ensures ReadProtocol(MARK + word + " " + Name(p) + "\n" + rest)
         == if word == "hit" then Ok((true, p, rest)) else if word == "miss" then Ok((false, p, rest))
             else Err(NotSupported)
  {
    assert NoSpace(word) && OneLine(word);
    PlatformNames(p, p);
    assert ParsePlatform(Name(p)) == Some(p);
    hide SplitSpaces, SplitOnce, Name, ParsePlatform, MARK, NoSpace, OneLine;
    ThreeWords(word, p);
    LineOff(MARK + word + " " + Name(p), rest);
    var fields := ["__BINPORT__", word, Name(p)];
    assert SplitOnce(MARK + word + " " + Name(p) + "\n" + rest) == (MARK + word + " " + Name(p), rest);
    assert SplitSpaces(MARK + word + " " + Name(p)) == fields;
  }

  lemma {:induction false} SplitOnceKeeps(line: Bytes, rest: Bytes)
    requires OneLine(line)
    ensures SplitOnce(line + rest).0 == line + SplitOnce(rest).0
  {
    var n := FirstNewline(rest);
    var all := line + rest;
    if n < |rest| {
      FirstNewlineUnique(all, |line| + n);
    } else {
      assert forall i :: 0 <= i < |all| ==> all[i] != '\n';
    }
    assert all[..|line| + n] == line + rest[..n];
  }

  lemma UnsupportedFields(x: string)
    ensures SplitSpaces(MARK + "unsupported " + x) == ["__BINPORT__", "unsupported"] + SplitSpaces(x)
  {
    hide SplitSpaces;
    assert NoSpace("__BINPORT__") && NoSpace("unsupported");
    assert MARK == "__BINPORT__" + " " && "unsupported " == "unsupported" + " ";
    var tail := "unsupported" + (" " + x);
    assert MARK + "unsupported " + x == "__BINPORT__" + (" " + tail);
    FirstField("__BINPORT__", tail);
    FirstField("unsupported", x);
  }

  lemma ReadsUnsupported(rest: Bytes)
    ensures ReadProtocol(MARK + "unsupported " + rest).Err?
  {
    assert OneLine(MARK) && OneLine("unsupported ");
    hide SplitSpaces, SplitOnce, ParsePlatform;
    SplitOnceKeeps(MARK + "unsupported ", rest);
    UnsupportedFields(SplitOnce(rest).0);
    hide MARK;
  }

  // ---------------------------------------------------------------- Running

  datatype RunResult = RunResult(outcome: Outcome, platform: Platform, hit: bool)

  /** What a run must come to: the tool's own outcome, from the cache when its file is there. */
  function Expected(host: (string, string), files: map<string, Bytes>, program: (Bytes, seq<string>) -> Outcome,
                    candidates: seq<Candidate>, arguments: seq<string>): Option<RunResult>
  {
    var p :- ProbePlatform(host.0, host.1);
    var c :- First(candidates, p);
    var hit := c.remoteFile in files;
    Some(RunResult(program(if hit then files[c.remoteFile] else c.content, arguments), p, hit))
  }

  function FileFor(candidates: seq<Candidate>, p: Platform): Option<string> {
    var c :- First(candidates, p);
    Some(c.remoteFile)
  }

  /** The probe's answer, read back, is the expected one: a hit with its outcome, a miss, or an error. */
  lemma ProbeReads(host: RemoteHost, files: map<string, Bytes>, candidates: seq<Candidate>, arguments: seq<string>)
    requires forall c :: c in candidates ==> c.remoteFile != ""
    ensures var o := ProbeOutcome(host.os, host.machine, files, host.program, FileFor(candidates, LinuxAmd64),
        FileFor(candidates, LinuxArm64), arguments);
            match Expected((host.os, host.machine), files, host.program, candidates, arguments)
            case None => ReadProtocol(o.stderr).Err?
            case Some(e) =>
              if e.hit then o.status == e.outcome.status && o.stdout == e.outcome.stdout
                            && ReadProtocol(o.stderr) == Ok((true, e.platform, e.outcome.stderr))
              else ReadProtocol(o.stderr) == Ok((false, e.platform, ""))
  {
    hide ReadProtocol, Name, MARK;
    match ProbePlatform(host.os, host.machine)
    case None =>
      ReadsUnsupported(host.os + "/" + host.machine + "\n");
      assert MARK + "unsupported " + host.os + "/" + host.machine + "\n"
          == MARK + "unsupported " + (host.os + "/" + host.machine + "\n");
    case Some(p) =>
      var c := First(candidates, p);
      if c == None {
        ReadsLine("missing", p, "");
        assert MARK + "missing " + Name(p) + "\n" == MARK + "missing" + " " + Name(p) + "\n" + "" by {
          assert "missing " == "missing" + " ";
        }
      } else if c.value.remoteFile !in files {
        ReadsLine("miss", p, "");
        assert MARK + "miss " + Name(p) + "\n" == MARK + "miss" + " " + Name(p) + "\n" + "" by {
          assert "miss " == "miss" + " ";
        }
      } else {
        var o := host.program(files[c.value.remoteFile], arguments);
        ReadsLine("hit", p, o.stderr);
        assert MARK + "hit " + Name(p) + "\n" + o.stderr == MARK + "hit" + " " + Name(p) + "\n" + o.stderr by {
          assert "hit " == "hit" + " ";
        }
      }
  }

  /**
   `run_remote`. Where it succeeds it returns the tool's own status and output, whether the file was in the
   cache or had to be sent, and leaves the cache as it was or with that one file more.
   */
  method RunRemote(host: RemoteHost, candidates: seq<Candidate>, arguments: seq<string>)
      returns (r: Result<RunResult, ToolError>)
    requires forall c :: c in candidates ==> c.remoteFile != ""
    modifies host`clock, host`files
    ensures r.Ok? ==>
      Expected((host.os, host.machine), old(host.files), host.program, candidates, arguments) == Some(r.value)
    ensures OnlyAdds(old(host.files), host.files, candidates)
    ensures r.Ok? ==> if r.value.hit then host.files == old(host.files)
                      else host.files.Keys == old(host.files).Keys +
                           {First(candidates, r.value.platform).value.remoteFile}
    ensures r.Err? && !host.Flaky() ==>
      Expected((host.os, host.machine), old(host.files), host.program, candidates, arguments) == None
  {
    hide ReadProtocol, ProbeOutcome;
    ghost var start := host.files;
    var probe := host.Probe(FileFor(candidates, LinuxAmd64), FileFor(candidates, LinuxArm64), arguments);
    if probe == None { return Err(Connection); }
    ProbeReads(host, start, candidates, arguments);
    var said := ReadProtocol(probe.value.stderr);
    if said.Err? { return Err(said.error); }
    var (hit, platform, toolStderr) := said.value;
    if hit { return Ok(RunResult(Outcome(probe.value.status, probe.value.stdout, toolStderr), platform, true)); }
    var candidate := First(candidates, platform);
    if candidate == None { return Err(Missing); }
    var sent := host.Upload(candidate.value.remoteFile, candidate.value.content);
    if !sent { return Err(Connection); }
    AddOne(start, start, candidates, candidate.value);
    var outcome := host.Execute(candidate.value.remoteFile, arguments);
    if outcome == None { return Err(Connection); }
    r := Ok(RunResult(outcome.value, platform, false));
  }

  // ---------------------------------------------------------------- Cached and uncached runs

  /** Every cached file is what its path says: the path holds the hash of the contents. */
  ghost predicate HonestCache(hash: string -> string, files: map<string, Bytes>) {
    forall h: string, name: string :: Shell.RemoteFile(h, name) in files && IsHash(h) ==>
        hash(files[Shell.RemoteFile(h, name)]) == h
  }

  /** No cached file collides with a candidate's contents. */
  predicate NoClash(hash: string -> string, files: map<string, Bytes>, candidates: seq<Candidate>) {
    forall c, path :: c in candidates && path in files && hash(files[path]) == hash(c.content) ==>
        files[path] == c.content
  }

  /** What a run comes to on a host with an empty cache. */
  function Uncached(os: string, machine: string, program: (Bytes, seq<string>) -> Outcome, candidates: seq<Candidate>,
                    arguments: seq<string>): Option<(Outcome, Platform)>
  {
    var p :- ProbePlatform(os, machine);
    var c :- First(candidates, p);
    Some((program(c.content, arguments), p))
  }

  /** The cache does not show: with an honest cache a run returns what it would with none. */
  lemma CacheDoesNotShow(
    hash: string -> string, os: string, machine: string, files: map<string, Bytes>,
        program: (Bytes, seq<string>) -> Outcome,
    candidates: seq<Candidate>, arguments: seq<string>)
    requires ValidHash(hash) && HonestCache(hash, files) && NoClash(hash, files, candidates)
    requires forall c :: c in candidates ==> Addressed(hash, c)
    ensures var e := Expected((os, machine), files, program, candidates, arguments);
            var u := Uncached(os, machine, program, candidates, arguments);
            if u == None then e == None else e.Some? && (e.value.outcome, e.value.platform) == u.value
  {
    var p := ProbePlatform(os, machine);
    if p.Some? {
      var c := First(candidates, p.value);
      if c.Some? && c.value.remoteFile in files {
        var name :| Shell.RemoteFile(hash(c.value.content), name) == c.value.remoteFile;
        assert IsHash(hash(c.value.content));
        assert hash(files[c.value.remoteFile]) == hash(c.value.content);
      }
    }
  }

  /** An honest cache stays honest when candidates are added. */
  lemma AddsStayHonest(hash: string -> string, before: map<string, Bytes>, now: map<string, Bytes>,
      candidates: seq<Candidate>)
    requires HonestCache(hash, before) && OnlyAdds(before, now, candidates) && ValidHash(hash)
    requires forall c :: c in candidates ==> Addressed(hash, c)
    ensures HonestCache(hash, now)
  {
    forall h: string, name: string | Shell.RemoteFile(h, name) in now && IsHash(h)
      ensures hash(now[Shell.RemoteFile(h, name)]) == h
    {
      var path := Shell.RemoteFile(h, name);
      if path !in before {
        var c :| c in candidates && c.remoteFile == path && now[path] == c.content;
        var other :| Shell.RemoteFile(hash(c.content), other) == path;
        assert IsHash(hash(c.content));
        RemoteFileHash(h, name, hash(c.content), other);
      }
    }
  }

  lemma RemoteFileHash(h: string, name: string, g: string, other: string)
    requires |h| == |g| && Shell.RemoteFile(h, name) == Shell.RemoteFile(g, other)
    ensures h == g
  {
    var lead := "$HOME" + Shell.CACHE_PREFIX;
    assert Shell.RemoteFile(h, name) == lead + h + ("/" + name);
    assert Shell.RemoteFile(g, other) == lead + g + ("/" + other);
    assert (lead + h + ("/" + name))[|lead|..|lead| + |h|] == h;
    assert (lead + g + ("/" + other))[|lead|..|lead| + |g|] == g;
  }

  /** What `uname` says to the letter on the machines the probe script knows. */
  predicate Literal(os: string, machine: string) {
    os == "Linux" && machine in ["x86_64", "amd64", "aarch64", "arm64"]
  }

  /**
   The warm command takes every platform the probe script knows for what it is. Where it takes one, the two
   agree exactly when the host spells its system and machine literally.
   */
  lemma PlatformsAgree(os: string, machine: string)
    ensures ProbePlatform(os, machine).Some? <==> Literal(os, machine)
    ensures Literal(os, machine) ==> FromUname(os, machine) == ProbePlatform(os, machine)
    ensures FromUname(os, machine).Some? ==>
        (FromUname(os, machine) == ProbePlatform(os, machine) <==> Literal(os, machine))
  {
    hide FromUname;
    if Literal(os, machine) { LiteralUname(os, machine); }
  }

  lemma LiteralUname(os: string, machine: string)
    requires ProbePlatform(os, machine).Some?
    ensures FromUname(os, machine) == ProbePlatform(os, machine)
  {
    hide Trim, LowerAll;
    LinuxLowered();
    assert !IsSpace('L') && !IsSpace('x');
    Untrimmed(os);
    if machine == "x86_64" { assert !IsSpace('4'); Untrimmed(machine); }
    if machine == "amd64" { assert !IsSpace('a') && !IsSpace('4'); Untrimmed(machine); }
    if machine == "aarch64" { assert !IsSpace('a') && !IsSpace('4'); Untrimmed(machine); }
    if machine == "arm64" { assert !IsSpace('a') && !IsSpace('4'); Untrimmed(machine); }
  }

  lemma LinuxLowered()
    ensures LowerAll("Linux") == "linux"
  {
    assert |"Linux"| == 5 && "Linux"[0] == 'L' && "Linux"[1] == 'i' && "Linux"[2] == 'n' && "Linux"[3] == 'u' &&
        "Linux"[4] == 'x';
  }

  lemma Untrimmed(s: string)
    requires s != "" && !IsSpace(s[0]) && !IsSpace(s[|s| - 1])
    ensures Trim(s) == s
  {
  }

  /** The warm command also takes a system name the probe script refuses. */
  lemma LenientUname()
    ensures FromUname("linux", "x86_64") == Some(LinuxAmd64) && ProbePlatform("linux", "x86_64") == None
  {
    assert LowerAll("linux") == "linux";
    assert !IsSpace('l') && !IsSpace('x') && !IsSpace('4');
    Untrimmed("linux");
    Untrimmed("x86_64");
  }

  /**
   Warm, then run. After a successful warm-up, a run of a toolbox tool that succeeds is a hit, sends nothing,
   and returns what the tool does with its own contents when the cache was honest before. On a host that
   carries out its commands it succeeds exactly when there is such a tool for the platform warmed and the host
   spells its platform as the probe script does.
   */
  method WarmThenRun(hash: string -> string, host: RemoteHost, lock: seq<LockedTool>, local: map<string, Bytes>,
                     tool: string, arguments: seq<string>)
    returns (warm: Result<WarmOutcome, ToolError>, run: Result<RunResult, ToolError>, ghost between: map<string, Bytes>)
    requires ValidHash(hash) && AllCandidates(hash, local, lock).Ok?
    modifies host`clock, host`files
    ensures warm.Ok? && run.Ok? ==> run.value.hit && host.files == between && run.value.platform == warm.value.platform
    ensures warm.Ok? && HonestCache(hash, old(host.files)) &&
            NoClash(hash, between, AllCandidates(hash, local, lock).value) && run.Ok? ==>
      Uncached(host.os, host.machine, host.program, Named(AllCandidates(hash, local, lock).value, tool), arguments)
      == Some((run.value.outcome, run.value.platform))
    ensures warm.Ok? && run.Err? && !host.Flaky() ==>
      Uncached(host.os, host.machine, host.program, Named(AllCandidates(hash, local, lock).value, tool), arguments)
          == None
    ensures warm.Ok? && !host.Flaky() ==>
      (run.Ok? <==> Literal(host.os, host.machine)
                    && First(Named(AllCandidates(hash, local, lock).value, tool), warm.value.platform).Some?)
  {
    var all := AllCandidates(hash, local, lock).value;
    ghost var start := host.files;
    hide FromUname, Misses, HonestCache, ValidHash, OnlyAdds;
    warm := WarmHost(host, all);
    between := host.files;
    if warm.Err? { return warm, Err(warm.error), between; }
    var mine := Named(all, tool);
    forall c | c in mine ensures c in all && Addressed(hash, c) && c.remoteFile != "" {
      NamedIn(all, tool, c);
      CandidatesAddressed(hash, local, lock, c);
      hide Named;
    }
    forall c | c in all ensures Addressed(hash, c) { CandidatesAddressed(hash, local, lock, c); }
    run := RunRemote(host, mine, arguments);
    if HonestCache(hash, start) && NoClash(hash, between, all) {
      AddsStayHonest(hash, start, between, all);
      CacheDoesNotShow(hash, host.os, host.machine, between, host.program, mine, arguments);
    }
    PlatformsAgree(host.os, host.machine);
  }
}
