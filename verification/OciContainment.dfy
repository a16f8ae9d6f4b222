/**
 What an unpack that fails has done to the project by then. Nothing, as long as every name met on the way
 keeps to the staging directory; a name that climbs out of it is written where it leads at once.
 */
module OciContainment {
  import opened Wrappers
  import opened Text
  import opened Json
  import opened OciDocs
  import opened Oci
  import opened FileTree
  import opened ToolPaths
  import opened OciRoundTrip
  import opened OciIntegrity
  import opened ToolboxLock
  import opened OciSettle
  import Shell

  // ---------------------------------------------------------------- Names that leave

  /** Something a tool asks for lies outside the staging directory. */
  predicate Leaves(staging: Path, a: Attempt) {
    exists op :: op in ToolOps(staging, a.platform, a.name, a.bytes) && !Inside(staging, op)
  }

  predicate AllInside(base: Path, walk: seq<Path>) {
    walk == [] || (base <= walk[0] && AllInside(base, walk[1..]))
  }

  lemma {:induction false} AllInsideAt(base: Path, walk: seq<Path>)
    ensures AllInside(base, walk) <==> forall i :: 0 <= i < |walk| ==> base <= walk[i]
  {
    if walk != [] {
      AllInsideAt(base, walk[1..]);
      assert forall i :: 0 < i < |walk| ==> walk[i] == walk[1..][i - 1];
    }
  }

  /** A walk from below a directory stays inside exactly when it never climbs above it. */
  lemma {:induction false} WalkInside(base: Path, from: Path, pieces: seq<string>)
    requires base != []
    ensures Below(|from|, pieces) <==> AllInside(base, Walk(base + from, pieces))
    decreases |pieces|
  {
    if pieces != [] {
      var next := Step(base + from, pieces[0]);
      assert Walk(base + from, pieces) == [next] + Walk(next, pieces[1..]);
      assert ([next] + Walk(next, pieces[1..]))[1..] == Walk(next, pieces[1..]);
      if pieces[0] == ".." && from == [] {
        assert base + from == base && !(base <= next);
      } else {
        StepInside(base, from, pieces[0]);
        hide Walk, Step;
        WalkInside(base, Step(from, pieces[0]), pieces[1..]);
      }
    }
  }

  lemma StepInside(base: Path, from: Path, piece: string)
    requires piece != ".." || from != []
    ensures Step(base + from, piece) == base + Step(from, piece)
    ensures |Step(from, piece)| == if piece == ".." then |from| - 1 else |from| + 1
  {
  }

  lemma {:induction false} EndIsLast(from: Path, pieces: seq<string>)
    requires pieces != []
    ensures End(from, pieces) == Walk(from, pieces)[|pieces| - 1]
        == Step(End(from, pieces[..|pieces| - 1]), pieces[|pieces| - 1])
    decreases |pieces|
  {
    if |pieces| > 1 {
      assert pieces[1..][..|pieces| - 2] == pieces[..|pieces| - 1][1..];
      EndIsLast(Step(from, pieces[0]), pieces[1..]);
    }
  }

  lemma {:induction false} BelowSnoc(depth: nat, pieces: seq<string>, last: string)
    requires last != ".."
    ensures Below(depth, pieces + [last]) <==> Below(depth, pieces)
    decreases |pieces|
  {
    var all := pieces + [last];
    if pieces == [] {
      assert all[1..] == [];
    } else {
      assert all[1..] == pieces[1..] + [last];
      if pieces[0] != ".." {
        BelowSnoc(depth + 1, pieces[1..], last);
      } else if depth > 0 {
        BelowSnoc(depth - 1, pieces[1..], last);
      }
    }
  }

  /** A name that passes the check has a last component, and it does not lead upwards. */
  lemma NamedParts(name: string)
    requires Shell.ToolName(name).Some?
    ensures Parts(name) != [] && Parts(name)[|Parts(name)| - 1] == Shell.ToolName(name).value
    ensures Parts(name)[|Parts(name)| - 1] != ".."
  {
    FileNameIsLast(name);
    hide Parts;
  }

  lemma FolderIsPlain(p: Platform)
    ensures Folder(p) != ".."
  {
    assert Folder(p)[0] == 'l';
  }

  lemma BelowFolder(folder: string, parts: seq<string>)
    requires folder != ".."
    ensures Below(1, [folder] + parts) <==> Below(2, parts)
  {
    assert ([folder] + parts)[1..] == parts;
  }

  /** The places of a name and its target, seen from the staging directory. */
  lemma RouteInside(staging: Path, folder: string, parts: seq<string>)
    requires staging != [] && folder != ".." && parts != [] && parts[|parts| - 1] != ".."
    ensures var route := [folder] + parts;
            && (Below(2, parts) <==> AllInside(staging, Walk(staging + ["toolbox"], Front(route))))
            && (Below(2, parts) ==> staging <= End(staging + ["toolbox"], route))
  {
    var route := [folder] + parts;
    var front := Front(route);
    assert route == front + [parts[|parts| - 1]];
    hide Walk, End, Below, AllInside;
    BelowFolder(folder, parts);
    BelowSnoc(1, front, parts[|parts| - 1]);
    WalkInside(staging, ["toolbox"], front);
    WalkInside(staging, ["toolbox"], route);
    EndIsLast(staging + ["toolbox"], route);
    AllInsideAt(staging, Walk(staging + ["toolbox"], route));
  }

  lemma OpsInside(staging: Path, places: seq<Path>, last: Op)
    ensures (exists op :: op in MakeAll(places) + [last] && !Inside(staging, op)) <==>
        !AllInside(staging, places) || !Inside(staging, last)
  {
    AllInsideAt(staging, places);
    hide AllInside;
    var ops := MakeAll(places) + [last];
    assert last == ops[|places|] && last in ops;
    if i :| 0 <= i < |places| && !(staging <= places[i]) {
      assert ops[i] == MakeDir(places[i]) && ops[i] in ops;
    }
    if op :| op in ops && !Inside(staging, op) {
      var i :| 0 <= i < |ops| && ops[i] == op;
    }
  }

  /** A relative name leaves exactly when its components climb above the staging directory, two levels up. */
  lemma LeavesExactly(staging: Path, a: Attempt)
    requires staging != [] && Shell.ToolName(a.name).Some? && !Absolute(a.name) && '\0' !in a.name
    ensures Leaves(staging, a) <==> !Below(2, Parts(a.name))
  {
    NamedParts(a.name);
    FolderIsPlain(a.platform);
    var folder := Folder(a.platform);
    hide Parts, Shell.ToolName, Folder, Walk, End, Below, Openable, AllInside;
    RouteInside(staging, folder, Parts(a.name));
    var ops := ToolOps(staging, a.platform, a.name, a.bytes);
    var places := Places(StagedBox(staging), [folder], a.name);
    OpsInside(staging, places, ops[|places|]);
    assert ops == MakeAll(places) + [ops[|places|]];
  }

  lemma {:induction false} BelowDeeper(depth: nat, pieces: seq<string>)
    requires Below(depth, pieces)
    ensures Below(depth + 1, pieces)
    decreases |pieces|
  {
    if pieces != [] { BelowDeeper(if pieces[0] == ".." then depth - 1 else depth + 1, pieces[1..]); }
  }

  /** A name that stays below the toolbox directory does not leave. */
  lemma BelowStays(staging: Path, a: Attempt)
    requires staging != [] && Shell.ToolName(a.name).Some? && StaysBelow(a.name)
    ensures !Leaves(staging, a)
  {
    if '\0' in a.name {
      var ops := ToolOps(staging, a.platform, a.name, a.bytes);
      var last := ops[1];
      BelowTarget(staging, a);
      assert ops == [Refuse, last];
    } else {
      BelowDeeper(1, Parts(a.name));
      LeavesExactly(staging, a);
    }
  }

  lemma BelowTarget(staging: Path, a: Attempt)
    requires Shell.ToolName(a.name).Some? && StaysBelow(a.name)
    ensures staging <= Target(StagedBox(staging), [Folder(a.platform)], a.name)
  {
    FolderIsPlain(a.platform);
    BelowBase(StagedBox(staging), Folder(a.platform), a.name);
    hide Target, Folder, StaysBelow, Shell.ToolName;
  }

  // ---------------------------------------------------------------- What a failure leaves

  /** Everything a run asks of the file system before it moves anything into the project. */
  function StagingOps(hash: string -> string, blobs: Blobs, home: Path, pid: nat, t: Tree,
      manifests: seq<Descriptor>): seq<Op> {
    var staging := Staging(home, pid);
    var u := UnpackManifests(hash, blobs, staging, FreshStaging(t, staging), manifests);
    AttemptOps(staging, Attempts(hash, blobs, staging, FreshStaging(t, staging), manifests))
    + if u.failed.None? then SettleOps(home, staging, u.tools) else []
  }

  lemma FreshOutside(t: Tree, staging: Path)
    ensures Outside(FreshStaging(t, staging), staging) == Outside(t, staging)
  {
    assert staging <= StagedBox(staging);
    var f := FreshStaging(t, staging);
    forall q | !(staging <= q) ensures At(f, q) == At(t, q) { OutsideAt(t, staging, q); }
    SameOutside(f, t, staging);
  }

  /** The run that reads its layout to the end and finds room for what it writes. */
  predicate GetsToMove(hash: string -> string, blobs: Blobs, home: Path, pid: nat, t: Tree,
      manifests: seq<Descriptor>) {
    var clean := FreshStaging(t, Staging(home, pid));
    && UnpackManifests(hash, blobs, Staging(home, pid), clean, manifests).failed.None?
    && Perform(clean, StagingOps(hash, blobs, home, pid, t, manifests)).ok
  }

  /**
   A run that fails before the move, wherever it does, leaves the project as it was exactly when each request
   it got through stays in the staging directory or changes nothing.
   */
  lemma FailureLeaves(hash: string -> string, marker: Option<string>, blobs: Blobs, index: Option<string>, home: Path,
      pid: nat, t: Tree)
    requires Listed(marker, index).Ok? && CanStage(t, home, pid)
    requires !GetsToMove(hash, blobs, home, pid, t, Listed(marker, index).value)
    ensures var o := UnpackOutcome(hash, marker, blobs, index, home, pid, t);
            var clean := FreshStaging(t, Staging(home, pid));
            var ops := StagingOps(hash, blobs, home, pid, t, Listed(marker, index).value);
            && o.result.Err? && o.tree == Outside(Perform(clean, ops).tree, Staging(home, pid))
            && (o.tree == Outside(t, Staging(home, pid))
                <==> forall op :: op in Met(clean, ops) ==>
                    Inside(Staging(home, pid), op) || Idle(clean, Met(clean, ops), op))
  {
    var manifests := Listed(marker, index).value;
    var staging := Staging(home, pid);
    var clean := FreshStaging(t, staging);
    var u := UnpackManifests(hash, blobs, staging, clean, manifests);
    var a := Attempts(hash, blobs, staging, clean, manifests);
    var ops := StagingOps(hash, blobs, home, pid, t, manifests);
    RunFollows(hash, blobs, staging, clean, manifests);
    PerformAppend(clean, AttemptOps(staging, a), if u.failed.None? then SettleOps(home, staging, u.tools) else []);
    PerformNone(u.tree);
    OutsideExact(clean, ops, staging);
    FreshOutside(t, staging);
    hide Listed, UnpackManifests, Attempts, FreshStaging, Staging, Perform, SettleOps, AttemptOps, Met, Idle, Outside,
        MoveIn, LockOps;
  }

  lemma {:induction false} StayingOps(staging: Path, a: seq<Attempt>)
    requires forall b :: b in a ==> !Leaves(staging, b)
    ensures forall op :: op in AttemptOps(staging, a) ==> Inside(staging, op)
  {
    if a != [] {
      var n := |a| - 1;
      assert a[n] in a;
      StayingOps(staging, a[..n]);
      hide ToolOps, Inside;
      assert forall op :: op in ToolOps(staging, a[n].platform, a[n].name, a[n].bytes) ==> Inside(staging, op);
    }
  }

  /** In particular it leaves the project alone when no name it met leaves the staging directory. */
  lemma StayingNames(hash: string -> string, marker: Option<string>, blobs: Blobs, index: Option<string>, home: Path,
      pid: nat, t: Tree)
    requires Listed(marker, index).Ok? && CanStage(t, home, pid)
    requires !GetsToMove(hash, blobs, home, pid, t, Listed(marker, index).value)
    requires var staging := Staging(home, pid);
             forall a :: a in Attempts(hash, blobs, staging, FreshStaging(t, staging), Listed(marker, index).value) ==>
                 !Leaves(staging, a)
    ensures UnpackOutcome(hash, marker, blobs, index, home, pid, t).tree == Outside(t, Staging(home, pid))
  {
    var manifests := Listed(marker, index).value;
    var staging := Staging(home, pid);
    var clean := FreshStaging(t, staging);
    var u := UnpackManifests(hash, blobs, staging, clean, manifests);
    var a := Attempts(hash, blobs, staging, clean, manifests);
    var ops := StagingOps(hash, blobs, home, pid, t, manifests);
    FailureLeaves(hash, marker, blobs, index, home, pid, t);
    StayingOps(staging, a);
    MetExact(clean, ops);
    hide Listed, UnpackManifests, Attempts, FreshStaging, Staging, Perform, AttemptOps, Idle, Outside, Leaves,
        UnpackOutcome;
    var met := Met(clean, ops);
    hide Met;
    forall i | 0 <= i < |met| ensures Inside(staging, met[i]) {
      assert met[i] == ops[i];
      if i >= |AttemptOps(staging, a)| {
        LastRequest(home, staging, u.tools);
        assert i < |ops| - 1;
        assert ops[i] == SettleOps(home, staging, u.tools)[i - |AttemptOps(staging, a)|];
      } else {
        assert ops[i] == AttemptOps(staging, a)[i];
      }
    }
  }

  lemma LastRequest(home: Path, staging: Path, tools: seq<LockedTool>)
    ensures |SettleOps(home, staging, tools)| == 2 && Inside(staging, SettleOps(home, staging, tools)[0])
  {
    hide LockBytes;
  }

  /**
   After the move only the project lock can fail, where a directory has its name; the toolbox has been
   replaced by then, and the error does not say so.
   */
  lemma LateFailure(hash: string -> string, marker: Option<string>, blobs: Blobs, index: Option<string>, home: Path,
      pid: nat, t: Tree)
    requires Listed(marker, index).Ok? && CanStage(t, home, pid)
    requires GetsToMove(hash, blobs, home, pid, t, Listed(marker, index).value)
    ensures var o := UnpackOutcome(hash, marker, blobs, index, home, pid, t);
            var staging := Staging(home, pid);
            var clean := FreshStaging(t, staging);
            var u := UnpackManifests(hash, blobs, staging, clean, Listed(marker, index).value);
            var w := Perform(clean, StagingOps(hash, blobs, home, pid, t, Listed(marker, index).value)).tree;
            && (o.result.Err? <==> u.lock.Some? && IsDir(w, ProjectLockPath(home)))
            && (o.result.Err? ==> forall q :: At(o.tree, q) == Installed(w, home, pid, None, q))
  {
    var manifests := Listed(marker, index).value;
    var staging := Staging(home, pid);
    var clean := FreshStaging(t, staging);
    var u := UnpackManifests(hash, blobs, staging, clean, manifests);
    RunFollows(hash, blobs, staging, clean, manifests);
    PerformAppend(clean, AttemptOps(staging, Attempts(hash, blobs, staging, clean, manifests)),
        SettleOps(home, staging, u.tools));
    SettledExact(u, home, pid);
    hide Listed, UnpackManifests, Attempts, FreshStaging, Staging, Perform, SettleOps, AttemptOps, Settled, EndOps,
        Installed;
  }

  // ---------------------------------------------------------------- A name that leaves

  lemma {:induction false} FilesStay(t: Tree, ops: seq<Op>, q: Path)
    requires IsFile(t, q) && forall op :: op in ops ==> !op.WriteFile?
    ensures IsFile(Perform(t, ops).tree, q) && Perform(t, ops).tree[q] == t[q]
  {
    if ops != [] {
      FilesStay(t, ops[..|ops| - 1], q);
      assert ops[|ops| - 1] in ops;
    }
  }

  lemma PlainParts(piece: string)
    requires '/' !in piece && piece != "" && piece != "."
    ensures Parts(piece) == [piece] && Openable(piece)
  {
    assert Shell.LastComponent(piece) == 0;
    assert piece[0..] == piece;
  }

  const INSTALLED: seq<string> := [".binport", "toolbox", "linux-amd64", "rg"]

  const INSTALLED_TEXT: string := ".binport" + "/" + ("toolbox" + "/" + ("linux-amd64" + "/" + "rg"))

  /** Three levels up from its folder is the project; from there the name leads to the installed tool. */
  const ESCAPING: string := ".." + "/" + (".." + "/" + (".." + "/" + INSTALLED_TEXT))

  lemma PrefixParts(piece: string, rest: string)
    requires '/' !in piece && piece != "" && piece != "."
    ensures Parts(piece + "/" + rest) == [piece] + Parts(rest) && Openable(piece + "/" + rest) == Openable(rest)
  {
    PlainParts(piece);
    PartsAppend(piece, rest);
  }

  lemma InstalledParts()
    ensures Parts(INSTALLED_TEXT) == INSTALLED && Openable(INSTALLED_TEXT)
  {
    hide Parts, Openable;
    PlainParts("rg");
    PrefixParts("linux-amd64", "rg");
    PrefixParts("toolbox", "linux-amd64" + "/" + "rg");
    PrefixParts(".binport", "toolbox" + "/" + ("linux-amd64" + "/" + "rg"));
  }

  lemma EscapingParts()
    ensures Parts(ESCAPING) == ["..", "..", ".."] + INSTALLED && Openable(ESCAPING) && !Absolute(ESCAPING) &&
        '\0' !in ESCAPING
  {
    hide Parts, Openable;
    InstalledParts();
    assert '\0' !in ESCAPING && ESCAPING[0] == '.';
    hide INSTALLED_TEXT;
    PrefixParts("..", INSTALLED_TEXT);
    PrefixParts("..", ".." + "/" + INSTALLED_TEXT);
    PrefixParts("..", ".." + "/" + (".." + "/" + INSTALLED_TEXT));
  }

  lemma EscapingName()
    ensures Shell.ToolName(ESCAPING) == Some("rg") && '\0' !in ESCAPING
  {
    hide ESCAPING, Parts, Openable, Shell.FileName;
    EscapingParts();
    FileNameIsLast(ESCAPING);
    assert Parts(ESCAPING)[|Parts(ESCAPING)| - 1] == "rg";
    assert Shell.SafeToolName("rg");
  }

  function InstalledTool(home: Path): Path {
    home + INSTALLED
  }

  /** A project with that tool installed. */
  predicate HasInstalled(t: Tree, home: Path) {
    && IsFile(t, InstalledTool(home))
    && forall k :: 0 <= k < 4 ==> IsDir(t, home + INSTALLED[..k])
  }

  lemma WalkUp(home: Path, pid: nat)
    ensures var staging := Staging(home, pid);
            var box := StagedBox(staging);
            && Walk(box, ["linux-amd64", "..", "..", ".."]) == [box + ["linux-amd64"], box, staging, home]
            && End(box, ["linux-amd64", "..", "..", ".."]) == home
  {
    var staging := Staging(home, pid);
    var box := StagedBox(staging);
    WalkCons(box, "linux-amd64", ["..", "..", ".."]);
    WalkCons(box + ["linux-amd64"], "..", ["..", ".."]);
    WalkCons(box, "..", [".."]);
    WalkCons(staging, "..", []);
    assert ["linux-amd64"] + ["..", "..", ".."] == ["linux-amd64", "..", "..", ".."];
    assert [".."] + ["..", ".."] == ["..", "..", ".."] && [".."] + [".."] == ["..", ".."] && [".."] + [] == [".."];
    assert Walk(home, []) == [] && End(home, []) == home;
    hide Walk, End;
  }

  /** Every directory of the escaping name, and the file at its end. */
  lemma EscapingPlaces(home: Path, pid: nat)
    ensures var box := StagedBox(Staging(home, pid));
            && Places(box, ["linux-amd64"], ESCAPING)
               == [box + ["linux-amd64"], box, Staging(home, pid), home] + Walk(home, INSTALLED[..3])
            && Target(box, ["linux-amd64"], ESCAPING) == InstalledTool(home)
  {
    var box := StagedBox(Staging(home, pid));
    var up := ["linux-amd64", "..", "..", ".."];
    hide Parts, Openable, ESCAPING, Walk, End, Absolute, Staging, StagedBox, InstalledTool;
    EscapingParts();
    EscapingRoute();
    WalkUp(home, pid);
    WalkAppend(box, up, INSTALLED);
    WalkAppend(box, up, INSTALLED[..3]);
    assert End(home, INSTALLED) == InstalledTool(home) by { InstalledEnd(home); }
  }

  lemma EscapingRoute()
    ensures var up := ["linux-amd64", "..", "..", ".."];
            && Route(["linux-amd64"], ESCAPING) == up + INSTALLED && Front(up + INSTALLED) == up + INSTALLED[..3]
  {
    EscapingParts();
    hide Parts, Openable, ESCAPING, Absolute;
    assert ["linux-amd64"] + (["..", "..", ".."] + INSTALLED) == ["linux-amd64", "..", "..", ".."] + INSTALLED;
  }

  lemma InstalledEnd(home: Path)
    ensures End(home, INSTALLED) == InstalledTool(home)
  {
    EndPlain(home, INSTALLED);
  }

  /** Once staged, the escaping name has replaced the installed tool. */
  lemma EscapingOverwrites(home: Path, pid: nat, bytes: string, t: Tree)
    requires HasInstalled(t, home)
    ensures var staging := Staging(home, pid);
            var w := Perform(FreshStaging(t, staging), ToolOps(staging, LinuxAmd64, ESCAPING, Some(bytes)));
            w.ok && At(w.tree, InstalledTool(home)) == Some(File(bytes))
  {
    var staging := Staging(home, pid);
    var clean := FreshStaging(t, staging);
    var places := Places(StagedBox(staging), ["linux-amd64"], ESCAPING);
    EscapingOps(home, pid, bytes);
    hide Places, Target, ESCAPING, ToolOps, FreshStaging, Staging, HasInstalled, InstalledTool, Perform;
    forall i | 0 <= i < |places| ensures !IsFile(clean, places[i]) && places[i] != InstalledTool(home) {
      EscapeDir(home, pid, t, places[i]);
    }
    EscapeFits(home, pid, t);
    MakesThenWrite(clean, places, InstalledTool(home), bytes);
  }

  lemma EscapingOps(home: Path, pid: nat, bytes: string)
    ensures ToolOps(Staging(home, pid), LinuxAmd64, ESCAPING, Some(bytes))
         == MakeAll(Places(StagedBox(Staging(home, pid)), ["linux-amd64"], ESCAPING)) +
             [WriteFile(InstalledTool(home), bytes)]
  {
    assert Folder(LinuxAmd64) == "linux-amd64";
    hide Places, Target, Parts, Openable, ESCAPING, Staging, StagedBox, InstalledTool, Folder, INSTALLED, Absolute;
    EscapingParts();
    EscapingPlaces(home, pid);
  }

  lemma EscapeDir(home: Path, pid: nat, t: Tree, q: Path)
    requires HasInstalled(t, home) && q in Places(StagedBox(Staging(home, pid)), ["linux-amd64"], ESCAPING)
    ensures !IsFile(FreshStaging(t, Staging(home, pid)), q) && q != InstalledTool(home)
  {
    EscapeFits(home, pid, t);
    EscapePlace(home, pid, q);
    hide FreshStaging, Staging, Places, ESCAPING, HasInstalled, INSTALLED;
  }

  /** Making some directories and then writing a file, when nothing is in the way. */
  lemma MakesThenWrite(t: Tree, places: seq<Path>, q: Path, bytes: string)
    requires !IsDir(t, q) && forall i :: 0 <= i < |places| ==> !IsFile(t, places[i]) && places[i] != q
    ensures var w := Perform(t, MakeAll(places) + [WriteFile(q, bytes)]);
            w.ok && At(w.tree, q) == Some(File(bytes))
  {
    var ops := MakeAll(places) + [WriteFile(q, bytes)];
    LastOfMakes(places, q, bytes);
    forall op | op in ops ensures Fits(t, ops, op) {
      if op.MakeDir? {
        var i :| 0 <= i < |places| && places[i] == op.path;
      }
    }
    PerformExact(t, ops);
    hide Perform, Consistent, LastWrite;
    assert At(Perform(t, ops).tree, q) == After(t, ops, q);
  }

  lemma DownPlaces(home: Path)
    ensures Walk(home, INSTALLED[..3]) == [home + INSTALLED[..1], home + INSTALLED[..2], home + INSTALLED[..3]]
  {
    var down := INSTALLED[..3];
    WalkPlain(home, down, 0);
    WalkPlain(home, down, 1);
    WalkPlain(home, down, 2);
    assert down[..1] == INSTALLED[..1] && down[..2] == INSTALLED[..2] && down[..3] == INSTALLED[..3];
    hide INSTALLED, Walk;
  }

  /** Each of those places is a directory of the project, or of the clean staging directory, or new. */
  lemma EscapePlace(home: Path, pid: nat, q: Path)
    requires q in Places(StagedBox(Staging(home, pid)), ["linux-amd64"], ESCAPING)
    ensures var box := StagedBox(Staging(home, pid));
            q == box + ["linux-amd64"] || q == box || q == Staging(home, pid) || exists k ::
              0 <= k < 4 && q == home + INSTALLED[..k]
  {
    EscapingPlaces(home, pid);
    DownPlaces(home);
    hide Places, ESCAPING, Staging, StagedBox, Walk;
    assert home == home + INSTALLED[..0];
  }

  lemma LastOfMakes(places: seq<Path>, q: Path, bytes: string)
    ensures forall p :: LastWrite(MakeAll(places) + [WriteFile(q, bytes)], p) == if p == q then Some(bytes) else None
  {
    var ops := MakeAll(places) + [WriteFile(q, bytes)];
    assert ops[..|ops| - 1] == MakeAll(places);
    forall p ensures LastWrite(MakeAll(places), p) == None { WritesMember(MakeAll(places), p); }
  }

  /** None of those places is a file, and none is the tool. */
  lemma EscapeFits(home: Path, pid: nat, t: Tree)
    requires HasInstalled(t, home)
    ensures var staging := Staging(home, pid);
            var box := StagedBox(staging);
            var clean := FreshStaging(t, staging);
            && At(clean, box + ["linux-amd64"]) == None && IsDir(clean, box) && IsDir(clean, staging) &&
                !IsDir(clean, InstalledTool(home))
            && InstalledTool(home) != box + ["linux-amd64"] && InstalledTool(home) != box &&
                InstalledTool(home) != staging
            && (forall k :: 0 <= k < 4 ==>
                IsDir(clean, home + INSTALLED[..k]) && InstalledTool(home) != home + INSTALLED[..k])
  {
    var staging := Staging(home, pid);
    PlacesApart(home, pid);
    OutsideAt(t, staging, InstalledTool(home));
    OutsideAt(t, staging, StagedBox(staging) + ["linux-amd64"]);
    assert DataDir(home) <= InstalledTool(home);
    ApartBelow(home, staging[|home|], ".binport", staging, InstalledTool(home));
    forall k | 0 <= k < 4 ensures IsDir(FreshStaging(t, staging), home + INSTALLED[..k]) &&
        InstalledTool(home) != home + INSTALLED[..k] {
      OutsideAt(t, staging, home + INSTALLED[..k]);
    }
  }

  /** A toolbox of the escaping tool and another one, packed for one platform. */
  predicate EscapingBox(hash: string -> string, box: Toolbox) {
    && |ToolsFor(box.tools, LinuxAmd64)| == 2 && ToolsFor(box.tools, LinuxArm64) == []
    && ToolsFor(box.tools, LinuxAmd64)[0].name == ESCAPING
    && Content(box, ToolsFor(box.tools, LinuxAmd64)[0]) != Content(box, ToolsFor(box.tools, LinuxAmd64)[1])
  }

  /** The packed layout with the second tool's blob gone. */
  predicate SecondGone(hash: string -> string, box: Toolbox, blobs: Blobs)
    requires |ToolsFor(box.tools, LinuxAmd64)| == 2
  {
    var tools := ToolsFor(box.tools, LinuxAmd64);
    && EndsHeld(hash, box, blobs, LinuxAmd64)
    && Holds(hash, blobs, [Content(box, tools[0])]) && hash(Content(box, tools[1])) !in blobs
  }

  /** A layer that cannot be read fails, and overwrites nothing. */
  lemma UnreadLayer(hash: string -> string, blobs: Blobs, staging: Path, p: Platform, layer: Descriptor, s: Staged,
      q: Path)
    requires s.failed.None? && ReadBlob(hash, blobs, layer).Err? && IsFile(s.tree, q)
    ensures var r := UnpackLayer(hash, blobs, staging, p, layer, s);
            r.failed.Some? && At(r.tree, q) == At(s.tree, q)
  {
    hide AnnotationOf, ReadBlob, NAME_KEY, VERSION_KEY, TOOL_TYPE, Shell.ToolName, Name, MakeOps, WriteOp, Perform,
        StagedBox, Folder, Do;
    var name := AnnotationOf(layer, NAME_KEY);
    if name.Some? {
      OnlyDirs(StagedBox(staging), Folder(p), name.value);
      FilesStay(s.tree, MakeOps(StagedBox(staging), [Folder(p)], name.value), q);
    }
  }

  lemma GoneLayer(hash: string -> string, blobs: Blobs, staging: Path, p: Platform, tool: LockedTool, bytes: string,
      s: Staged, q: Path)
    requires s.failed.None? && IsHash(hash(bytes)) && hash(bytes) !in blobs && IsFile(s.tree, q)
    ensures var r := UnpackLayer(hash, blobs, staging, p, Layer(hash, tool, bytes), s);
            r.failed.Some? && At(r.tree, q) == At(s.tree, q)
  {
    hide Layer, UnpackLayer, ReadBlob;
    GoneBlob(hash, blobs, tool, bytes);
    UnreadLayer(hash, blobs, staging, p, Layer(hash, tool, bytes), s, q);
  }

  lemma OnlyDirs(base: Path, folder: string, name: string)
    ensures forall op :: op in MakeOps(base, [folder], name) ==> !op.WriteFile?
  {
    hide Places;
  }

  lemma GoneBlob(hash: string -> string, blobs: Blobs, tool: LockedTool, bytes: string)
    requires IsHash(hash(bytes)) && hash(bytes) !in blobs
    ensures ReadBlob(hash, blobs, Layer(hash, tool, bytes)).Err?
  {
    DigestHashes(hash, bytes);
    hide Digest, DigestHash, TOOL_TYPE, NAME_KEY, VERSION_KEY;
  }

  /**
   So an unpack of a layout with a blob missing ends in an error and has replaced the project's own tool all
   the same, when the tool before it is called `../../../.binport/toolbox/linux-amd64/rg`.
   */
  lemma EscapingTool(hash: string -> string, box: Toolbox, blobs: Blobs, home: Path, pid: nat, t: Tree)
    requires ValidHash(hash) && TextBox(box) && Packs(hash, box) && EscapingBox(hash, box) &&
        SecondGone(hash, box, blobs)
    requires HasInstalled(t, home) && !IsFile(t, Staging(home, pid))
    ensures var o := UnpackOutcome(hash, Some(MARKER), blobs, Some(IndexBytes(IndexOf(hash, box))), home, pid, t);
            && o.result.Err?
            && At(o.tree, InstalledTool(home)) == Some(File(Content(box, ToolsFor(box.tools, LinuxAmd64)[0])))
  {
    hide MARKER, IndexBytes, ValidHash, TextBox, Packs, UnpackManifests, FreshStaging, EscapingBox, SecondGone,
        HasInstalled, IndexOf, Outside,
      Staging, Listed, Settled, ToolsFor, Content, Perform, Holds, EndsHeld;
    HomeIsThere(t, home);
    PackedManifests(hash, box);
    EscapingStaged(hash, box, blobs, home, pid, t);
    InstalledOutside(UnpackManifests(hash, blobs, Staging(home, pid), FreshStaging(t, Staging(home, pid)),
        IndexOf(hash, box).manifests).tree, home, pid);
  }

  lemma HomeIsThere(t: Tree, home: Path)
    requires HasInstalled(t, home)
    ensures IsDir(t, home)
  {
    assert IsDir(t, home + INSTALLED[..0]) && home + [] == home;
  }

  lemma InstalledOutside(t: Tree, home: Path, pid: nat)
    ensures At(Outside(t, Staging(home, pid)), InstalledTool(home)) == At(t, InstalledTool(home))
  {
    OutsideAt(t, Staging(home, pid), InstalledTool(home));
    PlacesApart(home, pid);
    assert DataDir(home) <= InstalledTool(home);
    ApartBelow(home, Staging(home, pid)[|home|], ".binport", Staging(home, pid), InstalledTool(home));
  }

  lemma EscapingStaged(hash: string -> string, box: Toolbox, blobs: Blobs, home: Path, pid: nat, t: Tree)
    requires ValidHash(hash) && TextBox(box) && Packs(hash, box) && EscapingBox(hash, box) &&
        SecondGone(hash, box, blobs)
    requires HasInstalled(t, home)
    ensures var staging := Staging(home, pid);
            var u := UnpackManifests(hash, blobs, staging, FreshStaging(t, staging), IndexOf(hash, box).manifests);
            u.failed.Some? && At(u.tree, InstalledTool(home))
                == Some(File(Content(box, ToolsFor(box.tools, LinuxAmd64)[0])))
  {
    var staging := Staging(home, pid);
    var s := Unstarted(FreshStaging(t, staging));
    var tools := ToolsFor(box.tools, LinuxAmd64);
    var d := DescriptorsFor(hash, box, LinuxAmd64)[0];
    assert IndexOf(hash, box).manifests == [] + [d];
    assert UnpackManifests(hash, blobs, staging, s.tree, []) == s;
    OpenExact(hash, box, blobs, LinuxAmd64, s);
    UnpackOne(hash, blobs, staging, s.tree, [], d);
    var from := s.(platforms := s.platforms + {Name(LinuxAmd64)}, lock := JoinedLock(box, s));
    EscapingLayers(hash, box, blobs, home, pid, t, from);
    hide FreshStaging, OpenManifest, ManifestFor, LayersOf, UnpackLayers, DescriptorsFor, ValidHash, TextBox, Packs,
        HasInstalled, UnpackManifests,
      SecondGone, EscapingBox, ToolsFor, Name, JoinedLock, IndexOf, Content;
    assert ManifestOf(hash, box, LinuxAmd64).layers == LayersOf(hash, box, ToolsFor(box.tools, LinuxAmd64)) by {}
  }

  lemma EscapingLayers(hash: string -> string, box: Toolbox, blobs: Blobs, home: Path, pid: nat, t: Tree, s: Staged)
    requires ValidHash(hash) && Packs(hash, box) && EscapingBox(hash, box) && SecondGone(hash, box, blobs) &&
        HasInstalled(t, home)
    requires s.failed.None? && s.identities == {} && s.tree == FreshStaging(t, Staging(home, pid))
    ensures var tools := ToolsFor(box.tools, LinuxAmd64);
            var u := UnpackLayers(hash, blobs, Staging(home, pid), LinuxAmd64, LayersOf(hash, box, tools), s);
            u.failed.Some? && At(u.tree, InstalledTool(home)) == Some(File(Content(box, tools[0])))
  {
    var staging := Staging(home, pid);
    var tools := ToolsFor(box.tools, LinuxAmd64);
    var layers := LayersOf(hash, box, tools);
    var first, second := Content(box, tools[0]), Content(box, tools[1]);
    assert IsHash(hash(first)) && IsHash(hash(second)) && [first][0] == first && hash(first) in blobs &&
        blobs[hash(first)] == first;
    assert layers[..1][..0] == [] && layers[..1] == [layers[0]];
    assert UnpackLayers(hash, blobs, staging, LinuxAmd64, [], s) == s;
    EscapingName();
    hide FreshStaging, ValidHash, HasInstalled, UnpackLayer, IsHash, Layer, Packs, SecondGone, ToolsFor, Content,
        ESCAPING, Shell.ToolName, Staging;
    UnpackLayersLast(hash, blobs, staging, LinuxAmd64, layers, s);
    UnpackLayersLast(hash, blobs, staging, LinuxAmd64, layers[..1], s);
    hide UnpackLayers;
    EscapingOverwrites(home, pid, first, t);
    UnpackLayerExact(hash, blobs, staging, LinuxAmd64, tools[0], first, s);
    var mid := UnpackLayer(hash, blobs, staging, LinuxAmd64, layers[0], s);
    GoneLayer(hash, blobs, staging, LinuxAmd64, tools[1], second, mid, InstalledTool(home));
  }
}
