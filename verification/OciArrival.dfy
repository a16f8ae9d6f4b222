/**
 When a packed toolbox unpacks into a project, and when what arrives there is what was packed. Both are
 decided by where the names lead: `rg/` cannot be written, `rg` and `rg/x` want one path as a file and as a
 directory, `rg` and `a/../rg` end in one file.
 */
module OciArrival {
  import opened Wrappers
  import opened Text
  import opened Json
  import opened OciDocs
  import opened Oci
  import opened FileTree
  import opened ToolPaths
  import opened OciRoundTrip
  import opened OciIntegrity
  import opened ToolboxLock
  import opened OciSettle
  import opened OciContainment
  import Shell

  // ---------------------------------------------------------------- Success

  /** What the tree has to offer: room for every request, and none at odds with another. */
  predicate Receives(t: Tree, home: Path, pid: nat, box: Toolbox) {
    var staging := Staging(home, pid);
    && CanStage(t, home, pid)
    && Consistent(FreshStaging(t, staging),
        BoxOps(staging, box) + EndOps(home, staging, Grouped(box), RestoredLock(box)))
  }

  /** The project lock travels when there is a tool to travel with. */
  function RestoredLock(box: Toolbox): Option<Json> {
    if Grouped(box) == [] then None else box.projectLock
  }

  /** The tree once a toolbox is staged, with its lock file. */
  function StagedTree(t: Tree, home: Path, pid: nat, box: Toolbox): Tree {
    var staging := Staging(home, pid);
    Perform(FreshStaging(t, staging), BoxOps(staging, box) + SettleOps(home, staging, Grouped(box))).tree
  }

  /** The tree that a received toolbox leaves behind. */
  ghost predicate IsInstalled(after: Tree, t: Tree, home: Path, pid: nat, box: Toolbox) {
    forall q :: At(after, q) == Installed(StagedTree(t, home, pid, box), home, pid, RestoredLock(box), q)
  }

  /**
   Pack, then unpack into any tree. It succeeds exactly when no name repeats within a platform and the tree
   receives the toolbox; then the lock file lists the packed tools, grouped by platform in order.
   */
  lemma PackedOutcome(hash: string -> string, box: Toolbox, blobs: Blobs, home: Path, pid: nat, t: Tree)
    requires ValidHash(hash) && TextBox(box) && Packs(hash, box) && Holds(hash, blobs, Written(hash, box))
    ensures var o := UnpackOutcome(hash, Some(MARKER), blobs, Some(IndexBytes(IndexOf(hash, box))), home, pid, t);
            && (o.result.Ok? <==> UniqueTools(box) && Receives(t, home, pid, box))
            && (o.result.Ok? ==>
                && o.result == Ok(Grouped(box)) && IsInstalled(o.tree, t, home, pid, box))
  {
    hide MARKER, IndexBytes, IndexOf, ValidHash, TextBox, Packs, Holds, Written, UniqueTools, UnpackManifests,
        FreshStaging, Staging, Listed, Settled,
      IsInstalled, Receives, Grouped, RestoredLock, AttemptOps;
    PackedManifests(hash, box);
    PackedStaged(hash, box, blobs, Staging(home, pid), FreshStaging(t, Staging(home, pid)));
    if CanStage(t, home, pid) {
      SettledBox(UnpackManifests(hash, blobs, Staging(home, pid), FreshStaging(t, Staging(home, pid)),
          IndexOf(hash, box).manifests), t, home, pid, box);
    } else {
      NotReceived(t, home, pid, box);
    }
  }

  lemma NotReceived(t: Tree, home: Path, pid: nat, box: Toolbox)
    requires !CanStage(t, home, pid)
    ensures !Receives(t, home, pid, box)
  {
  }

  lemma PackedStaged(hash: string -> string, box: Toolbox, blobs: Blobs, staging: Path, clean: Tree)
    requires ValidHash(hash) && TextBox(box) && Packs(hash, box) && Holds(hash, blobs, Written(hash, box))
    ensures var u := UnpackManifests(hash, blobs, staging, clean, IndexOf(hash, box).manifests);
            && (u.failed.None? <==> UniqueTools(box) && Perform(clean, BoxOps(staging, box)).ok)
            && (u.failed.None? ==>
                u.tools == Grouped(box) && u.lock == RestoredLock(box) &&
                    u.tree == Perform(clean, BoxOps(staging, box)).tree)
  {
    hide MARKER, IndexBytes, IndexOf, ValidHash, TextBox, Packs, Holds, Written, UniqueTools, UnpackManifests, Listed,
        Grouped, AttemptOps, Perform,
      Consistent;
    PackedManifests(hash, box);
    PackUnpack(hash, box, blobs, staging, clean);
    PerformExact(clean, BoxOps(staging, box));
  }

  /** Settling a staged toolbox is a matter of the requests that remain. */
  lemma SettledBox(u: Staged, t: Tree, home: Path, pid: nat, box: Toolbox)
    requires CanStage(t, home, pid)
    requires var w := Perform(FreshStaging(t, Staging(home, pid)), BoxOps(Staging(home, pid), box));
             && (u.failed.None? <==> UniqueTools(box) && w.ok)
             && (u.failed.None? ==> u.tools == Grouped(box) && u.lock == RestoredLock(box) && u.tree == w.tree)
    ensures var o := Settled(u, home, Staging(home, pid));
            && (u.failed.None? && o.result.Ok? <==> UniqueTools(box) && Receives(t, home, pid, box))
            && (u.failed.None? && o.result.Ok? ==>
                o.result == Ok(Grouped(box)) && IsInstalled(o.tree, t, home, pid, box))
  {
    hide UniqueTools, FreshStaging, Staging, Settled, Grouped, RestoredLock, AttemptOps, Perform, Consistent, SettleOps,
        LockOps, Installed, After;
    var staging := Staging(home, pid);
    var clean := FreshStaging(t, staging);
    var rest := EndOps(home, staging, Grouped(box), RestoredLock(box));
    PerformAppend(clean, BoxOps(staging, box), rest);
    PerformAppend(clean, BoxOps(staging, box), SettleOps(home, staging, Grouped(box)));
    PerformExact(clean, BoxOps(staging, box) + rest);
    SettledExact(u, home, pid);
  }

  // ---------------------------------------------------------------- Names that stay below

  /** Where a tool's file ends up in the toolbox directory, and the directories on the way. */
  function BoxGoal(a: Attempt): Path {
    Target([], [Folder(a.platform)], a.name)
  }

  function BoxPlaces(a: Attempt): seq<Path> {
    Places([], [Folder(a.platform)], a.name)
  }

  predicate KeepsBelow(a: Attempt) {
    a.bytes.Some? && Shell.ToolName(a.name).Some? && StaysBelow(a.name)
  }

  predicate AllBelow(a: seq<Attempt>) {
    forall b :: b in a ==> KeepsBelow(b)
  }

  /** Every name can be written, and no tool's file is where another, or its own path, needs a directory. */
  predicate Compatible(a: seq<Attempt>) {
    && (forall b :: b in a ==> Usable(b.name))
    && forall b, c :: b in a && c in a ==> BoxGoal(b) !in BoxPlaces(c)
  }

  /** Tools that end in one file have the same contents. */
  predicate Agreeing(a: seq<Attempt>) {
    forall b, c :: b in a && c in a && BoxGoal(b) == BoxGoal(c) ==> b.bytes == c.bytes
  }

  predicate Asks(staging: Path, a: Attempt, op: Op) {
    op in ToolOps(staging, a.platform, a.name, a.bytes)
  }

  lemma OpsSnoc(staging: Path, a: seq<Attempt>, op: Op)
    requires a != []
    ensures op in AttemptOps(staging, a) <==> op in AttemptOps(staging, a[..|a| - 1]) || Asks(staging, a[|a| - 1], op)
  {
    hide ToolOps;
    var n := |a| - 1;
    assert AttemptOps(staging, a) == AttemptOps(staging, a[..n]) +
        ToolOps(staging, a[n].platform, a[n].name, a[n].bytes);
    hide AttemptOps;
  }

  predicate SomeAsks(staging: Path, a: seq<Attempt>, op: Op) {
    exists b :: b in a && Asks(staging, b, op)
  }

  lemma AsksSnoc(staging: Path, a: seq<Attempt>, op: Op)
    requires a != []
    ensures SomeAsks(staging, a, op) <==> SomeAsks(staging, a[..|a| - 1], op) || Asks(staging, a[|a| - 1], op)
  {
    hide Asks;
    assert a == a[..|a| - 1] + [a[|a| - 1]];
  }

  lemma {:induction false} OpsOf(staging: Path, a: seq<Attempt>, op: Op)
    ensures op in AttemptOps(staging, a) <==> SomeAsks(staging, a, op)
  {
    if a != [] {
      OpsSnoc(staging, a, op);
      AsksSnoc(staging, a, op);
      hide AttemptOps, Asks, SomeAsks;
      OpsOf(staging, a[..|a| - 1], op);
    }
  }

  /** What one such tool asks for, in terms of the toolbox directory. */
  lemma BelowOps(staging: Path, a: Attempt)
    requires KeepsBelow(a)
    ensures Goal(staging, a) == StagedBox(staging) + BoxGoal(a) && BoxGoal(a) != []
    ensures forall q :: MakeDir(q) in ToolOps(staging, a.platform, a.name, a.bytes) ==>
      StagedBox(staging) <= q && q[|StagedBox(staging)|..] in BoxPlaces(a)
    ensures '\0' !in a.name ==>
      forall r :: r in BoxPlaces(a) ==> MakeDir(StagedBox(staging) + r) in ToolOps(staging, a.platform, a.name, a.bytes)
    ensures forall op :: op in ToolOps(staging, a.platform, a.name, a.bytes) && op.WriteFile? ==>
      op == WriteFile(Goal(staging, a), a.bytes.value)
    ensures Openable(a.name) ==>
        WriteFile(Goal(staging, a), a.bytes.value) in ToolOps(staging, a.platform, a.name, a.bytes)
    ensures Refuse in ToolOps(staging, a.platform, a.name, a.bytes) <==> !Usable(a.name)
  {
    var box, folder := StagedBox(staging), Folder(a.platform);
    BelowPlaces(staging, a);
    var places, rel := Places(box, [folder], a.name), BoxPlaces(a);
    hide Target, Parts, StaysBelow, Shell.ToolName, Folder, StagedBox, BoxGoal, BoxPlaces, Places, Openable;
    var make, last := MakeOps(box, [folder], a.name), WriteOp(box, [folder], a.name, a.bytes.value);
    var ops := make + [last];
    assert ToolOps(staging, a.platform, a.name, a.bytes) == ops && last in ops;
    if '\0' in a.name {
      assert make == [Refuse] && Refuse in ops;
    } else {
      assert make == MakeAll(places);
      MadePlaces(box, places, rel, last);
    }
  }

  lemma BelowPlaces(staging: Path, a: Attempt)
    requires KeepsBelow(a)
    ensures var box := StagedBox(staging);
            var places := Places(box, [Folder(a.platform)], a.name);
            && Goal(staging, a) == box + BoxGoal(a) && BoxGoal(a) != []
            && |places| == |BoxPlaces(a)| && forall i :: 0 <= i < |places| ==> places[i] == box + BoxPlaces(a)[i]
  {
    FolderIsPlain(a.platform);
    NamedParts(a.name);
    hide Parts, StaysBelow, Shell.ToolName, Folder;
    var route := [Folder(a.platform)] + Parts(a.name);
    BelowBase(StagedBox(staging), Folder(a.platform), a.name);
    EndIsLast([], route);
    hide Walk, End;
  }

  lemma MadePlaces(box: Path, places: seq<Path>, rel: seq<Path>, last: Op)
    requires |places| == |rel| && (forall i :: 0 <= i < |places| ==> places[i] == box + rel[i]) && !last.MakeDir?
    ensures forall q :: MakeDir(q) in MakeAll(places) + [last] ==> box <= q && q[|box|..] in rel
    ensures forall r :: r in rel ==> MakeDir(box + r) in MakeAll(places) + [last]
    ensures forall op :: op in MakeAll(places) + [last] && !op.MakeDir? ==> op == last
  {
    var make := MakeAll(places);
    var ops := make + [last];
    forall q | MakeDir(q) in ops ensures box <= q && q[|box|..] in rel {
      var i :| 0 <= i < |make| && make[i] == MakeDir(q);
      assert q == box + rel[i] && q[|box|..] == rel[i];
    }
    forall r | r in rel ensures MakeDir(box + r) in ops {
      var i :| 0 <= i < |rel| && rel[i] == r;
      assert ops[i] == MakeDir(places[i]);
    }
  }

  /** A tree with an empty toolbox directory in it. */
  predicate EmptyBelow(t: Tree, box: Path) {
    IsDir(t, box) && forall q :: q in t && box <= q ==> q == box
  }

  lemma AskedFits(staging: Path, a: seq<Attempt>, t: Tree, b: Attempt, op: Op)
    requires AllBelow(a) && Compatible(a) && EmptyBelow(t, StagedBox(staging)) && b in a && Asks(staging, b, op)
    ensures Fits(t, AttemptOps(staging, a), op)
  {
    var box := StagedBox(staging);
    var ops := AttemptOps(staging, a);
    assert KeepsBelow(b) && Usable(b.name);
    BelowOps(staging, b);
    hide ToolOps, AttemptOps, Goal, KeepsBelow, BoxGoal, BoxPlaces, LastWrite;
    match op {
      case MakeDir(q) =>
        WritesMember(ops, q);
        if Writes(ops, q) {
          var w :| w in ops && w.WriteFile? && w.path == q;
          OpsOf(staging, a, w);
          var c :| c in a && Asks(staging, c, w);
          assert KeepsBelow(c);
          BelowOps(staging, c);
          assert false;
        }
      case WriteFile(q, bytes) =>
        assert q == box + BoxGoal(b);
        assert q != box && box <= q;
      case Refuse =>
    }
  }

  lemma FitsNeeds(staging: Path, a: seq<Attempt>, t: Tree)
    requires AllBelow(a) && Consistent(t, AttemptOps(staging, a))
    ensures Compatible(a)
  {
    var ops := AttemptOps(staging, a);
    hide ToolOps, AttemptOps, Goal, KeepsBelow, BoxGoal, BoxPlaces, LastWrite, Usable;
    assert !Fits(t, ops, Refuse);
    OpsOf(staging, a, Refuse);
    forall b | b in a ensures Usable(b.name) {
      assert KeepsBelow(b);
      BelowOps(staging, b);
      assert !Asks(staging, b, Refuse);
    }
    forall b, c | b in a && c in a ensures BoxGoal(b) !in BoxPlaces(c) {
      GoalIsNoPlace(staging, a, t, b, c);
    }
  }

  lemma GoalIsNoPlace(staging: Path, a: seq<Attempt>, t: Tree, b: Attempt, c: Attempt)
    requires AllBelow(a) && Consistent(t, AttemptOps(staging, a)) && b in a && c in a && Usable(b.name) &&
        Usable(c.name)
    ensures BoxGoal(b) !in BoxPlaces(c)
  {
    var ops := AttemptOps(staging, a);
    assert KeepsBelow(b) && KeepsBelow(c);
    BelowOps(staging, b);
    BelowOps(staging, c);
    var q := Goal(staging, b);
    var write := WriteFile(q, b.bytes.value);
    assert Asks(staging, b, write);
    OpsOf(staging, a, write);
    OpsOf(staging, a, MakeDir(q));
    WritesMember(ops, q);
    hide ToolOps, AttemptOps, Goal, KeepsBelow, BoxGoal, BoxPlaces, LastWrite, Usable;
    assert write in ops && Writes(ops, q) && !Fits(t, ops, MakeDir(q));
    assert !Asks(staging, c, MakeDir(q));
  }

  /** Under names that stay below, whether the tree takes the tools is a matter of the names alone. */
  lemma BelowConsistent(staging: Path, a: seq<Attempt>, t: Tree)
    requires AllBelow(a) && EmptyBelow(t, StagedBox(staging))
    ensures Consistent(t, AttemptOps(staging, a)) <==> Compatible(a)
  {
    if Compatible(a) {
      forall op | op in AttemptOps(staging, a) ensures Fits(t, AttemptOps(staging, a), op) {
        OpsOf(staging, a, op);
        var b :| b in a && Asks(staging, b, op);
        AskedFits(staging, a, t, b, op);
        hide AttemptOps, Asks, AllBelow, Compatible, EmptyBelow, Fits;
      }
    }
    hide Compatible, AllBelow, AttemptOps, Fits, EmptyBelow;
    if Consistent(t, AttemptOps(staging, a)) { FitsNeeds(staging, a, t); }
  }

  // ---------------------------------------------------------------- The requests at the end

  predicate NoShared(a: seq<Op>, b: seq<Op>) {
    forall x, y :: x in a && y in b && !x.Refuse? && !y.Refuse? ==> x.path != y.path
  }

  lemma FitsAppend(t: Tree, a: seq<Op>, b: seq<Op>, op: Op)
    requires NoShared(a, b) && (op in a || op in b)
    ensures Fits(t, a + b, op) <==> Fits(t, if op in a then a else b, op)
  {
    if op.MakeDir? {
      LastWriteAppend(a, b, op.path);
      WritesMember(a, op.path);
      WritesMember(b, op.path);
    }
  }

  /** Two lists of requests that touch different paths are met together exactly when each is. */
  lemma ConsistentAppend(t: Tree, a: seq<Op>, b: seq<Op>)
    requires NoShared(a, b) && NoShared(b, a)
    ensures Consistent(t, a + b) <==> Consistent(t, a) && Consistent(t, b)
  {
    forall op | op in a || op in b
      ensures Fits(t, a + b, op) <==> Fits(t, if op in a then a else b, op)
      ensures op in b && op in a ==> op == Refuse
    {
      FitsAppend(t, a, b, op);
      hide NoShared, Fits;
    }
    hide Fits, NoShared;
    assert forall op :: op in a + b <==> op in a || op in b;
  }

  /** Every request of tools that stay below is below the staged toolbox directory. */
  lemma OpsBelow(staging: Path, a: seq<Attempt>)
    requires AllBelow(a)
    ensures forall op :: op in AttemptOps(staging, a) && !op.Refuse? ==> StagedBox(staging) <= op.path
  {
    forall op | op in AttemptOps(staging, a) && !op.Refuse? ensures StagedBox(staging) <= op.path {
      OpsOf(staging, a, op);
      var b :| b in a && Asks(staging, b, op);
      assert KeepsBelow(b);
      BelowOps(staging, b);
      hide KeepsBelow, AttemptOps, Goal, BoxGoal, BoxPlaces;
    }
  }

  lemma EndOpsApart(home: Path, pid: nat, tools: seq<LockedTool>, lock: Option<Json>)
    ensures forall op :: op in EndOps(home, Staging(home, pid), tools, lock) ==>
        !op.Refuse? && !(StagedBox(Staging(home, pid)) <= op.path)
  {
    PlacesApart(home, pid);
    var staging := Staging(home, pid);
    hide LockBytes, ProjectLockBytes;
    forall op | op in EndOps(home, staging, tools, lock) ensures !op.Refuse? && !(StagedBox(staging) <= op.path) {
      assert op in SettleOps(home, staging, tools) || op in LockOps(home, lock);
    }
  }

  /** What the project has to be like: nothing but directories where directories are wanted. */
  predicate ProjectReady(t: Tree, home: Path, pid: nat, lock: Option<Json>) {
    && CanStage(t, home, pid) && !IsFile(t, DataDir(home))
    && (lock.Some? ==> !IsDir(t, ProjectLockPath(home)))
  }

  lemma CleanTree(t: Tree, home: Path, pid: nat)
    ensures var clean := FreshStaging(t, Staging(home, pid));
            && EmptyBelow(clean, StagedBox(Staging(home, pid))) && At(clean, StagedLock(Staging(home, pid))) == None
            && At(clean, DataDir(home)) == At(t, DataDir(home)) &&
                At(clean, ProjectLockPath(home)) == At(t, ProjectLockPath(home))
  {
    var staging := Staging(home, pid);
    PlacesApart(home, pid);
    OutsideAt(t, staging, DataDir(home));
    OutsideAt(t, staging, ProjectLockPath(home));
    assert StagedLock(staging) != staging && StagedLock(staging) != StagedBox(staging);
    hide Staging;
  }

  lemma EndConsistent(t: Tree, home: Path, pid: nat, tools: seq<LockedTool>, lock: Option<Json>)
    requires CanStage(t, home, pid)
    ensures Consistent(FreshStaging(t, Staging(home, pid)), EndOps(home, Staging(home, pid), tools, lock)) <==>
        ProjectReady(t, home, pid, lock)
  {
    hide FreshStaging, Staging, LockBytes, ProjectLockBytes, EmptyBelow, StagedLock, DataDir, ProjectLockPath,
        StagedBox, EndOps;
    CleanTree(t, home, pid);
    PlacesApart(home, pid);
    EndFits(FreshStaging(t, Staging(home, pid)), home, Staging(home, pid), tools, lock);
  }

  /** The requests at the end do not meet each other. */
  lemma EndFits(clean: Tree, home: Path, staging: Path, tools: seq<LockedTool>, lock: Option<Json>)
    requires At(clean, StagedLock(staging)) == None
    requires DataDir(home) != StagedLock(staging) && DataDir(home) != ProjectLockPath(home)
    ensures Consistent(clean, EndOps(home, staging, tools, lock))
       <==> !IsFile(clean, DataDir(home)) && (lock.Some? ==> !IsDir(clean, ProjectLockPath(home)))
  {
    hide LockBytes, ProjectLockBytes, StagedLock, DataDir, ProjectLockPath;
    var ops := EndOps(home, staging, tools, lock);
    assert |ops| == if lock.Some? then 3 else 2;
    assert ops[0] == WriteFile(StagedLock(staging), LockBytes(tools)) && ops[1] == MakeDir(DataDir(home));
    assert lock.Some? ==> ops[2] == WriteFile(ProjectLockPath(home), ProjectLockBytes(lock.value));
    assert ops[1] in ops && (lock.Some? ==> ops[2] in ops);
    hide EndOps;
    WritesMember(ops, DataDir(home));
    hide LastWrite;
    forall op | op in ops ensures op == ops[0] || op == ops[1] || (lock.Some? && op == ops[2]) {
      var i :| 0 <= i < |ops| && ops[i] == op;
    }
    assert !Writes(ops, DataDir(home));
  }

  /**
   For names that stay below the toolbox directory the tree matters little: a toolbox is received exactly
   when its names are compatible and nothing is in the way of the directory and the lock files themselves.
   */
  lemma BelowReceives(t: Tree, home: Path, pid: nat, box: Toolbox)
    requires AllBelow(BoxAttempts(box))
    ensures Receives(t, home, pid, box) <==>
        Compatible(BoxAttempts(box)) && ProjectReady(t, home, pid, RestoredLock(box))
  {
    var staging := Staging(home, pid);
    if CanStage(t, home, pid) {
      var clean := FreshStaging(t, staging);
      var ops, rest := BoxOps(staging, box), EndOps(home, staging, Grouped(box), RestoredLock(box));
      EndConsistent(t, home, pid, Grouped(box), RestoredLock(box));
      CleanTree(t, home, pid);
      hide Grouped, FreshStaging, Staging, EndOps, RestoredLock, AllBelow, Compatible, ProjectReady, BoxAttempts,
          Consistent, EmptyBelow;
      BelowConsistent(staging, BoxAttempts(box), clean);
      OpsBelow(staging, BoxAttempts(box));
      EndOpsApart(home, pid, Grouped(box), RestoredLock(box));
      hide AttemptOps;
      assert NoShared(ops, rest) && NoShared(rest, ops);
      ConsistentAppend(clean, ops, rest);
    }
  }

  // ---------------------------------------------------------------- What arrives

  /** The last tool whose file ends up at a place in the toolbox directory. */
  function LastGoal(a: seq<Attempt>, r: Path): (b: Option<Attempt>)
    ensures b.Some? ==> b.value in a && BoxGoal(b.value) == r
    ensures b.None? ==> forall c :: c in a ==> BoxGoal(c) != r
  {
    if a == [] then None
    else if BoxGoal(a[|a| - 1]) == r then Some(a[|a| - 1])
    else LastGoal(a[..|a| - 1], r)
  }

  predicate OnTheWay(a: seq<Attempt>, r: Path) {
    exists b :: b in a && r in BoxPlaces(b)
  }

  /** What a toolbox puts at a place of the toolbox directory: a tool's file, a directory on the way, or nothing. */
  function InBox(a: seq<Attempt>, r: Path): Option<Node> {
    var last := LastGoal(a, r);
    if last.Some? then Some(File(last.value.bytes.GetOr("")))
    else if r == [] || OnTheWay(a, r) then Some(Dir)
    else None
  }

  lemma {:induction false} LastGoalIsLast(staging: Path, a: seq<Attempt>, r: Path)
    requires AllBelow(a)
    ensures LastTo(staging, a, StagedBox(staging) + r) == LastGoal(a, r)
  {
    if a != [] {
      var last := a[|a| - 1];
      assert last in a;
      assert KeepsBelow(last);
      BelowOps(staging, last);
      assert StagedBox(staging) + r == StagedBox(staging) + BoxGoal(last) <==> r == BoxGoal(last) by {
        assert (StagedBox(staging) + r)[|StagedBox(staging)|..] == r;
        assert (StagedBox(staging) + BoxGoal(last))[|StagedBox(staging)|..] == BoxGoal(last);
      }
      hide KeepsBelow, Goal, BoxGoal, ToolOps, BoxPlaces, StagedBox;
      LastGoalIsLast(staging, a[..|a| - 1], r);
    }
  }

  lemma AskedPlaces(staging: Path, a: seq<Attempt>, r: Path)
    requires AllBelow(a) && Compatible(a)
    ensures MakeDir(StagedBox(staging) + r) in AttemptOps(staging, a) <==> OnTheWay(a, r)
  {
    var q := StagedBox(staging) + r;
    OpsOf(staging, a, MakeDir(q));
    assert q[|StagedBox(staging)|..] == r;
    hide AttemptOps, KeepsBelow, BoxGoal, BoxPlaces, Goal, Usable, ToolOps;
    if SomeAsks(staging, a, MakeDir(q)) {
      var b :| b in a && Asks(staging, b, MakeDir(q));
      assert KeepsBelow(b);
      BelowOps(staging, b);
    }
    if OnTheWay(a, r) {
      var b :| b in a && r in BoxPlaces(b);
      assert KeepsBelow(b) && Usable(b.name);
      BelowOps(staging, b);
      UsableHasNoNul(b.name);
      assert Asks(staging, b, MakeDir(q));
    }
  }

  lemma UsableHasNoNul(name: string)
    requires Usable(name)
    ensures '\0' !in name && Openable(name)
  {
  }

  lemma NoRefusal(t: Tree, ops: seq<Op>)
    requires Consistent(t, ops)
    ensures Refuse !in ops
  {
    assert !Fits(t, ops, Refuse);
  }

  /** In an empty toolbox directory, met requests leave what the names say. */
  lemma AfterInBox(clean: Tree, staging: Path, a: seq<Attempt>, r: Path)
    requires AllBelow(a) && Compatible(a) && EmptyBelow(clean, StagedBox(staging)) && Refuse !in AttemptOps(staging, a)
    ensures After(clean, AttemptOps(staging, a), StagedBox(staging) + r) == InBox(a, r)
  {
    var q := StagedBox(staging) + r;
    assert q[|StagedBox(staging)|..] == r && (q == StagedBox(staging) <==> r == []);
    forall b | b in a ensures b.bytes.Some? { assert KeepsBelow(b); }
    LastGoalIsLast(staging, a, r);
    AskedPlaces(staging, a, r);
    LastToWrites(staging, a, q);
    hide AttemptOps, LastTo, LastWrite, LastGoal, OnTheWay, StagedBox, AllBelow, Compatible;
  }

  lemma AfterOthers(t: Tree, ops: seq<Op>, others: seq<Op>, q: Path)
    requires forall op :: op in others ==> !op.Refuse? && op.path != q
    ensures After(t, ops + others, q) == After(t, ops, q)
  {
    LastWriteAppend(ops, others, q);
    WritesMember(others, q);
    hide LastWrite;
    assert MakeDir(q) in ops + others <==> MakeDir(q) in ops;
  }

  /** The tree once a received toolbox is staged. */
  lemma StagedAfter(t: Tree, home: Path, pid: nat, box: Toolbox)
    requires Receives(t, home, pid, box)
    ensures var clean := FreshStaging(t, Staging(home, pid));
            var ops := BoxOps(Staging(home, pid), box) + SettleOps(home, Staging(home, pid), Grouped(box));
            && Refuse !in ops && Consistent(clean, ops) &&
                forall q :: At(StagedTree(t, home, pid, box), q) == After(clean, ops, q)
  {
    var staging := Staging(home, pid);
    var clean := FreshStaging(t, staging);
    hide Grouped, FreshStaging, Staging, SettleOps, RestoredLock, Perform, BoxOps, Consistent, LockOps;
    SettleFirst(clean, BoxOps(staging, box), SettleOps(home, staging, Grouped(box)), LockOps(home, RestoredLock(box)));
    NoRefusal(clean, BoxOps(staging, box) + SettleOps(home, staging, Grouped(box)));
  }

  /** The staged toolbox directory holds what the names say and nothing else. */
  lemma StagedInBox(t: Tree, home: Path, pid: nat, box: Toolbox, r: Path)
    requires AllBelow(BoxAttempts(box)) && Receives(t, home, pid, box)
    ensures At(StagedTree(t, home, pid, box), StagedBox(Staging(home, pid)) + r) == InBox(BoxAttempts(box), r)
  {
    var staging := Staging(home, pid);
    var q := StagedBox(staging) + r;
    var clean := FreshStaging(t, staging);
    var settle := SettleOps(home, staging, Grouped(box));
    BelowReceives(t, home, pid, box);
    CleanTree(t, home, pid);
    StagedAfter(t, home, pid, box);
    EndOpsApart(home, pid, Grouped(box), RestoredLock(box));
    hide Grouped, FreshStaging, Staging, SettleOps, RestoredLock, StagedTree, Receives, EmptyBelow, AllBelow,
        Compatible, AttemptOps, After, StagedBox,
      BoxAttempts, InBox, LockOps;
    assert forall op :: op in settle ==> op in EndOps(home, staging, Grouped(box), RestoredLock(box));
    hide EndOps;
    AfterOthers(clean, BoxOps(staging, box), settle, q);
    assert forall op :: op in BoxOps(staging, box) ==> op in BoxOps(staging, box) + settle;
    AfterInBox(clean, staging, BoxAttempts(box), r);
  }

  /** Requests that go through together with others go through before them. */
  lemma SettleFirst(t: Tree, ops: seq<Op>, settle: seq<Op>, rest: seq<Op>)
    requires Consistent(t, ops + (settle + rest))
    ensures Consistent(t, ops + settle) && forall q :: At(Perform(t, ops + settle).tree, q) == After(t, ops + settle, q)
  {
    assert ops + (settle + rest) == (ops + settle) + rest;
    PerformExact(t, (ops + settle) + rest);
    PerformAppend(t, ops + settle, rest);
    PerformExact(t, ops + settle);
    hide Perform, Consistent, After;
  }

  lemma InstalledBelow(w: Tree, home: Path, pid: nat, lock: Option<Json>, r: Path)
    ensures Installed(w, home, pid, lock, InstalledBox(home) + r) == At(w, StagedBox(Staging(home, pid)) + r)
  {
    var q := InstalledBox(home) + r;
    PlacesApart(home, pid);
    assert InstalledBox(home) <= q && q[|InstalledBox(home)|..] == r && DataDir(home) <= q;
    ApartBelow(home, Staging(home, pid)[|home|], ".binport", Staging(home, pid), q);
    ApartBelow(home, ".binport", "Binport.lock", q, ProjectLockPath(home));
    hide Staging, InstalledBox, ProjectLockPath, StagedBox;
  }

  /**
     The toolbox directory of the project: each tool's file at its place, the directories on the way, and
     nothing else.
   */
  lemma BoxArrives(after: Tree, t: Tree, home: Path, pid: nat, box: Toolbox, r: Path)
    requires AllBelow(BoxAttempts(box)) && Receives(t, home, pid, box) && IsInstalled(after, t, home, pid, box)
    ensures At(after, InstalledBox(home) + r) == InBox(BoxAttempts(box), r)
  {
    hide StagedTree, RestoredLock, InBox, Receives, AllBelow, BoxAttempts, Staging, InstalledBox, StagedBox, Installed;
    StagedInBox(t, home, pid, box, r);
    InstalledBelow(StagedTree(t, home, pid, box), home, pid, RestoredLock(box), r);
  }

  lemma SettledAfter(t: Tree, ops: seq<Op>, home: Path, staging: Path, tools: seq<LockedTool>, p: Path)
    requires !(StagedBox(staging) <= p)
    requires forall op :: op in ops && !op.Refuse? ==> StagedBox(staging) <= op.path
    ensures After(t, ops + SettleOps(home, staging, tools), p)
         == if p == StagedLock(staging) then Some(File(LockBytes(tools))) else if p == DataDir(home) then Some(Dir)
             else At(t, p)
  {
    var settle := SettleOps(home, staging, tools);
    LastWriteAppend(ops, settle, p);
    WritesMember(ops, p);
    assert settle[..1] == [settle[0]] && [settle[0]][..0] == [];
    assert LastWrite(settle[..1], p) == if p == StagedLock(staging) then Some(LockBytes(tools)) else None;
    assert LastWrite(settle, p) == LastWrite(settle[..1], p);
    hide LockBytes, StagedLock, DataDir, StagedBox, LastWrite;
    assert MakeDir(p) in ops + settle <==> MakeDir(p) in ops || p == DataDir(home);
  }

  /** Outside the staged toolbox directory, staging leaves the lock file, the data directory and what was there. */
  lemma StagedElsewhere(t: Tree, home: Path, pid: nat, box: Toolbox, p: Path)
    requires AllBelow(BoxAttempts(box)) && Receives(t, home, pid, box) && !(StagedBox(Staging(home, pid)) <= p)
    ensures At(StagedTree(t, home, pid, box), p)
         == if p == StagedLock(Staging(home, pid)) then Some(File(LockBytes(Grouped(box))))
             else if p == DataDir(home) then Some(Dir)
            else At(FreshStaging(t, Staging(home, pid)), p)
  {
    hide AttemptOps, After, FreshStaging, Staging, SettleOps, Grouped, BoxAttempts, LockBytes, StagedTree, AllBelow,
        Receives, StagedBox;
    OpsBelow(Staging(home, pid), BoxAttempts(box));
    StagedAfter(t, home, pid, box);
    SettledAfter(FreshStaging(t, Staging(home, pid)), BoxOps(Staging(home, pid), box), home, Staging(home, pid),
        Grouped(box), p);
  }

  /** Whatever the names, the lock file is the one unpacking wrote, and its directory is there. */
  lemma StagedLocks(t: Tree, home: Path, pid: nat, box: Toolbox)
    requires Receives(t, home, pid, box)
    ensures At(StagedTree(t, home, pid, box), StagedLock(Staging(home, pid))) == Some(File(LockBytes(Grouped(box))))
    ensures At(StagedTree(t, home, pid, box), DataDir(home)) == Some(Dir)
  {
    var staging := Staging(home, pid);
    var clean := FreshStaging(t, staging);
    var ops, settle := BoxOps(staging, box), SettleOps(home, staging, Grouped(box));
    hide FreshStaging, Staging, AttemptOps, Grouped, LockBytes, StagedTree, Receives, StagedLock, DataDir, BoxAttempts;
    StagedAfter(t, home, pid, box);
    LastWriteAppend(ops, settle, StagedLock(staging));
    assert settle[..1] == [settle[0]] && settle[1] == MakeDir(DataDir(home)) && settle[1] in ops + settle;
    assert LastWrite(settle[..1], StagedLock(staging)) == Some(LockBytes(Grouped(box)));
    assert LastWrite(settle, StagedLock(staging)) == LastWrite(settle[..1], StagedLock(staging));
    assert Fits(clean, ops + settle, MakeDir(DataDir(home)));
  }

  lemma LockArrives(after: Tree, t: Tree, home: Path, pid: nat, box: Toolbox)
    requires Receives(t, home, pid, box) && IsInstalled(after, t, home, pid, box)
    ensures IsDir(after, DataDir(home)) && At(after, LockPath(home)) == Some(File(LockBytes(Grouped(box))))
    ensures RestoredLock(box).Some? ==>
        At(after, ProjectLockPath(home)) == Some(File(ProjectLockBytes(RestoredLock(box).value)))
  {
    var w := StagedTree(t, home, pid, box);
    hide StagedTree, RestoredLock, Receives, Grouped, LockBytes, Staging, ProjectLockBytes, Installed, StagedLock,
        DataDir, LockPath, ProjectLockPath;
    StagedLocks(t, home, pid, box);
    InstalledLocks(w, home, pid, RestoredLock(box));
    assert At(after, LockPath(home)) == Installed(w, home, pid, RestoredLock(box), LockPath(home));
    assert At(after, DataDir(home)) == Installed(w, home, pid, RestoredLock(box), DataDir(home));
    assert At(after, ProjectLockPath(home)) == Installed(w, home, pid, RestoredLock(box), ProjectLockPath(home));
  }

  lemma InstalledLocks(w: Tree, home: Path, pid: nat, lock: Option<Json>)
    ensures Installed(w, home, pid, lock, LockPath(home)) == At(w, StagedLock(Staging(home, pid)))
    ensures Installed(w, home, pid, lock, DataDir(home)) == At(w, DataDir(home))
    ensures lock.Some? ==>
      Installed(w, home, pid, lock, ProjectLockPath(home)) == Some(File(ProjectLockBytes(lock.value)))
  {
    var lockFile := StagedLock(Staging(home, pid));
    PlacesApart(home, pid);
    ApartBelow(home, Staging(home, pid)[|home|], ".binport", Staging(home, pid), LockPath(home));
    assert LockPath(home)[|LockPath(home)|..] == [] && lockFile + [] == lockFile;
    assert !(InstalledBox(home) <= DataDir(home)) && !(LockPath(home) <= DataDir(home)) &&
        DataDir(home) != ProjectLockPath(home);
    hide Staging, StagedLock, ProjectLockBytes;
  }

  lemma CleanOutside(t: Tree, staging: Path, q: Path)
    ensures !(staging <= q) ==> At(FreshStaging(t, staging), q) == At(t, q)
  {
    OutsideAt(t, staging, q);
    assert staging <= StagedBox(staging);
  }

  /** The paths an unpack may change: its staging directory, the toolbox, its lock file and the project lock. */
  predicate MayChange(home: Path, pid: nat, lock: Option<Json>, q: Path) {
    || Staging(home, pid) <= q || InstalledBox(home) <= q || LockPath(home) <= q || q == DataDir(home)
    || (lock.Some? && q == ProjectLockPath(home))
  }

  /** Everything else is as it was, on the whole machine. */
  lemma RestUntouched(after: Tree, t: Tree, home: Path, pid: nat, box: Toolbox, q: Path)
    requires AllBelow(BoxAttempts(box)) && Receives(t, home, pid, box) && IsInstalled(after, t, home, pid, box)
    requires !MayChange(home, pid, RestoredLock(box), q)
    ensures At(after, q) == At(t, q)
  {
    PlacesApart(home, pid);
    hide StagedTree, RestoredLock, Receives, AllBelow, BoxAttempts, Grouped, LockBytes, FreshStaging, Staging;
    StagedElsewhere(t, home, pid, box, q);
    CleanOutside(t, Staging(home, pid), q);
    assert At(after, q) == Installed(StagedTree(t, home, pid, box), home, pid, RestoredLock(box), q);
  }

  // ---------------------------------------------------------------- Reading the tools back

  lemma FolderText(p: Platform)
    ensures '/' !in Folder(p) && '\0' !in Folder(p) && Folder(p) != "" && Folder(p) != "." && Folder(p) != ".."
  {
    assert Folder(p)[0] == 'l';
  }

  lemma ToolboxText(folder: string)
    ensures TOOLBOX + folder == ".binport" + "/" + ("toolbox" + "/" + folder)
  {
    assert TOOLBOX == ".binport" + "/" + ("toolbox" + "/");
  }

  lemma NulIn(p: Platform, name: string)
    requires !Absolute(name)
    ensures '\0' in ToolPath(p, name) <==> '\0' in name
    ensures !Absolute(ToolPath(p, name))
  {
    FolderText(p);
    var front := TOOLBOX + Folder(p) + "/";
    assert '\0' !in TOOLBOX && TOOLBOX[0] == '.';
    hide Folder, TOOLBOX;
    assert ToolPath(p, name) == front + name && front[0] == TOOLBOX[0];
  }

  lemma PathParts(p: Platform, name: string)
    requires !Absolute(name)
    ensures var text := ToolPath(p, name);
            Parts(text) == [".binport", "toolbox", Folder(p)] + Parts(name) && Openable(text) == Openable(name)
  {
    FolderText(p);
    ToolboxText(Folder(p));
    hide Parts, Openable, Folder, TOOLBOX;
    PlainParts(Folder(p));
    PrefixParts("toolbox", Folder(p));
    PrefixParts(".binport", "toolbox" + "/" + Folder(p));
    PartsAppend(TOOLBOX + Folder(p), name);
  }

  lemma WalkIn(home: Path)
    ensures Walk(home, [".binport", "toolbox"]) == [DataDir(home), InstalledBox(home)]
    ensures End(home, [".binport", "toolbox"]) == InstalledBox(home)
  {
    var down := [".binport", "toolbox"];
    EndPlain(home, down);
    WalkPlain(home, down, 0);
    WalkPlain(home, down, 1);
    assert down[..1] == [".binport"] && down[..2] == down;
    hide Walk, End;
  }

  /** From the project, the recorded path goes through the toolbox directory and on as the tool was staged. */
  lemma RecordedRoute(home: Path, p: Platform, name: string)
    requires !Absolute(name) && Parts(name) != []
    ensures var text := ToolPath(p, name);
            && Target(home, [], text) == Target(InstalledBox(home), [Folder(p)], name)
            && Places(home, [], text) == [DataDir(home), InstalledBox(home)] +
                Places(InstalledBox(home), [Folder(p)], name)
  {
    hide Parts, ToolPath, Openable, Folder, Walk, End, DataDir, InstalledBox, Absolute, Target, Places;
    var text := ToolPath(p, name);
    var down, route := [".binport", "toolbox"], [Folder(p)] + Parts(name);
    PathParts(p, name);
    NulIn(p, name);
    WalkIn(home);
    assert Parts(text) == down + route;
    RouteDown(home, text, down, route);
    RouteHere(InstalledBox(home), Folder(p), name);
  }

  lemma RouteHere(base: Path, folder: string, name: string)
    requires !Absolute(name)
    ensures Target(base, [folder], name) == End(base, [folder] + Parts(name))
    ensures Places(base, [folder], name) == Walk(base, Front([folder] + Parts(name)))
  {
  }

  lemma RouteDown(home: Path, text: string, down: seq<string>, route: seq<string>)
    requires !Absolute(text) && Parts(text) == down + route && route != []
    ensures Target(home, [], text) == End(End(home, down), route)
    ensures Places(home, [], text) == Walk(home, down) + Walk(End(home, down), Front(route))
  {
    hide Parts, Absolute;
    assert [] + (down + route) == down + route && Front(down + route) == down + Front(route);
    hide Walk, End;
    WalkAppend(home, down, route);
    WalkAppend(home, down, Front(route));
  }

  /** It leads to the tool's place in the toolbox directory, by way of its directories. */
  lemma RecordedPath(home: Path, a: Attempt)
    requires KeepsBelow(a)
    ensures var text := ToolPath(a.platform, a.name);
            && Target(home, [], text) == InstalledBox(home) + BoxGoal(a)
            && forall q :: q in Places(home, [], text) ==>
                 q == DataDir(home) || q == InstalledBox(home) || exists r ::
                   r in BoxPlaces(a) && q == InstalledBox(home) + r
  {
    NamedParts(a.name);
    RecordedRoute(home, a.platform, a.name);
    FolderText(a.platform);
    BelowBase(InstalledBox(home), Folder(a.platform), a.name);
    var places := Places(InstalledBox(home), [Folder(a.platform)], a.name);
    hide Parts, Places, Target, InstalledBox, DataDir, Folder, ToolPath;
    forall q | q in places ensures exists r :: r in BoxPlaces(a) && q == InstalledBox(home) + r {
      var i :| 0 <= i < |places| && places[i] == q;
      assert BoxPlaces(a)[i] in BoxPlaces(a);
    }
  }

  /** A tool is read back at its recorded path as the last tool that leads to the same place. */
  lemma ToolRead(after: Tree, t: Tree, home: Path, pid: nat, box: Toolbox, a: Attempt)
    requires AllBelow(BoxAttempts(box)) && Receives(t, home, pid, box) && IsInstalled(after, t, home, pid, box)
    requires a in BoxAttempts(box)
    ensures ReadAt(after, home, ToolPath(a.platform, a.name)) == LastGoal(BoxAttempts(box), BoxGoal(a)).value.bytes
  {
    var text := ToolPath(a.platform, a.name);
    var all := BoxAttempts(box);
    hide Parts, Places, Target, Folder, ToolPath, Openable, LastGoal, Receives, BoxAttempts, IsInstalled, BoxGoal,
        BoxPlaces, KeepsBelow, Absolute,
      InstalledBox, DataDir, ProjectReady;
    BelowReceives(t, home, pid, box);
    assert KeepsBelow(a) && Usable(a.name);
    KeptName(a);
    var last := LastGoal(all, BoxGoal(a)).value;
    assert KeepsBelow(last);
    KeptName(last);
    RecordedPath(home, a);
    PathParts(a.platform, a.name);
    NulIn(a.platform, a.name);
    UsableHasNoNul(a.name);
    hide Usable;
    BoxArrives(after, t, home, pid, box, BoxGoal(a));
    assert At(after, Target(home, [], text)) == Some(File(last.bytes.value));
    forall q | q in Places(home, [], text) ensures IsDir(after, q) {
      PlaceArrives(after, t, home, pid, box, a, q);
    }
  }

  lemma KeptName(a: Attempt)
    requires KeepsBelow(a)
    ensures a.bytes.Some? && !Absolute(a.name) && Shell.ToolName(a.name).Some?
  {
    hide Shell.ToolName, Below;
  }

  lemma PlaceArrives(after: Tree, t: Tree, home: Path, pid: nat, box: Toolbox, a: Attempt, q: Path)
    requires AllBelow(BoxAttempts(box)) && Receives(t, home, pid, box) && IsInstalled(after, t, home, pid, box)
    requires a in BoxAttempts(box)
    requires q == DataDir(home) || q == InstalledBox(home) || exists r ::
      r in BoxPlaces(a) && q == InstalledBox(home) + r
    ensures IsDir(after, q)
  {
    hide Receives, AllBelow, Compatible, BoxAttempts, IsInstalled, DataDir, BoxPlaces, InBox, InstalledBox,
        ProjectReady, RestoredLock, Grouped, LockBytes,
      ProjectLockBytes, LockPath, ProjectLockPath;
    LockArrives(after, t, home, pid, box);
    BelowReceives(t, home, pid, box);
    if q != DataDir(home) {
      var r := InnerPlace(home, a, q);
      BoxArrives(after, t, home, pid, box, r);
      NoToolThere(BoxAttempts(box), a, r);
    }
  }

  lemma InnerPlace(home: Path, a: Attempt, q: Path) returns (r: Path)
    requires q == InstalledBox(home) || exists r :: r in BoxPlaces(a) && q == InstalledBox(home) + r
    ensures (r == [] || r in BoxPlaces(a)) && q == InstalledBox(home) + r
  {
    hide BoxPlaces, InstalledBox;
    if q == InstalledBox(home) {
      r := [];
      assert InstalledBox(home) + [] == InstalledBox(home);
    } else {
      r :| r in BoxPlaces(a) && q == InstalledBox(home) + r;
    }
  }

  lemma NoToolThere(all: seq<Attempt>, a: Attempt, r: Path)
    requires AllBelow(all) && Compatible(all) && a in all && (r == [] || r in BoxPlaces(a))
    ensures InBox(all, r) == Some(Dir)
  {
    hide BoxGoal, BoxPlaces;
    var last := LastGoal(all, r);
    if last.Some? {
      assert KeepsBelow(last.value);
      BelowOps([], last.value);
      assert false;
    }
  }

  /** Every packed tool is read back at its recorded path, with its contents and under its hash. */
  ghost predicate Arrived(hash: string -> string, box: Toolbox, home: Path, tree: Tree) {
    forall p: Platform, t: LockedTool :: t in ToolsFor(box.tools, p) ==>
      && t.path in box.files && hash(box.files[t.path]) == t.sha256
      && ReadAt(tree, home, ToolPath(p, t.name)) == Some(box.files[t.path])
  }

  lemma AttemptOfTool(box: Toolbox, p: Platform, t: LockedTool)
    requires t in ToolsFor(box.tools, p)
    ensures Attempt(p, t.name, Some(Content(box, t))) in BoxAttempts(box)
  {
    var tools := ToolsFor(box.tools, p);
    var i :| 0 <= i < |tools| && tools[i] == t;
    hide ToolsFor, Content;
    assert ToolsAttempts(box, p, tools)[i] in ToolsAttempts(box, p, tools);
  }

  lemma ToolOfAttempt(box: Toolbox, a: Attempt) returns (t: LockedTool)
    requires a in BoxAttempts(box)
    ensures t in ToolsFor(box.tools, a.platform) && a == Attempt(a.platform, t.name, Some(Content(box, t)))
  {
    var p := if a in ToolsAttempts(box, LinuxAmd64, ToolsFor(box.tools, LinuxAmd64)) then LinuxAmd64 else LinuxArm64;
    var tools := ToolsFor(box.tools, p);
    hide ToolsFor, Content;
    var i :| 0 <= i < |tools| && ToolsAttempts(box, p, tools)[i] == a;
    t := tools[i];
  }

  /** A toolbox whose names stay below has arrived exactly when tools that end in one file have the same contents. */
  lemma ArrivedExact(hash: string -> string, after: Tree, t: Tree, home: Path, pid: nat, box: Toolbox)
    requires Packs(hash, box) && AllBelow(BoxAttempts(box)) && Receives(t, home, pid, box) &&
        IsInstalled(after, t, home, pid, box)
    ensures Arrived(hash, box, home, after) <==> Agreeing(BoxAttempts(box))
  {
    var all := BoxAttempts(box);
    forall a | a in all
      ensures ReadAt(after, home, ToolPath(a.platform, a.name)) == LastGoal(all, BoxGoal(a)).value.bytes
    {
      ToolRead(after, t, home, pid, box, a);
    }
    hide BoxAttempts, AllBelow, Receives, IsInstalled, ReadAt, ToolPath, BoxGoal, Packs, ToolsFor, Content;
    if Agreeing(all) {
      forall p: Platform, tool: LockedTool | tool in ToolsFor(box.tools, p)
        ensures tool.path in box.files && hash(box.files[tool.path]) == tool.sha256
        ensures ReadAt(after, home, ToolPath(p, tool.name)) == Some(box.files[tool.path])
      {
        AttemptOfTool(box, p, tool);
        PackedTool(hash, box, p, tool);
        hide LastGoal;
        assert ReadAt(after, home, ToolPath(p, tool.name))
            == LastGoal(all, BoxGoal(Attempt(p, tool.name, Some(Content(box, tool))))).value.bytes;
      }
    }
    if Arrived(hash, box, home, after) {
      forall b, c | b in all && c in all && BoxGoal(b) == BoxGoal(c) ensures b.bytes == c.bytes {
        ReadsItself(hash, after, home, box, b);
        ReadsItself(hash, after, home, box, c);
        hide LastGoal, Arrived;
      }
    }
  }

  lemma ReadsItself(hash: string -> string, after: Tree, home: Path, box: Toolbox, a: Attempt)
    requires Packs(hash, box) && Arrived(hash, box, home, after) && a in BoxAttempts(box)
    ensures ReadAt(after, home, ToolPath(a.platform, a.name)) == a.bytes
  {
    var tool := ToolOfAttempt(box, a);
    PackedTool(hash, box, a.platform, tool);
    hide Packs, ToolsFor, BoxAttempts, ReadAt, ToolPath, Content;
  }

  // ---------------------------------------------------------------- Bare names

  predicate AllBare(a: seq<Attempt>) {
    forall b :: b in a ==> Shell.BareName(b.name) && b.bytes.Some?
  }

  lemma PlainPair(folder: string, name: string)
    requires folder != ".." && name != ".."
    ensures Walk([], [folder]) == [[folder]] && End([], [folder, name]) == [folder, name]
  {
    EndPlain([], [folder, name]);
    WalkPlain([], [folder], 0);
    assert [folder][..1] == [folder];
    hide Walk, End;
    assert [] + [folder, name] == [folder, name] && [] + [folder] == [folder];
  }

  lemma BarePlaces(a: Attempt)
    requires Shell.BareName(a.name)
    ensures BoxGoal(a) == [Folder(a.platform), a.name] && BoxPlaces(a) == [[Folder(a.platform)]]
  {
    hide Folder, Walk, End, Route, Start, Front, Parts, Shell.BareName, Absolute;
    var folder := Folder(a.platform);
    BareFacts(a.name);
    FolderIsPlain(a.platform);
    BareRoute(folder, a.name);
    PlainPair(folder, a.name);
  }

  lemma BareFacts(name: string)
    requires Shell.BareName(name)
    ensures !Absolute(name) && Parts(name) == [name] && name != ".."
  {
    BareParts(name);
    hide Parts, Below;
  }

  lemma BareRoute(folder: string, name: string)
    requires !Absolute(name) && Parts(name) == [name]
    ensures Start([], name) == [] && Route([folder], name) == [folder, name] && Front([folder, name]) == [folder]
  {
    hide Parts, Absolute;
  }

  lemma BareNames(a: seq<Attempt>)
    requires AllBare(a)
    ensures AllBelow(a) && Compatible(a)
  {
    forall b | b in a ensures KeepsBelow(b) && Usable(b.name) {
      BareParts(b.name);
      Shell.BareToolName(b.name);
      hide Parts, Shell.BareName, Shell.ToolName, StaysBelow, Usable;
    }
    forall b, c | b in a && c in a ensures BoxGoal(b) !in BoxPlaces(c) {
      BarePlaces(b);
      BarePlaces(c);
      hide BoxGoal, BoxPlaces, Folder, Shell.BareName;
    }
  }

  lemma FoldersDiffer(p: Platform, q: Platform)
    ensures Folder(p) == Folder(q) <==> p == q
  {
    assert Folder(LinuxAmd64)[7] == 'm' && Folder(LinuxArm64)[7] == 'r';
  }

  lemma SamePlatformTools(box: Toolbox, p: Platform, s: LockedTool, t: LockedTool)
    requires UniqueTools(box) && s in ToolsFor(box.tools, p) && t in ToolsFor(box.tools, p) && s.name == t.name
    ensures s == t
  {
    var tools := ToolsFor(box.tools, p);
    hide ToolsFor;
    var i :| 0 <= i < |tools| && tools[i] == s;
    var j :| 0 <= j < |tools| && tools[j] == t;
    assert UniqueNames(tools);
    assert !(i < j) && !(j < i);
  }

  lemma BareAgree(box: Toolbox)
    requires AllBare(BoxAttempts(box)) && UniqueTools(box)
    ensures Agreeing(BoxAttempts(box))
  {
    var all := BoxAttempts(box);
    forall b, c | b in all && c in all && BoxGoal(b) == BoxGoal(c) ensures b.bytes == c.bytes {
      BarePlaces(b);
      BarePlaces(c);
      FoldersDiffer(b.platform, c.platform);
      var s := ToolOfAttempt(box, b);
      var t := ToolOfAttempt(box, c);
      hide BoxAttempts, AllBare, UniqueTools, BoxGoal, BoxPlaces, Folder, ToolsFor, Content;
      assert [Folder(b.platform), b.name][0] == [Folder(c.platform), c.name][0];
      assert [Folder(b.platform), b.name][1] == [Folder(c.platform), c.name][1];
      SamePlatformTools(box, b.platform, s, t);
    }
  }

  /**
   Names without slashes need no care: such a toolbox is received wherever the project is ready for one, and
   without repeated names all of it arrives.
   */
  lemma BareToolbox(hash: string -> string, box: Toolbox, blobs: Blobs, home: Path, pid: nat, t: Tree)
    requires ValidHash(hash) && TextBox(box) && Packs(hash, box) && Holds(hash, blobs, Written(hash, box))
    requires AllBare(BoxAttempts(box))
    ensures var o := UnpackOutcome(hash, Some(MARKER), blobs, Some(IndexBytes(IndexOf(hash, box))), home, pid, t);
            && (o.result.Ok? <==> UniqueTools(box) && ProjectReady(t, home, pid, RestoredLock(box)))
            && (o.result.Ok? ==> Arrived(hash, box, home, o.tree))
  {
    hide MARKER, IndexBytes, IndexOf, Holds, Written, TextBox, ValidHash, Packs, UniqueTools, BoxAttempts, AllBare,
        Receives, Arrived, ProjectReady,
      AllBelow, Compatible, Agreeing, RestoredLock, IsInstalled, UnpackOutcome;
    PackedOutcome(hash, box, blobs, home, pid, t);
    BareNames(BoxAttempts(box));
    BelowReceives(t, home, pid, box);
    var o := UnpackOutcome(hash, Some(MARKER), blobs, Some(IndexBytes(IndexOf(hash, box))), home, pid, t);
    if o.result.Ok? {
      BareAgree(box);
      ArrivedExact(hash, o.tree, t, home, pid, box);
    }
  }

  // ---------------------------------------------------------------- Names that pass the check and fail

  /** A toolbox with a tool `rg/` packs, and no tree receives it: there is no such file. */
  lemma SlashedTool(t: Tree, home: Path, pid: nat, box: Toolbox, a: Attempt)
    requires a in BoxAttempts(box) && a.name == "rg/" && a.bytes.Some?
    ensures Shell.ToolName(a.name) == Some("rg") && !Receives(t, home, pid, box)
  {
    var staging := Staging(home, pid);
    var ops := BoxOps(staging, box) + EndOps(home, staging, Grouped(box), RestoredLock(box));
    hide FreshStaging, BoxAttempts, EndOps, AttemptOps, Staging, Grouped, RestoredLock, Shell.ToolName, Asks;
    SlashedName();
    SlashedAsks(staging, a);
    OpsOf(staging, BoxAttempts(box), Refuse);
    assert SomeAsks(staging, BoxAttempts(box), Refuse);
    assert Refuse in ops && !Fits(FreshStaging(t, staging), ops, Refuse);
  }

  lemma SlashedAsks(staging: Path, a: Attempt)
    requires a.name == "rg/" && a.bytes.Some?
    ensures Asks(staging, a, Refuse)
  {
    SlashedName();
    hide Openable, Places, MakeOps, Shell.ToolName;
    var tool := ToolOps(staging, a.platform, a.name, a.bytes);
    assert tool[|tool| - 1] == Refuse;
  }

  lemma SlashedName()
    ensures Shell.ToolName("rg/") == Some("rg") && !Openable("rg/")
  {
    assert Shell.LastComponent("rg/") == 3 && Shell.LastComponent("rg") == 0;
    assert "rg/"[..2] == "rg" && "rg"[0..] == "rg" && "rg/"[3..] == "";
    assert Shell.FileName("rg") == Some("rg");
  }

  /** Nor one with `rg` and `rg/x` for one platform: whichever comes first is in the way of the other. */
  lemma FileAndFolder(t: Tree, home: Path, pid: nat, box: Toolbox, a: Attempt, b: Attempt)
    requires AllBelow(BoxAttempts(box)) && a in BoxAttempts(box) && b in BoxAttempts(box)
    requires a.name == "rg" && b.name == "rg/x" && a.platform == b.platform
    ensures !Receives(t, home, pid, box)
  {
    BelowReceives(t, home, pid, box);
    FolderGoals(a, b);
    hide Receives, AllBelow, BoxAttempts, BoxGoal, BoxPlaces;
  }

  /** A name that only leads down. */
  lemma DownGoal(a: Attempt, parts: seq<string>)
    requires !Absolute(a.name) && Parts(a.name) == parts && parts != [] && ".." !in parts
    ensures BoxGoal(a) == [Folder(a.platform)] + parts && |BoxPlaces(a)| == |parts|
    ensures forall i :: 0 <= i < |parts| ==> BoxPlaces(a)[i] == [Folder(a.platform)] + parts[..i]
  {
    var folder := Folder(a.platform);
    var route := [folder] + parts;
    FolderIsPlain(a.platform);
    hide Parts, Folder, Absolute;
    EndPlain([], route);
    assert [] + route == route && |Front(route)| == |parts|;
    forall i | 0 <= i < |parts| ensures BoxPlaces(a)[i] == [folder] + parts[..i] {
      WalkPlain([], Front(route), i);
      assert [] + Front(route)[..i + 1] == [folder] + parts[..i];
      hide Walk, End;
    }
  }

  lemma FolderGoals(a: Attempt, b: Attempt)
    requires a.name == "rg" && b.name == "rg/x" && a.platform == b.platform
    ensures BoxGoal(a) in BoxPlaces(b)
  {
    PlainParts("rg");
    PlainParts("x");
    PrefixParts("rg", "x");
    assert "rg" + "/" + "x" == "rg/x";
    hide Parts, Openable, Folder, BoxGoal, BoxPlaces;
    DownGoal(a, ["rg"]);
    DownGoal(b, ["rg", "x"]);
    assert ["rg", "x"][..1] == ["rg"];
    assert BoxPlaces(b)[1] in BoxPlaces(b);
  }

  lemma PairAgrees(b: Attempt, c: Attempt)
    requires KeepsBelow(b) && KeepsBelow(c) && Usable(b.name) && Usable(c.name) && BoxGoal(b) == BoxGoal(c)
    requires BoxGoal(b) !in BoxPlaces(b) && BoxGoal(b) !in BoxPlaces(c)
    ensures AllBelow([b, c]) && Compatible([b, c]) && (Agreeing([b, c]) <==> b.bytes == c.bytes)
  {
    hide KeepsBelow, Usable, BoxGoal, BoxPlaces;
    var a := [b, c];
    assert a[0] in a && a[1] in a && forall d :: d in a ==> d == b || d == c;
  }

  /** One with `rg` and `a/../rg` unpacks, and the first tool is read back as the second. */
  lemma WrittenOver(p: Platform, x: string, y: string)
    ensures var a := [Attempt(p, "rg", Some(x)), Attempt(p, "a/../rg", Some(y))];
            AllBelow(a) && Compatible(a) && (Agreeing(a) <==> x == y)
  {
    var folder := Folder(p);
    var first, second := Attempt(p, "rg", Some(x)), Attempt(p, "a/../rg", Some(y));
    PlainKeeps(first);
    ClimbingKeeps(second);
    BarePlaces(first);
    ClimbingPlaces(second);
    hide Folder, BoxGoal, BoxPlaces, KeepsBelow, Usable, AllBelow, Compatible, Agreeing;
    assert [folder, "rg"] != [folder] && [folder, "rg"][1] != [folder, "a"][1];
    PairAgrees(first, second);
  }

  lemma PlainKeeps(a: Attempt)
    requires a.name == "rg" && a.bytes.Some?
    ensures KeepsBelow(a) && Usable(a.name) && Shell.BareName(a.name)
  {
    BareParts("rg");
    Shell.BareToolName("rg");
    hide Shell.ToolName, StaysBelow, Usable;
  }

  lemma ClimbingKeeps(a: Attempt)
    requires a.name == "a/../rg" && a.bytes.Some?
    ensures KeepsBelow(a) && Usable(a.name)
  {
    ClimbingName();
    hide Shell.ToolName, StaysBelow, Usable;
  }

  lemma ClimbingParts()
    ensures Parts("a/../rg") == ["a", "..", "rg"] && Openable("a/../rg")
  {
    hide Parts, Openable;
    PlainParts("rg");
    PrefixParts("..", "rg");
    PrefixParts("a", ".." + "/" + "rg");
    assert "a" + "/" + (".." + "/" + "rg") == "a/../rg";
  }

  lemma ClimbingName()
    ensures Parts("a/../rg") == ["a", "..", "rg"] && Usable("a/../rg") && StaysBelow("a/../rg")
    ensures Shell.ToolName("a/../rg") == Some("rg")
  {
    ClimbingParts();
    FileNameIsLast("a/../rg");
    hide Parts, Openable, Shell.FileName;
    assert ["a", "..", "rg"][1..] == ["..", "rg"] && ["..", "rg"][1..] == ["rg"] && ["rg"][1..] == [];
    assert Below(2, ["..", "rg"]) && Below(1, ["a", "..", "rg"]);
  }

  lemma ClimbingPlaces(a: Attempt)
    requires a.name == "a/../rg"
    ensures BoxGoal(a) == [Folder(a.platform), "rg"]
    ensures BoxPlaces(a) == [[Folder(a.platform)], [Folder(a.platform), "a"], [Folder(a.platform)]]
  {
    var f := Folder(a.platform);
    hide Parts, Openable, Folder, Below, Walk, End, Absolute;
    FolderIsPlain(a.platform);
    ClimbingName();
    ClimbingWalk(f);
    var front := [f, "a", ".."];
    assert [f] + ["a", "..", "rg"] == front + ["rg"] && Front(front + ["rg"]) == front;
    assert Route([f], a.name) == front + ["rg"] && Start([], a.name) == [];
  }

  lemma ClimbingWalk(f: string)
    requires f != ".."
    ensures Walk([], [f, "a", ".."]) == [[f], [f, "a"], [f]]
    ensures End([], [f, "a", ".."] + ["rg"]) == [f, "rg"]
  {
    var front := [f, "a", ".."];
    assert Step([f, "a"], "..") == [f] && Step([f], "a") == [f, "a"] && Step([], f) == [f];
    assert front == [f] + ["a", ".."] && ["a", ".."] == ["a"] + [".."] && [".."] == [".."] + [];
    assert Walk([f], []) == [] && End([f], []) == [f];
    hide Walk, End, Step;
    WalkCons([], f, ["a", ".."]);
    WalkCons([f], "a", [".."]);
    WalkCons([f, "a"], "..", []);
    WalkAppend([], front, ["rg"]);
    EndPlain([f], ["rg"]);
    assert [f] + ["rg"] == [f, "rg"];
  }
}
