/**
 An unpack from beginning to end on a directory tree: a fresh staging directory, the layers staged in it, the
 lock file, the move into the project and the project lock. What lies outside the staging directory is the
 project, and everything else on the machine.
 */
module OciSettle {
  import opened Wrappers
  import opened Text
  import opened Json
  import opened OciDocs
  import opened Oci
  import opened FileTree
  import opened ToolPaths
  import opened OciRoundTrip
  import opened OciIntegrity
  import opened ToolboxLock

  // ---------------------------------------------------------------- Places

  function Staging(home: Path, pid: nat): Path {
    home + [".binport-oci-" + Decimal(pid)]
  }

  function StagedLock(staging: Path): Path {
    staging + ["toolbox.json"]
  }

  function DataDir(home: Path): Path {
    home + [".binport"]
  }

  function InstalledBox(home: Path): Path {
    home + [".binport", "toolbox"]
  }

  function LockPath(home: Path): Path {
    home + [".binport", "toolbox.json"]
  }

  function ProjectLockPath(home: Path): Path {
    home + ["Binport.lock"]
  }

  function ProjectLockBytes(lock: Json): string {
    Print(lock, Pretty, 0) + "\n"
  }

  /** Neither path is below the other. */
  predicate Apart(p: Path, q: Path) {
    !(p <= q) && !(q <= p)
  }

  lemma ApartBelow(home: Path, a: string, b: string, p: Path, q: Path)
    requires a != b && home + [a] <= p && home + [b] <= q
    ensures Apart(p, q)
  {
    assert p[|home|] == a && q[|home|] == b;
  }

  lemma PlacesApart(home: Path, pid: nat)
    ensures Staging(home, pid) != home
    ensures Apart(Staging(home, pid), DataDir(home)) && Apart(Staging(home, pid), ProjectLockPath(home))
    ensures Apart(StagedBox(Staging(home, pid)), InstalledBox(home)) &&
        Apart(StagedLock(Staging(home, pid)), LockPath(home))
    ensures Apart(InstalledBox(home), LockPath(home)) &&
        Apart(StagedBox(Staging(home, pid)), StagedLock(Staging(home, pid)))
    ensures Apart(InstalledBox(home), ProjectLockPath(home)) && Apart(LockPath(home), ProjectLockPath(home))
    ensures Apart(StagedLock(Staging(home, pid)), InstalledBox(home)) &&
        Apart(StagedBox(Staging(home, pid)), LockPath(home))
    ensures DataDir(home) <= InstalledBox(home) && DataDir(home) <= LockPath(home)
    ensures Staging(home, pid) <= StagedBox(Staging(home, pid)) && Staging(home, pid) <= StagedLock(Staging(home, pid))
  {
    var s := ".binport-oci-" + Decimal(pid);
    assert |s| > |".binport"| && s[0] == '.' && "Binport.lock"[0] == 'B';
    var staging := Staging(home, pid);
    ApartBelow(home, s, ".binport", staging, DataDir(home));
    ApartBelow(home, s, "Binport.lock", staging, ProjectLockPath(home));
    assert DataDir(home) <= InstalledBox(home) && DataDir(home) <= LockPath(home);
    assert staging <= StagedBox(staging) && staging <= StagedLock(staging);
    ApartBelow(home, s, ".binport", StagedBox(staging), InstalledBox(home));
    ApartBelow(home, s, ".binport", StagedLock(staging), LockPath(home));
    ApartBelow(home, s, ".binport", StagedLock(staging), InstalledBox(home));
    ApartBelow(home, s, ".binport", StagedBox(staging), LockPath(home));
    ApartBelow(home, ".binport", "Binport.lock", InstalledBox(home), ProjectLockPath(home));
    ApartBelow(home, ".binport", "Binport.lock", LockPath(home), ProjectLockPath(home));
    ApartBelow(DataDir(home), "toolbox", "toolbox.json", InstalledBox(home), LockPath(home));
    ApartBelow(staging, "toolbox", "toolbox.json", StagedBox(staging), StagedLock(staging));
  }

  // ---------------------------------------------------------------- The steps around staging

  /** A staging directory left over from before is removed first. */
  function FreshStaging(t: Tree, staging: Path): Tree {
    Outside(t, staging)[staging := Dir][StagedBox(staging) := Dir]
  }

  /** There is a project directory, and no file where the staging directory is to be. */
  predicate CanStage(t: Tree, home: Path, pid: nat) {
    IsDir(t, home) && !IsFile(t, Staging(home, pid))
  }

  function SettleOps(home: Path, staging: Path, tools: seq<LockedTool>): seq<Op> {
    [WriteFile(StagedLock(staging), LockBytes(tools)), MakeDir(DataDir(home))]
  }

  function LockOps(home: Path, lock: Option<Json>): seq<Op> {
    if lock == None then [] else [WriteFile(ProjectLockPath(home), ProjectLockBytes(lock.value))]
  }

  /** Removes what is at `to` and renames `from` to it. */
  function Relocate(t: Tree, from: Path, to: Path): Tree {
    var kept := set q | q in t && !(to <= q) && !(from <= q);
    var moved := set q | q in t && from <= q :: to + q[|from|..];
    map q | q in kept + moved :: if to <= q && from + q[|to|..] in t then t[from + q[|to|..]] else if q in t then t[q]
        else Dir
  }

  lemma RelocateAt(t: Tree, from: Path, to: Path, q: Path)
    requires Apart(from, to)
    ensures At(Relocate(t, from, to), q) == if to <= q then At(t, from + q[|to|..]) else if from <= q then None
        else At(t, q)
  {
    if to <= q {
      var p := from + q[|to|..];
      assert p[|from|..] == q[|to|..] && to + p[|from|..] == q;
      if q in Relocate(t, from, to) {
        var r :| r in t && from <= r && to + r[|from|..] == q;
        assert r[|from|..] == q[|to|..];
        assert r == from + r[|from|..];
      }
    }
  }

  function MoveIn(t: Tree, home: Path, staging: Path): Tree {
    Relocate(Relocate(t, StagedBox(staging), InstalledBox(home)), StagedLock(staging), LockPath(home))
  }

  lemma MoveInAt(t: Tree, home: Path, pid: nat, q: Path)
    requires !(Staging(home, pid) <= q)
    ensures var staging := Staging(home, pid);
            At(MoveIn(t, home, staging), q)
            == if InstalledBox(home) <= q then At(t, StagedBox(staging) + q[|InstalledBox(home)|..])
               else if LockPath(home) <= q then At(t, StagedLock(staging) + q[|LockPath(home)|..])
               else At(t, q)
  {
    var staging := Staging(home, pid);
    var half := Relocate(t, StagedBox(staging), InstalledBox(home));
    PlacesApart(home, pid);
    RelocateAt(half, StagedLock(staging), LockPath(home), q);
    RelocateAt(t, StagedBox(staging), InstalledBox(home), q);
    if LockPath(home) <= q {
      var p := StagedLock(staging) + q[|LockPath(home)|..];
      RelocateAt(t, StagedBox(staging), InstalledBox(home), p);
      assert p[|staging|] == "toolbox.json" && StagedBox(staging)[|staging|] == "toolbox";
      ApartBelow(home, staging[|home|], ".binport", p, InstalledBox(home));
      ApartBelow(DataDir(home), "toolbox", "toolbox.json", InstalledBox(home), q);
    }
    hide Relocate;
  }

  // ---------------------------------------------------------------- The whole command

  datatype Outcome = Outcome(tree: Tree, result: Result<seq<LockedTool>, Error>)

  /** `unpack`. The staging directory is removed however it ends. */
  function UnpackOutcome(
    hash: string -> string, marker: Option<string>, blobs: Blobs, index: Option<string>, home: Path, pid: nat,
        t: Tree): Outcome
  {
    var staging := Staging(home, pid);
    var x := Listed(marker, index);
    if x.Err? then Outcome(t, Err(x.error))
    else if !CanStage(t, home, pid) then Outcome(t, Err(CannotWrite))
    else
      var u := UnpackManifests(hash, blobs, staging, FreshStaging(t, staging), x.value);
      if u.failed.Some? then Outcome(Outside(u.tree, staging), Err(u.failed.value))
      else Settled(u, home, staging)
  }

  /** The end of an unpack whose tools are all staged. */
  function Settled(u: Staged, home: Path, staging: Path): Outcome {
    var w := Perform(u.tree, SettleOps(home, staging, u.tools));
    if !w.ok then Outcome(Outside(w.tree, staging), Err(CannotWrite))
    else
      var l := Perform(MoveIn(w.tree, home, staging), LockOps(home, u.lock));
      Outcome(Outside(l.tree, staging), if l.ok then Ok(u.tools) else Err(CannotWrite))
  }

  /** All a staged toolbox still asks of the file system. */
  function EndOps(home: Path, staging: Path, tools: seq<LockedTool>, lock: Option<Json>): seq<Op> {
    SettleOps(home, staging, tools) + LockOps(home, lock)
  }

  /** What is at a path once the staged tree `w` has been moved in. */
  function Installed(w: Tree, home: Path, pid: nat, lock: Option<Json>, q: Path): Option<Node> {
    if Staging(home, pid) <= q then None
    else if lock.Some? && q == ProjectLockPath(home) then Some(File(ProjectLockBytes(lock.value)))
    else if InstalledBox(home) <= q then At(w, StagedBox(Staging(home, pid)) + q[|InstalledBox(home)|..])
    else if LockPath(home) <= q then At(w, StagedLock(Staging(home, pid)) + q[|LockPath(home)|..])
    else At(w, q)
  }

  lemma OutsideAt(t: Tree, at: Path, q: Path)
    ensures At(Outside(t, at), q) == if at <= q then None else At(t, q)
  {
  }

  /**
   Settling succeeds exactly when its requests can be met where staging left off, and leaves every path as
   installed. When only the project lock cannot be written, everything else has been moved in all the same.
   */
  lemma SettledExact(u: Staged, home: Path, pid: nat)
    ensures var staging := Staging(home, pid);
            var o := Settled(u, home, staging);
            var w := Perform(u.tree, SettleOps(home, staging, u.tools));
            && (o.result.Ok? <==> Perform(u.tree, EndOps(home, staging, u.tools, u.lock)).ok)
            && (o.result.Ok? <==> w.ok && (u.lock == None || !IsDir(w.tree, ProjectLockPath(home))))
            && (o.result.Ok? ==> o.result == Ok(u.tools))
            && (w.ok ==> forall q ::
                At(o.tree, q) == Installed(w.tree, home, pid, if o.result.Ok? then u.lock else None, q))
  {
    var staging := Staging(home, pid);
    var w := Perform(u.tree, SettleOps(home, staging, u.tools));
    var moved := MoveIn(w.tree, home, staging);
    PerformAppend(u.tree, SettleOps(home, staging, u.tools), LockOps(home, u.lock));
    LockPerformed(moved, home, u.lock);
    LockPerformed(w.tree, home, u.lock);
    PlacesApart(home, pid);
    MoveInAt(w.tree, home, pid, ProjectLockPath(home));
    hide Perform, SettleOps, MoveIn, ProjectLockBytes, LockOps;
    var l := Perform(moved, LockOps(home, u.lock));
    var lock := if l.ok then u.lock else None;
    if w.ok {
      forall q ensures At(Outside(l.tree, staging), q) == Installed(w.tree, home, pid, lock, q) {
        OutsideAt(l.tree, staging, q);
        if !(staging <= q) { MoveInAt(w.tree, home, pid, q); }
        hide Staging, InstalledBox, LockPath, Outside;
      }
    }
  }

  lemma LockPerformed(t: Tree, home: Path, lock: Option<Json>)
    ensures var l := Perform(t, LockOps(home, lock));
            && (l.ok <==> lock == None || !IsDir(t, ProjectLockPath(home)))
            && (!l.ok ==> l.tree == t)
            && (l.ok ==> forall q ::
                  At(l.tree, q)
                  == if lock.Some? && q == ProjectLockPath(home) then Some(File(ProjectLockBytes(lock.value)))
                      else At(t, q))
  {
    if lock == None {
      PerformNone(t);
    } else {
      PerformOne(t, LockOps(home, lock)[0]);
    }
    hide ProjectLockBytes, ProjectLockPath;
  }
}
