/**
 What a failed unpack has changed, from the names of the tools it took on and the tree it started from, when
 the layout was at fault and not the file system.
 */
module OciFailure {
  import opened Wrappers
  import opened Text
  import opened OciDocs
  import opened Oci
  import opened FileTree
  import opened ToolPaths
  import opened OciRoundTrip
  import opened OciIntegrity
  import opened OciSettle
  import opened OciContainment
  import opened OciArrival
  import Shell

  // ---------------------------------------------------------------- What was asked and done

  predicate EndsRead(a: seq<Attempt>) {
    a == [] || a[|a| - 1].bytes.Some?
  }

  /** The tools that were read: all but a last one whose blob could not be. */
  function Read(a: seq<Attempt>): seq<Attempt> {
    if EndsRead(a) then a else a[..|a| - 1]
  }

  function MakeFor(staging: Path, a: Attempt): seq<Op> {
    MakeOps(StagedBox(staging), [Folder(a.platform)], a.name)
  }

  /** Their requests, and the directories made for one that could not be read. */
  function AskedOps(staging: Path, a: seq<Attempt>): seq<Op> {
    if EndsRead(a) then AttemptOps(staging, a) else AttemptOps(staging, a[..|a| - 1]) + MakeFor(staging, a[|a| - 1])
  }

  /** A step that the file system did not stop has had all it asked for. */
  predicate Served(before: Tree, staging: Path, a: seq<Attempt>, after: Staged) {
    after.failed != Some(CannotWrite) ==>
      var w := Perform(before, AskedOps(staging, a));
      w.ok && after.tree == w.tree && (after.failed == None ==> EndsRead(a))
  }

  lemma AskedAppend(staging: Path, a: seq<Attempt>, b: seq<Attempt>)
    requires EndsRead(a)
    ensures AskedOps(staging, a + b) == AskedOps(staging, a) + AskedOps(staging, b)
    ensures EndsRead(b) ==> EndsRead(a + b)
  {
    hide AttemptOps, MakeFor;
    if b == [] {
      assert a + b == a && AskedOps(staging, []) == [] by { NoOps(staging); }
    } else {
      var n := |b| - 1;
      assert (a + b)[..|a + b| - 1] == a + b[..n] && (a + b)[|a + b| - 1] == b[n];
      AttemptOpsAppend(staging, a, b[..n]);
      AttemptOpsAppend(staging, a, b);
    }
  }

  lemma NoOps(staging: Path)
    ensures AttemptOps(staging, []) == []
  {
  }

  lemma ServedAppend(before: Tree, staging: Path, a: seq<Attempt>, mid: Staged, b: seq<Attempt>, after: Staged)
    requires mid.failed == None && Served(before, staging, a, mid) && Served(mid.tree, staging, b, after)
    ensures Served(before, staging, a + b, after)
  {
    hide AskedOps, Perform, EndsRead;
    AskedAppend(staging, a, b);
    PerformAppend(before, AskedOps(staging, a), AskedOps(staging, b));
  }

  lemma ServedNone(staging: Path, s: Staged)
    ensures Served(s.tree, staging, [], s)
  {
    PerformNone(s.tree);
  }

  lemma LayerServed(hash: string -> string, blobs: Blobs, staging: Path, p: Platform, layer: Descriptor, s: Staged)
    requires s.failed == None
    ensures Served(s.tree, staging, LayerAttempts(hash, blobs, p, layer, s),
        UnpackLayer(hash, blobs, staging, p, layer, s))
  {
    var name := AnnotationOf(layer, NAME_KEY);
    var a := LayerAttempts(hash, blobs, p, layer, s);
    PerformNone(s.tree);
    if a != [] {
      assert a[..0] == [] && AttemptOps(staging, []) == [];
      assert [] + MakeFor(staging, a[0]) == MakeFor(staging, a[0]);
      assert [] + ToolOps(staging, p, name.value, a[0].bytes) == ToolOps(staging, p, name.value, a[0].bytes);
      assert AttemptOps(staging, a) == ToolOps(staging, p, name.value, a[0].bytes);
      if a[0].bytes.Some? { ToolPerformed(staging, p, name.value, a[0].bytes.value, s.tree); }
    }
    BlobErrors(hash, blobs, layer);
    hide AttemptOps, ToolOps, MakeOps, WriteOp, Perform, Do, AnnotationOf, ReadBlob, Shell.ToolName, Name, NAME_KEY,
        VERSION_KEY, TOOL_TYPE, ToolPath;
  }

  lemma BlobErrors(hash: string -> string, blobs: Blobs, d: Descriptor)
    ensures ReadBlob(hash, blobs, d).Err? ==> ReadBlob(hash, blobs, d).error != CannotWrite
  {
  }

  lemma {:induction false} LayersServed(hash: string -> string, blobs: Blobs, staging: Path, p: Platform,
      layers: seq<Descriptor>, s: Staged)
    requires s.failed == None
    ensures Served(s.tree, staging, LayersAttempts(hash, blobs, staging, p, layers, s),
        UnpackLayers(hash, blobs, staging, p, layers, s))
  {
    ServedNone(staging, s);
    if layers != [] {
      var n := |layers| - 1;
      var before := UnpackLayers(hash, blobs, staging, p, layers[..n], s);
      var a := LayersAttempts(hash, blobs, staging, p, layers[..n], s);
      LayersServed(hash, blobs, staging, p, layers[..n], s);
      assert a + [] == a;
      hide Served, UnpackLayer, LayerAttempts;
      if before.failed == None {
        LayerServed(hash, blobs, staging, p, layers[n], before);
        ServedAppend(s.tree, staging, a, before, LayerAttempts(hash, blobs, p, layers[n], before),
          UnpackLayer(hash, blobs, staging, p, layers[n], before));
      }
    }
  }

  lemma ManifestServed(hash: string -> string, blobs: Blobs, staging: Path, d: Descriptor, s: Staged)
    requires s.failed == None
    ensures Served(s.tree, staging, ManifestAttempts(hash, blobs, staging, d, s),
        UnpackManifest(hash, blobs, staging, d, s))
  {
    hide OpenManifest, Name, AttemptOps;
    PerformNone(s.tree);
    var parts := OpenManifest(hash, blobs, d, s);
    if parts.Err? {
      ServedNone(staging, s.(failed := Some(parts.error)));
    } else {
      hide Served;
      var (p, m, lock) := parts.value;
      LayersServed(hash, blobs, staging, p, m.layers, s.(platforms := s.platforms + {Name(p)}, lock := lock));
    }
  }

  /** Any run that the file system did not stop has had all it asked for. */
  lemma {:induction false} RunServed(hash: string -> string, blobs: Blobs, staging: Path, start: Tree,
      manifests: seq<Descriptor>)
    ensures Served(start, staging, Attempts(hash, blobs, staging, start, manifests),
                   UnpackManifests(hash, blobs, staging, start, manifests))
  {
    ServedNone(staging, Unstarted(start));
    if manifests != [] {
      var n := |manifests| - 1;
      var before := UnpackManifests(hash, blobs, staging, start, manifests[..n]);
      var a := Attempts(hash, blobs, staging, start, manifests[..n]);
      RunServed(hash, blobs, staging, start, manifests[..n]);
      assert a + [] == a;
      hide Served, UnpackManifest, ManifestAttempts;
      if before.failed == None {
        ManifestServed(hash, blobs, staging, manifests[n], before);
        ServedAppend(start, staging, a, before, ManifestAttempts(hash, blobs, staging, manifests[n], before),
          UnpackManifest(hash, blobs, staging, manifests[n], before));
      }
    }
  }

  // ---------------------------------------------------------------- What that changes

  /** The file a tool is given outside the staging directory is the one that was there. */
  predicate FileStays(t: Tree, staging: Path, all: seq<Attempt>, a: Attempt) {
    var last := LastTo(staging, all, Goal(staging, a));
    staging <= Goal(staging, a) ||
        (last.Some? && last.value.bytes.Some? && At(t, Goal(staging, a)) == Some(File(last.value.bytes.value)))
  }

  predicate OnWay(staging: Path, a: Attempt, q: Path) {
    q in Places(StagedBox(staging), [Folder(a.platform)], a.name)
  }

  /** The directories on its way outside the staging directory were there. */
  ghost predicate WayStays(t: Tree, staging: Path, a: Attempt) {
    forall q :: OnWay(staging, a, q) ==> staging <= q || IsDir(t, q)
  }

  /** Names that find outside the staging directory only what they would put there. */
  ghost predicate Harmless(t: Tree, staging: Path, a: seq<Attempt>) {
    (forall b :: b in a ==> WayStays(t, staging, b)) && forall b :: b in Read(a) ==> FileStays(t, staging, Read(a), b)
  }

  lemma MadePlace(staging: Path, a: Attempt, q: Path)
    requires Refuse !in MakeFor(staging, a)
    ensures MakeDir(q) in MakeFor(staging, a) <==> OnWay(staging, a, q)
    ensures forall op :: op in MakeFor(staging, a) ==> op.MakeDir?
  {
    var places := Places(StagedBox(staging), [Folder(a.platform)], a.name);
    hide Places;
    var made := MakeAll(places);
    if q in places {
      var i :| 0 <= i < |places| && places[i] == q;
      assert made[i] == MakeDir(q);
    }
  }

  lemma AsksPlace(staging: Path, a: Attempt, q: Path)
    requires Refuse !in ToolOps(staging, a.platform, a.name, a.bytes)
    ensures Asks(staging, a, MakeDir(q)) <==> OnWay(staging, a, q)
  {
    var make := MakeFor(staging, a);
    var ops := ToolOps(staging, a.platform, a.name, a.bytes);
    assert ops[|ops| - 1] in ops && forall op :: op in make ==> op in ops;
    MadePlace(staging, a, q);
    hide Places, MakeOps, Target;
  }

  predicate SomeOnWay(staging: Path, a: seq<Attempt>, q: Path) {
    exists b :: b in a && OnWay(staging, b, q)
  }

  /** The directories a run asks for. */
  lemma AskedDirs(staging: Path, a: seq<Attempt>, q: Path)
    requires Refuse !in AskedOps(staging, a)
    ensures MakeDir(q) in AskedOps(staging, a) <==> SomeOnWay(staging, a, q)
  {
    hide AttemptOps, OnWay, MakeFor, Asks, ToolOps;
    var read := Read(a);
    assert forall op :: op in AttemptOps(staging, read) ==> op in AskedOps(staging, a);
    ReadDirs(staging, read, q);
    if !EndsRead(a) {
      var last := a[|a| - 1];
      assert a == read + [last];
      assert forall op :: op in MakeFor(staging, last) ==> op in AskedOps(staging, a);
      MadePlace(staging, last, q);
    }
  }

  lemma ReadDirs(staging: Path, read: seq<Attempt>, q: Path)
    requires Refuse !in AttemptOps(staging, read)
    ensures MakeDir(q) in AttemptOps(staging, read) <==> SomeOnWay(staging, read, q)
  {
    hide AttemptOps, OnWay, Asks, ToolOps;
    OpsOf(staging, read, MakeDir(q));
    forall b | b in read ensures Asks(staging, b, MakeDir(q)) <==> OnWay(staging, b, q) {
      ReadIsServed(staging, read, b);
      AsksPlace(staging, b, q);
    }
  }

  /** What it writes last to a path. */
  lemma AskedWrites(staging: Path, a: seq<Attempt>, q: Path)
    requires Refuse !in AskedOps(staging, a)
    ensures LastWrite(AskedOps(staging, a), q)
         == var last := LastTo(staging, Read(a), q); if last == None then None else last.value.bytes
    ensures forall b :: b in Read(a) ==> b.bytes.Some?
  {
    hide AttemptOps, MakeFor, LastWrite, Goal, LastTo, ToolOps;
    var read := Read(a);
    assert forall op :: op in AttemptOps(staging, read) ==> op in AskedOps(staging, a);
    forall b | b in read ensures b.bytes.Some? { ReadIsServed(staging, read, b); }
    LastToWrites(staging, read, q);
    if !EndsRead(a) {
      var last := a[|a| - 1];
      assert forall op :: op in MakeFor(staging, last) ==> op in AskedOps(staging, a);
      MadePlace(staging, last, q);
      NoneWritten(AttemptOps(staging, read), MakeFor(staging, last), q);
    }
  }

  lemma ReadIsServed(staging: Path, a: seq<Attempt>, b: Attempt)
    requires Refuse !in AttemptOps(staging, a) && b in a
    ensures b.bytes.Some? && Refuse !in ToolOps(staging, b.platform, b.name, b.bytes)
  {
    var ops := ToolOps(staging, b.platform, b.name, b.bytes);
    assert b.bytes == None ==> ops[|ops| - 1] == Refuse;
    OpsOf(staging, a, Refuse);
    hide AttemptOps, ToolOps;
    assert Asks(staging, b, Refuse) ==> SomeAsks(staging, a, Refuse);
  }

  lemma NoneWritten(ops: seq<Op>, made: seq<Op>, q: Path)
    requires forall op :: op in made ==> op.MakeDir?
    ensures LastWrite(ops + made, q) == LastWrite(ops, q)
  {
    LastWriteAppend(ops, made, q);
    WritesMember(made, q);
  }

  // ---------------------------------------------------------------- The law

  /** Requests that are met leave a path outside alone exactly when they ask for what is there. */
  lemma PathStays(t: Tree, staging: Path, a: seq<Attempt>, q: Path)
    requires Perform(t, AskedOps(staging, a)).ok
    ensures var last := LastTo(staging, Read(a), q);
            At(Perform(t, AskedOps(staging, a)).tree, q) == At(t, q) <==>
              if last.Some? then At(t, q) == Some(File(last.value.bytes.GetOr(""))) else SomeOnWay(staging, a, q) ==>
                  IsDir(t, q)
  {
    var ops := AskedOps(staging, a);
    PerformExact(t, ops);
    assert !Fits(t, ops, Refuse);
    hide AskedOps, Perform, LastTo, LastWrite, SomeOnWay, Read;
    AskedDirs(staging, a, q);
    AskedWrites(staging, a, q);
  }

  lemma HarmlessPaths(t: Tree, staging: Path, a: seq<Attempt>)
    requires Perform(t, AskedOps(staging, a)).ok
    ensures Harmless(t, staging, a) <==> Outside(Perform(t, AskedOps(staging, a)).tree, staging) == Outside(t, staging)
  {
    var w := Perform(t, AskedOps(staging, a)).tree;
    hide AskedOps, Perform, LastTo, OnWay, Read, Goal;
    if Harmless(t, staging, a) {
      forall q | !(staging <= q) ensures At(w, q) == At(t, q) {
        PathStays(t, staging, a, q);
        var last := LastTo(staging, Read(a), q);
        if last.Some? { assert FileStays(t, staging, Read(a), last.value); }
      }
      SameOutside(w, t, staging);
    }
    if Outside(w, staging) == Outside(t, staging) {
      forall b | b in a ensures WayStays(t, staging, b) {
        forall q | OnWay(staging, b, q) && !(staging <= q) ensures IsDir(t, q) {
          SameAt(w, t, staging, q);
          PathStays(t, staging, a, q);
          assert SomeOnWay(staging, a, q);
          WayIsNoGoal(t, staging, a, q);
        }
      }
      forall b | b in Read(a) ensures FileStays(t, staging, Read(a), b) {
        var q := Goal(staging, b);
        if !(staging <= q) {
          SameAt(w, t, staging, q);
          PathStays(t, staging, a, q);
          AllRead(t, staging, a);
        }
      }
    }
  }

  lemma AllRead(t: Tree, staging: Path, a: seq<Attempt>)
    requires Perform(t, AskedOps(staging, a)).ok
    ensures forall b :: b in Read(a) ==> b.bytes.Some?
  {
    var ops := AskedOps(staging, a);
    PerformExact(t, ops);
    assert !Fits(t, ops, Refuse);
    hide AskedOps, Perform, Read;
    AskedWrites(staging, a, []);
  }

  /** No path on somebody's way is somebody's file. */
  lemma WayIsNoGoal(t: Tree, staging: Path, a: seq<Attempt>, q: Path)
    requires Perform(t, AskedOps(staging, a)).ok && SomeOnWay(staging, a, q)
    ensures LastTo(staging, Read(a), q) == None
  {
    var ops := AskedOps(staging, a);
    PerformExact(t, ops);
    assert !Fits(t, ops, Refuse);
    hide AskedOps, Perform, LastTo, LastWrite, SomeOnWay, Read;
    AskedDirs(staging, a, q);
    AskedWrites(staging, a, q);
    assert Fits(t, ops, MakeDir(q));
  }

  lemma SameAt(s: Tree, t: Tree, at: Path, q: Path)
    requires Outside(s, at) == Outside(t, at) && !(at <= q)
    ensures At(s, q) == At(t, q)
  {
    assert At(Outside(s, at), q) == At(s, q) && At(Outside(t, at), q) == At(t, q);
  }

  /** What outside the staging directory is harmless to is the same before and after it is cleared. */
  lemma HarmlessFresh(t: Tree, staging: Path, a: seq<Attempt>)
    ensures Harmless(FreshStaging(t, staging), staging, a) <==> Harmless(t, staging, a)
  {
    FreshOutside(t, staging);
    hide FreshStaging, OnWay, Goal, LastTo, Read, Outside;
    var f := FreshStaging(t, staging);
    forall q | !(staging <= q) ensures At(f, q) == At(t, q) { SameAt(f, t, staging, q); }
  }

  /**
   An unpack that fails because of its layout, at any point, leaves everything else as it was exactly when the
   tools taken on by then find outside the staging directory only what they would put there: directories that
   exist, and files that have the bytes of the last tool that leads to them.
   */
  lemma FailureLeavesNames(hash: string -> string, marker: Option<string>, blobs: Blobs, index: Option<string>,
      home: Path, pid: nat, t: Tree)
    requires Listed(marker, index).Ok? && CanStage(t, home, pid)
    requires var failed := UnpackManifests(hash, blobs, Staging(home, pid), FreshStaging(t, Staging(home, pid)),
        Listed(marker, index).value).failed;
             failed.Some? && failed.value != CannotWrite
    ensures var o := UnpackOutcome(hash, marker, blobs, index, home, pid, t);
            var staging := Staging(home, pid);
            var a := Attempts(hash, blobs, staging, FreshStaging(t, staging), Listed(marker, index).value);
            o.result.Err? && (o.tree == Outside(t, staging) <==> Harmless(t, staging, a))
  {
    var manifests := Listed(marker, index).value;
    var staging := Staging(home, pid);
    var clean := FreshStaging(t, staging);
    var a := Attempts(hash, blobs, staging, clean, manifests);
    hide Listed, UnpackManifests, Attempts, FreshStaging, Staging, Perform, Outside, Harmless, Settled, AskedOps,
        CanStage, EndsRead;
    RunServed(hash, blobs, staging, clean, manifests);
    HarmlessPaths(clean, staging, a);
    HarmlessFresh(t, staging, a);
    FreshOutside(t, staging);
  }
}
