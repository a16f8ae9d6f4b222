/**
 What an unpack says about the layout it read, with no assumption on the hash and none on where the layout
 came from: the tools it took on, the requests they made of the file system, and what a success vouches for.
 */
module OciIntegrity {
  import opened Wrappers
  import opened Text
  import opened OciDocs
  import opened Oci
  import opened FileTree
  import opened ToolPaths
  import opened OciRoundTrip
  import Shell

  // ---------------------------------------------------------------- Attempts

  function LayerAttempts(hash: string -> string, blobs: Blobs, p: Platform, layer: Descriptor,
      s: Staged): seq<Attempt> {
    var name := AnnotationOf(layer, NAME_KEY);
    if || layer.mediaType != TOOL_TYPE || name == None || AnnotationOf(layer, VERSION_KEY) == None
       || Shell.ToolName(name.value) == None || (name.value, Name(p)) in s.identities then []
    else
      var bytes := ReadBlob(hash, blobs, layer);
      [Attempt(p, name.value, if bytes.Ok? then Some(bytes.value) else None)]
  }

  function LayersAttempts(
    hash: string -> string, blobs: Blobs, staging: Path, p: Platform, layers: seq<Descriptor>, s: Staged): seq<Attempt>
  {
    if layers == [] then []
    else
      var n := |layers| - 1;
      var before := UnpackLayers(hash, blobs, staging, p, layers[..n], s);
      LayersAttempts(hash, blobs, staging, p, layers[..n], s)
      + if before.failed.Some? then [] else LayerAttempts(hash, blobs, p, layers[n], before)
  }

  function ManifestAttempts(hash: string -> string, blobs: Blobs, staging: Path, d: Descriptor,
      s: Staged): seq<Attempt> {
    var parts := OpenManifest(hash, blobs, d, s);
    if parts.Err? then []
    else
      var (p, m, lock) := parts.value;
      LayersAttempts(hash, blobs, staging, p, m.layers, s.(platforms := s.platforms + {Name(p)}, lock := lock))
  }

  /** The tools taken on by a whole run, up to the first failure. */
  function Attempts(
    hash: string -> string, blobs: Blobs, staging: Path, start: Tree, manifests: seq<Descriptor>): seq<Attempt>
  {
    if manifests == [] then []
    else
      var n := |manifests| - 1;
      var before := UnpackManifests(hash, blobs, staging, start, manifests[..n]);
      Attempts(hash, blobs, staging, start, manifests[..n])
      + if before.failed.Some? then [] else ManifestAttempts(hash, blobs, staging, manifests[n], before)
  }

  /** A step that leaves the tree as its requests do, and succeeds only if they are met. */
  predicate Follows(before: Tree, staging: Path, a: seq<Attempt>, after: Staged) {
    var w := Perform(before, AttemptOps(staging, a));
    after.tree == w.tree && (after.failed.None? ==> w.ok)
  }

  lemma FollowsAppend(before: Tree, staging: Path, a: seq<Attempt>, mid: Staged, b: seq<Attempt>, after: Staged)
    requires mid.failed.None? && Follows(before, staging, a, mid) && Follows(mid.tree, staging, b, after)
    ensures Follows(before, staging, a + b, after)
  {
    AttemptOpsAppend(staging, a, b);
    hide AttemptOps, Perform;
    PerformAppend(before, AttemptOps(staging, a), AttemptOps(staging, b));
  }

  lemma FollowsNone(staging: Path, s: Staged)
    ensures Follows(s.tree, staging, [], s)
  {
    PerformNone(s.tree);
  }

  lemma LayerFollows(hash: string -> string, blobs: Blobs, staging: Path, p: Platform, layer: Descriptor, s: Staged)
    requires s.failed.None?
    ensures Follows(s.tree, staging, LayerAttempts(hash, blobs, p, layer, s),
        UnpackLayer(hash, blobs, staging, p, layer, s))
  {
    var name := AnnotationOf(layer, NAME_KEY);
    var a := LayerAttempts(hash, blobs, p, layer, s);
    PerformNone(s.tree);
    if a != [] {
      assert a[..0] == [] && [] + ToolOps(staging, p, name.value, a[0].bytes)
          == ToolOps(staging, p, name.value, a[0].bytes);
      assert AttemptOps(staging, a) == ToolOps(staging, p, name.value, a[0].bytes);
      if a[0].bytes.Some? {
        ToolPerformed(staging, p, name.value, a[0].bytes.value, s.tree);
      } else {
        UnreadPerformed(staging, p, name.value, s.tree);
      }
    }
    hide AttemptOps, ToolOps, MakeOps, WriteOp, Perform, Do, AnnotationOf, ReadBlob, Shell.ToolName, Name, NAME_KEY,
        VERSION_KEY, TOOL_TYPE, ToolPath;
  }

  lemma UnreadPerformed(staging: Path, p: Platform, name: string, t: Tree)
    ensures var w := Perform(t, ToolOps(staging, p, name, None));
            !w.ok && w.tree == Perform(t, MakeOps(StagedBox(staging), [Folder(p)], name)).tree
  {
    var make := MakeOps(StagedBox(staging), [Folder(p)], name);
    PerformAppend(t, make, [Refuse]);
    hide MakeOps, Perform;
    PerformOne(Perform(t, make).tree, Refuse);
  }

  lemma {:induction false} LayersFollow(
    hash: string -> string, blobs: Blobs, staging: Path, p: Platform, layers: seq<Descriptor>, s: Staged)
    requires s.failed.None?
    ensures Follows(s.tree, staging, LayersAttempts(hash, blobs, staging, p, layers, s),
        UnpackLayers(hash, blobs, staging, p, layers, s))
  {
    FollowsNone(staging, s);
    if layers != [] {
      var n := |layers| - 1;
      var before := UnpackLayers(hash, blobs, staging, p, layers[..n], s);
      var a := LayersAttempts(hash, blobs, staging, p, layers[..n], s);
      LayersFollow(hash, blobs, staging, p, layers[..n], s);
      assert a + [] == a;
      hide Follows, UnpackLayer, LayerAttempts;
      if before.failed.None? {
        LayerFollows(hash, blobs, staging, p, layers[n], before);
        FollowsAppend(s.tree, staging, a, before, LayerAttempts(hash, blobs, p, layers[n], before),
          UnpackLayer(hash, blobs, staging, p, layers[n], before));
      }
    }
  }

  lemma ManifestFollows(hash: string -> string, blobs: Blobs, staging: Path, d: Descriptor, s: Staged)
    requires s.failed.None?
    ensures Follows(s.tree, staging, ManifestAttempts(hash, blobs, staging, d, s),
        UnpackManifest(hash, blobs, staging, d, s))
  {
    hide OpenManifest, Name, AttemptOps;
    PerformNone(s.tree);
    var parts := OpenManifest(hash, blobs, d, s);
    if parts.Err? {
      FollowsNone(staging, s);
    } else {
      hide Follows;
      var (p, m, lock) := parts.value;
      LayersFollow(hash, blobs, staging, p, m.layers, s.(platforms := s.platforms + {Name(p)}, lock := lock));
    }
  }

  /** Any run leaves the tree as the requests of the tools it took on do, whatever stops it. */
  lemma {:induction false} RunFollows(hash: string -> string, blobs: Blobs, staging: Path, start: Tree,
      manifests: seq<Descriptor>)
    ensures Follows(start, staging, Attempts(hash, blobs, staging, start, manifests),
                    UnpackManifests(hash, blobs, staging, start, manifests))
  {
    FollowsNone(staging, Unstarted(start));
    if manifests != [] {
      var n := |manifests| - 1;
      var before := UnpackManifests(hash, blobs, staging, start, manifests[..n]);
      var a := Attempts(hash, blobs, staging, start, manifests[..n]);
      RunFollows(hash, blobs, staging, start, manifests[..n]);
      assert a + [] == a;
      hide Follows, UnpackManifest, ManifestAttempts;
      if before.failed.None? {
        ManifestFollows(hash, blobs, staging, manifests[n], before);
        FollowsAppend(start, staging, a, before, ManifestAttempts(hash, blobs, staging, manifests[n], before),
          UnpackManifest(hash, blobs, staging, manifests[n], before));
      }
    }
  }

  // ---------------------------------------------------------------- What a success vouches for

  /** The entry a layer stands for: name and version are annotations, the hash is the layer's digest. */
  function LayerTool(p: Platform, layer: Descriptor): LockedTool {
    var name := AnnotationOf(layer, NAME_KEY).GetOr("");
    LockedTool(name, AnnotationOf(layer, VERSION_KEY).GetOr(""), Name(p), DigestHash(layer.digest).GetOr(""),
        ToolPath(p, name))
  }

  function LayerTools(p: Platform, layers: seq<Descriptor>): (r: seq<LockedTool>)
    ensures |r| == |layers| && forall i :: 0 <= i < |layers| ==> r[i] == LayerTool(p, layers[i])
  {
    seq(|layers|, i requires 0 <= i < |layers| => LayerTool(p, layers[i]))
  }

  /** A layer's blob was read and verified. */
  predicate VerifiedLayer(hash: string -> string, blobs: Blobs, layer: Descriptor) {
    ReadBlob(hash, blobs, layer).Ok? && Verifies(hash, ReadBlob(hash, blobs, layer).value, layer)
  }

  predicate VerifiedLayers(hash: string -> string, blobs: Blobs, layers: seq<Descriptor>) {
    forall i :: 0 <= i < |layers| ==> VerifiedLayer(hash, blobs, layers[i])
  }

  /** A tool of the lock file and the attempt it comes from. */
  predicate Recorded(hash: string -> string, tool: LockedTool, a: Attempt) {
    a.bytes.Some? && tool.sha256 == hash(a.bytes.value) && tool.platform == Name(a.platform) && tool.name == a.name
    && tool.path == ToolPath(a.platform, a.name)
  }

  predicate AllRecorded(hash: string -> string, tools: seq<LockedTool>, a: seq<Attempt>) {
    |tools| == |a| && forall i :: 0 <= i < |a| ==> Recorded(hash, tools[i], a[i])
  }

  lemma RecordedAppend(hash: string -> string, t: seq<LockedTool>, a: seq<Attempt>, u: seq<LockedTool>, b: seq<Attempt>)
    requires AllRecorded(hash, t, a) && AllRecorded(hash, u, b)
    ensures AllRecorded(hash, t + u, a + b)
  {
    hide Recorded;
  }

  lemma LayerSound(hash: string -> string, blobs: Blobs, staging: Path, p: Platform, layer: Descriptor, s: Staged)
    requires s.failed.None? && UnpackLayer(hash, blobs, staging, p, layer, s).failed.None?
    ensures var r := UnpackLayer(hash, blobs, staging, p, layer, s);
            && r.tools == s.tools + [LayerTool(p, layer)] && VerifiedLayer(hash, blobs, layer)
            && AllRecorded(hash, [LayerTool(p, layer)], LayerAttempts(hash, blobs, p, layer, s))
            && r.lock == s.lock && r.platforms == s.platforms
  {
    hide AnnotationOf, ReadBlob, DigestHash, Shell.ToolName, NAME_KEY, VERSION_KEY, TOOL_TYPE, Perform, Do, MakeOps,
        WriteOp, ToolPath, Name;
  }

  lemma LayerToolsSnoc(p: Platform, layers: seq<Descriptor>, tools: seq<LockedTool>)
    requires layers != []
    ensures var n := |layers| - 1;
            && tools + LayerTools(p, layers) == (tools + LayerTools(p, layers[..n])) + [LayerTool(p, layers[n])]
            && LayerTools(p, layers) == LayerTools(p, layers[..n]) + [LayerTool(p, layers[n])]
  {
    hide LayerTool;
  }

  lemma VerifiedSnoc(hash: string -> string, blobs: Blobs, layers: seq<Descriptor>)
    requires layers != []
    requires VerifiedLayers(hash, blobs, layers[..|layers| - 1]) && VerifiedLayer(hash, blobs, layers[|layers| - 1])
    ensures VerifiedLayers(hash, blobs, layers)
  {
    hide VerifiedLayer;
    forall i | 0 <= i < |layers| ensures VerifiedLayer(hash, blobs, layers[i]) {
      if i < |layers| - 1 { assert VerifiedLayer(hash, blobs, layers[..|layers| - 1][i]); }
    }
  }

  lemma {:induction false} LayersSound(
    hash: string -> string, blobs: Blobs, staging: Path, p: Platform, layers: seq<Descriptor>, s: Staged)
    requires s.failed.None? && UnpackLayers(hash, blobs, staging, p, layers, s).failed.None?
    ensures var r := UnpackLayers(hash, blobs, staging, p, layers, s);
            && r.tools == s.tools + LayerTools(p, layers) && VerifiedLayers(hash, blobs, layers)
            && AllRecorded(hash, LayerTools(p, layers), LayersAttempts(hash, blobs, staging, p, layers, s))
            && r.lock == s.lock && r.platforms == s.platforms
  {
    if layers == [] {
      assert s.tools + LayerTools(p, layers) == s.tools;
    } else {
      var n := |layers| - 1;
      var before := UnpackLayers(hash, blobs, staging, p, layers[..n], s);
      hide UnpackLayer, LayerTool, VerifiedLayer, VerifiedLayers, AllRecorded, LayerAttempts;
      LayersSound(hash, blobs, staging, p, layers[..n], s);
      LayerSound(hash, blobs, staging, p, layers[n], before);
      LayerToolsSnoc(p, layers, s.tools);
      VerifiedSnoc(hash, blobs, layers);
      hide LayerTools;
      RecordedAppend(hash, LayerTools(p, layers[..n]), LayersAttempts(hash, blobs, staging, p, layers[..n], s),
        [LayerTool(p, layers[n])], LayerAttempts(hash, blobs, p, layers[n], before));
    }
  }

  /** The platform a manifest descriptor names, once it is known to name one. */
  function PlatformOf(d: Descriptor): Platform {
    if d.platform.Some? then FromOci(d.platform.value).GetOr(LinuxAmd64) else LinuxAmd64
  }

  function LayersAt(hash: string -> string, blobs: Blobs, d: Descriptor): seq<Descriptor> {
    match ManifestAt(hash, blobs, d) case Ok(m) => m.layers case Err(_) => []
  }

  /** The lock file that a list of manifests stands for. */
  function ListedTools(hash: string -> string, blobs: Blobs, manifests: seq<Descriptor>): seq<LockedTool> {
    if manifests == [] then []
    else
      var d := manifests[|manifests| - 1];
      ListedTools(hash, blobs, manifests[..|manifests| - 1]) + LayerTools(PlatformOf(d), LayersAt(hash, blobs, d))
  }

  /** A manifest whose bytes, configuration and layers all verify. */
  predicate VerifiedManifest(hash: string -> string, blobs: Blobs, d: Descriptor) {
    && d.platform.Some? && FromOci(d.platform.value) == Some(PlatformOf(d))
    && ManifestAt(hash, blobs, d).Ok?
    && ConfigAt(hash, blobs, PlatformOf(d), ManifestAt(hash, blobs, d).value.config).Ok?
    && VerifiedLayers(hash, blobs, LayersAt(hash, blobs, d))
  }

  lemma ManifestSound(hash: string -> string, blobs: Blobs, staging: Path, d: Descriptor, s: Staged)
    requires s.failed.None? && UnpackManifest(hash, blobs, staging, d, s).failed.None?
    ensures var r := UnpackManifest(hash, blobs, staging, d, s);
            var tools := LayerTools(PlatformOf(d), LayersAt(hash, blobs, d));
            && r.tools == s.tools + tools && AllRecorded(hash, tools, ManifestAttempts(hash, blobs, staging, d, s))
            && VerifiedManifest(hash, blobs, d)
            && Name(PlatformOf(d)) !in s.platforms && r.platforms == s.platforms + {Name(PlatformOf(d))}
  {
    var (p, m, lock) := OpenManifest(hash, blobs, d, s).value;
    var from := s.(platforms := s.platforms + {Name(p)}, lock := lock);
    hide ManifestAt, ConfigAt, FromOci, Name;
    assert p == PlatformOf(d) && m.layers == LayersAt(hash, blobs, d);
    OpenedVerified(hash, blobs, d, s);
    hide OpenManifest, LayerTools;
    LayersSound(hash, blobs, staging, p, m.layers, from);
    hide VerifiedManifest, VerifiedLayers, AllRecorded;
  }

  lemma OpenedVerified(hash: string -> string, blobs: Blobs, d: Descriptor, s: Staged)
    requires OpenManifest(hash, blobs, d, s).Ok?
    ensures VerifiedLayers(hash, blobs, LayersAt(hash, blobs, d)) ==> VerifiedManifest(hash, blobs, d)
  {
    hide ManifestAt, ConfigAt, FromOci, Name, VerifiedLayers;
  }

  /** Every manifest verified, and no platform taken twice. */
  predicate AllVerified(hash: string -> string, blobs: Blobs, manifests: seq<Descriptor>, platforms: set<string>) {
    && (forall k :: 0 <= k < |manifests| ==>
          VerifiedManifest(hash, blobs, manifests[k]) && Name(PlatformOf(manifests[k])) in platforms)
    && (forall j, k :: 0 <= j < k < |manifests| ==> PlatformOf(manifests[j]) != PlatformOf(manifests[k]))
  }

  lemma AllVerifiedSnoc(hash: string -> string, blobs: Blobs, manifests: seq<Descriptor>, before: set<string>)
    requires manifests != [] && AllVerified(hash, blobs, manifests[..|manifests| - 1], before)
    requires VerifiedManifest(hash, blobs, manifests[|manifests| - 1])
    requires Name(PlatformOf(manifests[|manifests| - 1])) !in before
    ensures AllVerified(hash, blobs, manifests, before + {Name(PlatformOf(manifests[|manifests| - 1]))})
  {
    hide VerifiedManifest, PlatformOf, Name;
    var n := |manifests| - 1;
    forall j, k | 0 <= j < k < n ensures PlatformOf(manifests[j]) != PlatformOf(manifests[k]) {
      assert manifests[..n][j] == manifests[j] && manifests[..n][k] == manifests[k];
    }
    forall k | 0 <= k < n
      ensures VerifiedManifest(hash, blobs, manifests[k]) && Name(PlatformOf(manifests[k])) in before
      ensures PlatformOf(manifests[k]) != PlatformOf(manifests[n])
    {
      assert manifests[..n][k] == manifests[k];
    }
  }

  /**
   Whatever unpacks was verified blob by blob: the index's descriptors match the manifests, these match their
   configurations and layers, and the lock file returned is the one the manifests list, its hashes being
   those of the bytes written. No platform is taken twice.
   */
  lemma {:induction false} UnpackSound(hash: string -> string, blobs: Blobs, staging: Path, start: Tree,
      manifests: seq<Descriptor>)
    requires UnpackManifests(hash, blobs, staging, start, manifests).failed.None?
    ensures var u := UnpackManifests(hash, blobs, staging, start, manifests);
            && u.tools == ListedTools(hash, blobs, manifests) && AllVerified(hash, blobs, manifests, u.platforms)
            && AllRecorded(hash, u.tools, Attempts(hash, blobs, staging, start, manifests))
  {
    if manifests == [] {
    } else {
      var n := |manifests| - 1;
      var before := UnpackManifests(hash, blobs, staging, start, manifests[..n]);
      hide UnpackManifest, VerifiedManifest, PlatformOf, LayersAt, Name, AllVerified, LayerTools, AllRecorded,
          ManifestAttempts;
      UnpackSound(hash, blobs, staging, start, manifests[..n]);
      ManifestSound(hash, blobs, staging, manifests[n], before);
      AllVerifiedSnoc(hash, blobs, manifests, before.platforms);
      RecordedAppend(hash, before.tools, Attempts(hash, blobs, staging, start, manifests[..n]),
        LayerTools(PlatformOf(manifests[n]), LayersAt(hash, blobs, manifests[n])),
        ManifestAttempts(hash, blobs, staging, manifests[n], before));
    }
  }

  // ---------------------------------------------------------------- The files behind the lock

  /** Where an attempt's file goes. */
  function Goal(staging: Path, a: Attempt): Path {
    Target(StagedBox(staging), [Folder(a.platform)], a.name)
  }

  lemma ToolWrites(staging: Path, a: Attempt, q: Path)
    requires Refuse !in ToolOps(staging, a.platform, a.name, a.bytes) && a.bytes.Some?
    ensures LastWrite(ToolOps(staging, a.platform, a.name, a.bytes), q) == if Goal(staging, a) == q then a.bytes
        else None
  {
    var make := MakeOps(StagedBox(staging), [Folder(a.platform)], a.name);
    var write := WriteOp(StagedBox(staging), [Folder(a.platform)], a.name, a.bytes.value);
    var ops := make + [write];
    assert ops[|ops| - 1] == write && ops[..|ops| - 1] == make && write in ops;
    WritesMember(make, q);
    hide Target;
  }

  lemma {:induction false} LastWriteAppend(a: seq<Op>, b: seq<Op>, q: Path)
    ensures LastWrite(a + b, q) == if Writes(b, q) then LastWrite(b, q) else LastWrite(a, q)
    decreases |b|
  {
    if b == [] {
      assert a + b == a;
    } else {
      LastWriteAppend(a, b[..|b| - 1], q);
      assert (a + b)[..|a + b| - 1] == a + b[..|b| - 1];
    }
  }

  lemma AttemptWritesSnoc(staging: Path, a: seq<Attempt>, q: Path)
    requires a != [] && Refuse !in AttemptOps(staging, a) && a[|a| - 1].bytes.Some?
    ensures Refuse !in AttemptOps(staging, a[..|a| - 1])
    ensures LastWrite(AttemptOps(staging, a), q)
         == if Goal(staging, a[|a| - 1]) == q then a[|a| - 1].bytes else LastWrite(AttemptOps(staging, a[..|a| - 1]), q)
  {
    var n := |a| - 1;
    var before, last := AttemptOps(staging, a[..n]), ToolOps(staging, a[n].platform, a[n].name, a[n].bytes);
    assert forall op :: op in before || op in last ==> op in before + last;
    hide LastWrite, ToolOps, Goal;
    ToolWrites(staging, a[n], q);
    LastWriteAppend(before, last, q);
  }

  /** The last attempt that leads to a place. */
  function LastTo(staging: Path, a: seq<Attempt>, q: Path): (r: Option<Attempt>)
    ensures r.Some? ==> r.value in a && Goal(staging, r.value) == q
    ensures r.None? ==> forall b :: b in a ==> Goal(staging, b) != q
  {
    if a == [] then None
    else if Goal(staging, a[|a| - 1]) == q then Some(a[|a| - 1])
    else LastTo(staging, a[..|a| - 1], q)
  }

  /** What a place is last given is what the last attempt that leads there writes. */
  lemma {:induction false} LastToWrites(staging: Path, a: seq<Attempt>, q: Path)
    requires Refuse !in AttemptOps(staging, a) && forall b :: b in a ==> b.bytes.Some?
    ensures LastWrite(AttemptOps(staging, a), q) == var last := LastTo(staging, a, q); if last == None then None
        else last.value.bytes
  {
    if a != [] {
      var n := |a| - 1;
      assert a[n] in a;
      AttemptWritesSnoc(staging, a, q);
      hide AttemptOps, LastWrite, Goal;
      LastToWrites(staging, a[..n], q);
    } else {
      assert LastWrite([], q) == None;
    }
  }

  /** The hash recorded for an attempt is that of the file staged for it. */
  predicate HashHolds(hash: string -> string, tree: Tree, staging: Path, tool: LockedTool, a: Attempt) {
    IsFile(tree, Goal(staging, a)) && hash(tree[Goal(staging, a)].bytes) == tool.sha256
  }

  predicate AllHold(hash: string -> string, tree: Tree, staging: Path, tools: seq<LockedTool>, a: seq<Attempt>)
    requires |tools| == |a|
  {
    forall i :: 0 <= i < |a| ==> HashHolds(hash, tree, staging, tools[i], a[i])
  }

  /** Tools that lead to one place have one hash. */
  predicate GoalsAgree(staging: Path, tools: seq<LockedTool>, a: seq<Attempt>)
    requires |tools| == |a|
  {
    forall i, j :: 0 <= i < j < |a| && Goal(staging, a[i]) == Goal(staging, a[j]) ==> tools[i].sha256 == tools[j].sha256
  }

  /**
   The lock file is true of the staged files exactly when tools that lead to one place have one hash: a name
   such as `a/../rg` beside `rg` writes over it.
   */
  lemma LockHolds(hash: string -> string, blobs: Blobs, staging: Path, start: Tree, manifests: seq<Descriptor>)
    requires UnpackManifests(hash, blobs, staging, start, manifests).failed.None?
    ensures var u := UnpackManifests(hash, blobs, staging, start, manifests);
            var a := Attempts(hash, blobs, staging, start, manifests);
            |u.tools| == |a| && (AllHold(hash, u.tree, staging, u.tools, a) <==> GoalsAgree(staging, u.tools, a))
  {
    var u := UnpackManifests(hash, blobs, staging, start, manifests);
    var a := Attempts(hash, blobs, staging, start, manifests);
    UnpackSound(hash, blobs, staging, start, manifests);
    RunFollows(hash, blobs, staging, start, manifests);
    hide UnpackManifests, Attempts, ListedTools, AllVerified, Follows, Recorded;
    forall i | 0 <= i < |a| ensures SomeHolds(hash, u.tree, staging, u.tools, a, i) {
      StagedBytes(hash, staging, start, u, a, i);
    }
    hide SomeHolds, AllHold, GoalsAgree;
    StagedHolds(hash, u.tree, staging, u.tools, a);
  }

  /** One of the attempts with the same goal has its hash hold. */
  predicate SomeHolds(hash: string -> string, tree: Tree, staging: Path, tools: seq<LockedTool>, a: seq<Attempt>,
      i: nat)
    requires |tools| == |a| && i < |a|
  {
    exists j :: 0 <= j < |a| && Goal(staging, a[j]) == Goal(staging, a[i]) &&
        HashHolds(hash, tree, staging, tools[j], a[j])
  }

  lemma StagedHolds(hash: string -> string, tree: Tree, staging: Path, tools: seq<LockedTool>, a: seq<Attempt>)
    requires |tools| == |a| && forall i :: 0 <= i < |a| ==> SomeHolds(hash, tree, staging, tools, a, i)
    ensures AllHold(hash, tree, staging, tools, a) <==> GoalsAgree(staging, tools, a)
  {
    hide Goal, HashHolds;
    if GoalsAgree(staging, tools, a) {
      forall i | 0 <= i < |a| ensures HashHolds(hash, tree, staging, tools[i], a[i]) {
        assert SomeHolds(hash, tree, staging, tools, a, i);
        var j :| 0 <= j < |a| && Goal(staging, a[j]) == Goal(staging, a[i]) &&
            HashHolds(hash, tree, staging, tools[j], a[j]);
        SameHash(hash, tree, staging, tools[j], a[j], tools[i], a[i]);
      }
    }
    hide SomeHolds;
    if AllHold(hash, tree, staging, tools, a) {
      forall i, j | 0 <= i < j < |a| && Goal(staging, a[i]) == Goal(staging, a[j])
          ensures tools[i].sha256 == tools[j].sha256 {
        SameHash(hash, tree, staging, tools[i], a[i], tools[j], a[j]);
      }
    }
  }

  lemma SameHash(hash: string -> string, tree: Tree, staging: Path, t: LockedTool, a: Attempt, u: LockedTool,
      b: Attempt)
    requires Goal(staging, a) == Goal(staging, b) && HashHolds(hash, tree, staging, t, a)
    ensures HashHolds(hash, tree, staging, u, b) <==> t.sha256 == u.sha256
  {
    hide Goal;
  }

  /** Every staged place holds the bytes of one of the attempts that lead there. */
  lemma StagedBytes(hash: string -> string, staging: Path, start: Tree, u: Staged, a: seq<Attempt>, i: nat)
    requires u.failed.None? && Follows(start, staging, a, u) && AllRecorded(hash, u.tools, a) && i < |a|
    ensures SomeHolds(hash, u.tree, staging, u.tools, a, i)
  {
    var ops := AttemptOps(staging, a);
    PerformExact(start, ops);
    hide AttemptOps, Perform, Goal, Name, ToolPath;
    assert !Fits(start, ops, Refuse);
    assert Refuse !in ops;
    hide Consistent, LastWrite;
    assert forall k :: 0 <= k < |a| ==> Recorded(hash, u.tools[k], a[k]);
    var q := Goal(staging, a[i]);
    LastToWrites(staging, a, q);
    var last := LastTo(staging, a, q).value;
    var j :| 0 <= j < |a| && a[j] == last;
    assert At(u.tree, q) == After(start, ops, q);
    assert Recorded(hash, u.tools[j], a[j]);
    assert HashHolds(hash, u.tree, staging, u.tools[j], a[j]);
  }
}
