/** The layout directory and the project directory, and the two commands that read one and write the other. */
module OciDisk {
  import opened Wrappers
  import opened Json
  import opened OciDocs
  import opened Oci
  import opened FileTree
  import opened ToolPaths
  import opened OciRoundTrip
  import opened OciIntegrity
  import opened ToolboxLock
  import opened OciSettle
  import opened OciContainment
  import opened OciArrival
  import Shell

  /** An OCI image layout on disk: `oci-layout`, `index.json` and the files below `blobs/sha256`. */
  class Layout {
    var present: bool
    var marker: Option<string>
    var index: Option<string>
    var blobs: Blobs

    constructor ()
      ensures !present && marker == None && index == None && blobs == map[]
    {
      present, marker, index, blobs := false, None, None, map[];
    }

    method WriteBlob(hash: string -> string, bytes: string, mediaType: string) returns (d: Descriptor)
      modifies this`blobs
      ensures blobs == Put(hash, old(blobs), bytes)
      ensures d == BlobDescriptor(hash, bytes, mediaType)
    {
      var name := hash(bytes);
      if name !in blobs {
        blobs := blobs[name := bytes];
      }
      d := Descriptor(mediaType, "sha256:" + name, |bytes|, None, []);
    }

    static lemma ToolsNext(hash: string -> string, files: map<string, string>, tools: seq<LockedTool>, k: nat,
        blobs: Blobs)
      requires k < |tools|
      ensures PackTools(hash, files, tools[..k + 1], blobs) ==
        var before := PackTools(hash, files, tools[..k], blobs);
        if before.failed.Some? then before else PackTool(hash, files, tools[k], before)
    {
      hide PackTool;
      assert tools[..k + 1][..k] == tools[..k];
    }

    /** The tools of one platform: every name, file and checksum is looked at before its blob is written. */
    method PackLayers(hash: string -> string, tree: Tree, home: Path, ghost files: map<string, string>,
        tools: seq<LockedTool>)
      returns (layers: seq<Descriptor>, failed: Option<Error>)
      requires forall t :: t in tools ==>
        (t.path in files <==> ReadAt(tree, home, t.path).Some?) &&
            (t.path in files ==> ReadAt(tree, home, t.path) == Some(files[t.path]))
      modifies this`blobs
      ensures Layers(blobs, layers, failed) == PackTools(hash, files, tools, old(blobs))
    {
      layers, failed := [], None;
      var k := 0;
      assert PackTools(hash, files, tools[..0], blobs) == Layers(blobs, [], None);
      while k < |tools|
        invariant k <= |tools| && failed == None
        invariant Layers(blobs, layers, None) == PackTools(hash, files, tools[..k], old(blobs))
      {
        hide Put, PackTools, ReadAt;
        var tool := tools[k];
        ToolsNext(hash, files, tools, k, old(blobs));
        var bytes := None;
        if Shell.ToolName(tool.name) == None {
          failed := Some(UnsafeName);
        } else {
          bytes := ReadAt(tree, home, tool.path);
          if bytes == None {
            failed := Some(MissingFile);
          } else if hash(bytes.value) != tool.sha256 {
            failed := Some(Checksum);
          }
        }
        if failed.Some? {
          FailureEndsTools(hash, files, tools, old(blobs), k + 1);
          return;
        }
        var d := WriteBlob(hash, bytes.value, TOOL_TYPE);
        d := d.(annotations := [Annotation(NAME_KEY, tool.name), Annotation(VERSION_KEY, tool.version)]);
        assert d == Layer(hash, tool, files[tool.path]);
        layers := layers + [d];
        k := k + 1;
      }
      assert tools[..k] == tools;
    }
  }

  /** A project in the tree of its machine. */
  class Root {
    const home: Path
    var tree: Tree

    constructor (home: Path, tree: Tree)
      ensures this.home == home && this.tree == tree
    {
      this.home, this.tree := home, tree;
    }

    /** The lock file of the toolbox, when it is there and reads. */
    function Lock(): Option<seq<LockedTool>>
      reads this
    {
      if IsFile(tree, LockPath(home)) then ParseLock(tree[LockPath(home)].bytes) else None
    }

    function ProjectLock(): Option<Json>
      reads this
    {
      if IsFile(tree, ProjectLockPath(home)) then ParseProjectLock(tree[ProjectLockPath(home)].bytes) else None
    }

    /** What packing reads: the tools listed, the files they name, and the project lock. */
    function Box(): Toolbox
      reads this
    {
      var tools := Lock().GetOr([]);
      Toolbox(tools, FilesOf(tree, home, tools), ProjectLock())
    }

    /** `pack`: nothing is written unless the lock file can be read and the output is new. */
    method Pack(hash: string -> string, output: Layout) returns (failed: Option<Error>)
      modifies output
      ensures Lock() == None ==> failed == Some(NoToolbox) && unchanged(output)
      ensures Lock().Some? && old(output.present) ==> failed == Some(AlreadyExists) && unchanged(output)
      ensures Lock().Some? && !old(output.present) ==>
        && output.present && output.marker == Some(MARKER)
        && failed == PackPlatforms(hash, Box(), ALL).failed
        && output.blobs == PackPlatforms(hash, Box(), ALL).blobs
        && (failed.Some? ==> output.index == None)
      ensures failed == None ==>
        && Packs(hash, Box())
        && output.blobs == PutAll(hash, map[], Written(hash, Box()))
        && output.index == Some(IndexBytes(IndexOf(hash, Box())))
    {
      if Lock() == None { return Some(NoToolbox); }
      if output.present { return Some(AlreadyExists); }
      output.present, output.marker, output.index, output.blobs := true, Some(MARKER), None, map[];
      hide Written, Packs, PackPlatforms, MARKER, IndexBytes, INDEX_TYPE, PutAll;
      var manifests;
      manifests, failed := PackAll(hash, output);
      PackExact(hash, Box());
      if failed == None {
        output.index := Some(IndexBytes(Index(2, INDEX_TYPE, manifests)));
      }
    }

    /** The platform loop. */
    method PackAll(hash: string -> string, output: Layout) returns (manifests: seq<Descriptor>, failed: Option<Error>)
      requires output.blobs == map[]
      modifies output`blobs
      ensures PackPlatforms(hash, Box(), ALL) == Packing(output.blobs, manifests, failed)
    {
      manifests, failed := [], None;
      var k := 0;
      while k < |ALL|
        invariant k <= |ALL| && failed == None
        invariant PackPlatforms(hash, Box(), ALL[..k]) == Packing(output.blobs, manifests, None)
      {
        hide PackPlatform, PackPlatforms;
        var added;
        PackNext(hash, Box(), k, Packing(output.blobs, manifests, None));
        added, failed := PackOne(hash, ALL[k], output, manifests);
        manifests := manifests + added;
        k := k + 1;
        if failed.Some? {
          FailureEndsPlatforms(hash, Box(), ALL, k);
          return;
        }
      }
      assert ALL[..k] == ALL;
    }

    static lemma PackNext(hash: string -> string, box: Toolbox, k: nat, s: Packing)
      requires k < |ALL| && PackPlatforms(hash, box, ALL[..k]) == s && s.failed == None
      ensures PackPlatforms(hash, box, ALL[..k + 1]) == PackPlatform(hash, box, ALL[k], s)
    {
      hide PackPlatform;
      assert ALL[..k + 1][..k] == ALL[..k];
    }

    /** One turn of the platform loop. */
    method PackOne(hash: string -> string, p: Platform, output: Layout, ghost manifests: seq<Descriptor>)
      returns (added: seq<Descriptor>, failed: Option<Error>)
      modifies output`blobs
      ensures PackPlatform(hash, Box(), p, Packing(old(output.blobs), manifests, None))
           == Packing(output.blobs, manifests + added, failed)
    {
      hide ConfigBytes, ManifestBytes, Put, PackTools, ToolsFor, BlobDescriptor;
      added, failed := [], None;
      var tools := ToolsFor(Lock().GetOr([]), p);
      if tools == [] {
        assert manifests + [] == manifests;
        return;
      }
      var bytes := ConfigBytes(Config(1, Name(p), ProjectLock()));
      assert bytes == ConfigFor(Box(), p);
      var config := output.WriteBlob(hash, bytes, CONFIG_TYPE);
      var layers;
      layers, failed := output.PackLayers(hash, tree, home, Box().files, tools);
      if failed.Some? {
        assert manifests + [] == manifests;
        return;
      }
      var manifest := ManifestBytes(Manifest(2, MANIFEST_TYPE, config, layers));
      var d := output.WriteBlob(hash, manifest, MANIFEST_TYPE);
      added := [d.(platform := Some(ToOci(p)))];
    }

    /** One system call. */
    method Request(op: Op) returns (ok: bool)
      modifies this`tree
      ensures Performed(tree, ok) == Do(old(tree), op)
    {
      match op {
        case MakeDir(q) =>
          ok := q !in tree || tree[q].Dir?;
          if q !in tree { tree := tree[q := Dir]; }
        case WriteFile(q, bytes) =>
          ok := !IsDir(tree, q);
          if ok { tree := tree[q := File(bytes)]; }
        case Refuse =>
          ok := false;
      }
    }

    /** A list of them, up to the first that fails. */
    method Requests(ops: seq<Op>) returns (ok: bool)
      modifies this`tree
      ensures Performed(tree, ok) == Perform(old(tree), ops)
    {
      ok := true;
      var k := 0;
      while k < |ops|
        invariant k <= |ops| && ok && Perform(old(tree), ops[..k]) == Performed(tree, true)
      {
        hide Do;
        assert ops[..k + 1][..k] == ops[..k];
        ok := Request(ops[k]);
        k := k + 1;
        if !ok {
          FailureEndsOps(old(tree), ops, k);
          return;
        }
      }
      assert ops[..k] == ops;
    }

    /**
     One turn of the layer loop: the identity is claimed before the directories are made, these before the
     blob is read, and the file is hashed after it is written.
     */
    method StageLayer(hash: string -> string, layout: Layout, staging: Path, p: Platform, layer: Descriptor,
        before: Staged)
      returns (s: Staged)
      requires before.failed == None && before.tree == tree
      modifies this`tree
      ensures s == UnpackLayer(hash, layout.blobs, staging, p, layer, before) && s.tree == tree
    {
      hide AnnotationOf, ReadBlob, ToolPath, Name, Shell.ToolName, TOOL_TYPE, NAME_KEY, VERSION_KEY, MakeOps, WriteOp,
          Perform, Do, Folder, StagedBox;
      s := before;
      var name, version := AnnotationOf(layer, NAME_KEY), AnnotationOf(layer, VERSION_KEY);
      if layer.mediaType != TOOL_TYPE { return s.(failed := Some(BadLayer)); }
      if name == None || version == None { return s.(failed := Some(NoAnnotation)); }
      if Shell.ToolName(name.value) == None { return s.(failed := Some(UnsafeName)); }
      if (name.value, Name(p)) in s.identities { return s.(failed := Some(DuplicateTool)); }
      var made := Requests(MakeOps(StagedBox(staging), [Folder(p)], name.value));
      s := s.(tree := tree);
      if !made { return s.(failed := Some(CannotWrite)); }
      var bytes := ReadBlob(hash, layout.blobs, layer);
      if bytes.Err? { return s.(failed := Some(bytes.error)); }
      var written := Request(WriteOp(StagedBox(staging), [Folder(p)], name.value, bytes.value));
      s := s.(tree := tree);
      if !written { return s.(failed := Some(CannotWrite)); }
      var tool := LockedTool(name.value, version.value, Name(p), hash(bytes.value), ToolPath(p, name.value));
      s := s.(tools := s.tools + [tool], identities := s.identities + {(name.value, Name(p))});
    }

    /** The layer loop of `unpack`. */
    method StageLayers(hash: string -> string, layout: Layout, staging: Path, p: Platform, layers: seq<Descriptor>,
        before: Staged)
      returns (s: Staged)
      requires before.failed == None && before.tree == tree
      modifies this`tree
      ensures s == UnpackLayers(hash, layout.blobs, staging, p, layers, before) && s.tree == tree
    {
      s := before;
      var k := 0;
      while k < |layers|
        invariant k <= |layers| && s.failed == None && s.tree == tree
        invariant s == UnpackLayers(hash, layout.blobs, staging, p, layers[..k], before)
      {
        hide UnpackLayer;
        assert layers[..k + 1][..k] == layers[..k];
        s := StageLayer(hash, layout, staging, p, layers[k], s);
        k := k + 1;
        if s.failed.Some? {
          FailureEndsLayers(hash, layout.blobs, staging, p, layers, before, k);
          return;
        }
      }
      assert layers[..k] == layers;
    }

    /** The manifest loop of `unpack`. */
    method StageManifests(hash: string -> string, layout: Layout, staging: Path, manifests: seq<Descriptor>)
        returns (s: Staged)
      modifies this`tree
      ensures s == UnpackManifests(hash, layout.blobs, staging, old(tree), manifests) && s.tree == tree
    {
      s := Unstarted(tree);
      var k := 0;
      while k < |manifests|
        invariant k <= |manifests| && s.failed == None && s.tree == tree
        invariant s == UnpackManifests(hash, layout.blobs, staging, old(tree), manifests[..k])
      {
        hide OpenManifest, UnpackLayers, Name;
        assert manifests[..k + 1][..k] == manifests[..k];
        var parts := OpenManifest(hash, layout.blobs, manifests[k], s);
        if parts.Err? {
          s := s.(failed := Some(parts.error));
        } else {
          var (p, m, lock) := parts.value;
          s := StageLayers(hash, layout, staging, p, m.layers, s.(platforms := s.platforms + {Name(p)}, lock := lock));
        }
        k := k + 1;
        if s.failed.Some? {
          FailureEndsManifests(hash, layout.blobs, staging, old(tree), manifests, k);
          return;
        }
      }
      assert manifests[..k] == manifests;
    }

    /** Once all is staged: the lock file, the move into the project, the project lock. */
    method Settle(staging: Path, s: Staged) returns (r: Result<seq<LockedTool>, Error>)
      requires s.tree == tree
      modifies this`tree
      ensures Outcome(tree, r) == Settled(s, home, staging)
    {
      hide Perform, LockBytes, ProjectLockBytes, Relocate, Outside;
      var ok := Requests(SettleOps(home, staging, s.tools));
      if ok {
        tree := Relocate(tree, StagedBox(staging), InstalledBox(home));
        tree := Relocate(tree, StagedLock(staging), LockPath(home));
        ok := Requests(LockOps(home, s.lock));
      }
      tree := Outside(tree, staging);
      r := if ok then Ok(s.tools) else Err(CannotWrite);
    }

    /** `unpack`, on the whole machine: every path ends as foreseen, whatever the layout and however it fails. */
    method Unpack(hash: string -> string, layout: Layout, pid: nat) returns (r: Result<seq<LockedTool>, Error>)
      modifies this`tree
      ensures Outcome(tree, r) == UnpackOutcome(hash, layout.marker, layout.blobs, layout.index, home, pid, old(tree))
    {
      hide ValidMarker, ParseIndex, INDEX_TYPE, UnpackManifests, Settled, Staging, FreshStaging;
      if layout.marker == None || !ValidMarker(layout.marker.value) { return Err(BadLayout); }
      if layout.index == None { return Err(BadIndex); }
      var index := ParseIndex(layout.index.value);
      if index == None || index.value.schemaVersion != 2 || index.value.mediaType != INDEX_TYPE {
        return Err(BadIndex);
      }
      var staging := Staging(home, pid);
      if !CanStage(tree, home, pid) { return Err(CannotWrite); }
      tree := FreshStaging(tree, staging);
      var s := StageManifests(hash, layout, staging, index.value.manifests);
      if s.failed.Some? {
        tree := Outside(tree, staging);
        return Err(s.failed.value);
      }
      r := Settle(staging, s);
    }
  }

  /** The files that tools name, as far as they can be read. */
  function FilesOf(tree: Tree, home: Path, tools: seq<LockedTool>): map<string, string> {
    map path | path in (set t | t in tools :: t.path) &&
        ReadAt(tree, home, path).Some? :: ReadAt(tree, home, path).value
  }

  /** `ProjectLock::read`, as far as it is a JSON object. */
  function ParseProjectLock(bytes: string): Option<Json> {
    var v :- Parse(bytes);
    if v.JObj? then Some(v) else None
  }

  lemma {:induction false} FailureEndsOps(t: Tree, ops: seq<Op>, k: nat)
    requires k <= |ops| && !Perform(t, ops[..k]).ok
    ensures Perform(t, ops) == Perform(t, ops[..k])
    decreases |ops| - k
  {
    if k == |ops| {
      assert ops[..k] == ops;
    } else {
      assert ops[..k + 1][..k] == ops[..k];
      FailureEndsOps(t, ops, k + 1);
    }
  }

  /** A packed layout that was not touched holds everything written to it. */
  lemma PackedHolds(hash: string -> string, box: Toolbox)
    requires CollisionFree(hash, Written(hash, box))
    ensures Holds(hash, PutAll(hash, map[], Written(hash, box)), Written(hash, box))
  {
    hide Written, PutAll;
    PutAllExact(hash, Written(hash, box));
  }

  // ---------------------------------------------------------------- The lock files read back

  lemma {:induction false} AsciiAppend(a: string, b: string)
    requires Ascii(a) && ValidUtf8(b)
    ensures ValidUtf8(a + b)
  {
    if a == "" {
      assert a + b == b;
    } else {
      AsciiAppend(a[1..], b);
      assert (a + b)[1..] == a[1..] + b && LeadLength(a + b) == 1;
    }
  }

  lemma PathIsText(p: Platform, name: string)
    requires ValidUtf8(name)
    ensures ValidUtf8(ToolPath(p, name))
  {
    var front := TOOLBOX + Folder(p) + "/";
    assert Ascii(TOOLBOX) && Ascii(Folder(p)) && Ascii("/");
    assert Ascii(front);
    hide ValidUtf8, TOOLBOX, Folder;
    AsciiAppend(front, name);
  }

  lemma MovedIsText(hash: string -> string, box: Toolbox, p: Platform, t: LockedTool)
    requires ValidHash(hash) && TextBox(box) && Packs(hash, box) && t in ToolsFor(box.tools, p)
    ensures TextTool(Moved(p, t))
  {
    PackedTool(hash, box, p, t);
    PathIsText(p, t.name);
    PlatformIsText(p);
    assert t in box.tools && IsHash(hash(box.files[t.path]));
    assert Ascii(t.sha256);
    AsciiIsUtf8(t.sha256);
    hide ValidUtf8, Packs, ToolPath, IsHash, Name;
  }

  lemma GroupedIsText(hash: string -> string, box: Toolbox)
    requires ValidHash(hash) && TextBox(box) && Packs(hash, box)
    ensures forall t :: t in Grouped(box) ==> TextTool(t)
  {
    var amd, arm := ToolsFor(box.tools, LinuxAmd64), ToolsFor(box.tools, LinuxArm64);
    hide ToolsFor, Moved, TextTool, TextBox, Packs, ValidHash;
    forall i | 0 <= i < |amd| ensures TextTool(MovedAll(LinuxAmd64, amd)[i]) {
      MovedIsText(hash, box, LinuxAmd64, amd[i]);
    }
    forall i | 0 <= i < |arm| ensures TextTool(MovedAll(LinuxArm64, arm)[i]) {
      MovedIsText(hash, box, LinuxArm64, arm[i]);
    }
  }

  lemma ProjectLockRoundTrip(lock: Json)
    requires lock.JObj? && WellFormed(lock)
    ensures ParseProjectLock(ProjectLockBytes(lock)) == Some(lock)
  {
    hide Print, ParseValue, WellFormed;
    ValueRoundTrip(lock, Pretty, 0, "\n");
  }

  /** What the project says of itself after a successful unpack. */
  lemma LocksRead(hash: string -> string, box: Toolbox, target: Root, t: Tree, pid: nat)
    requires ValidHash(hash) && TextBox(box) && Packs(hash, box) && Receives(t, target.home, pid, box)
    requires IsInstalled(target.tree, t, target.home, pid, box)
    ensures target.Lock() == Some(Grouped(box))
    ensures RestoredLock(box).Some? ==> target.ProjectLock() == RestoredLock(box)
  {
    LockArrives(target.tree, t, target.home, pid, box);
    GroupedIsText(hash, box);
    assert RestoredLock(box).Some? ==> RestoredLock(box) == box.projectLock;
    hide Grouped, TextTool, WellFormed, LockBytes, ParseLock, ProjectLockBytes, ParseProjectLock, RestoredLock,
        IsInstalled, Receives, Packs, ValidHash;
    LockRoundTrip(Grouped(box));
    if RestoredLock(box).Some? { ProjectLockRoundTrip(RestoredLock(box).value); }
  }

  /**
   The two commands in a row. For a toolbox whose tools check out, packing and unpacking into another project
   succeeds exactly when no name repeats within a platform and the other machine receives the toolbox; then
   the other project lists the same tools and, when their names stay below the toolbox directory, has their
   contents exactly when tools that end in one file agree.
   */
  method PackThenUnpack(hash: string -> string, source: Root, target: Root, pid: nat)
      returns (r: Result<seq<LockedTool>, Error>)
    requires source != target && source.Lock().Some?
    requires ValidHash(hash) && TextBox(source.Box()) && Packs(hash, source.Box())
    requires CollisionFree(hash, Written(hash, source.Box()))
    modifies target
    ensures r.Ok? <==> UniqueTools(source.Box()) && Receives(old(target.tree), target.home, pid, source.Box())
    ensures AllBelow(BoxAttempts(source.Box())) ==>
      (r.Ok? <==> UniqueTools(source.Box()) && Compatible(BoxAttempts(source.Box()))
                  && ProjectReady(old(target.tree), target.home, pid, RestoredLock(source.Box())))
    ensures r.Ok? ==> r.value == Grouped(source.Box()) && target.Lock() == Some(r.value)
    ensures r.Ok? && RestoredLock(source.Box()).Some? ==> target.ProjectLock() == RestoredLock(source.Box())
    ensures r.Ok? && AllBelow(BoxAttempts(source.Box())) ==>
      (Arrived(hash, source.Box(), target.home, target.tree) <==> Agreeing(BoxAttempts(source.Box())))
  {
    ghost var box, start := source.Box(), target.tree;
    hide ValidHash, TextBox, CollisionFree, Written, PutAll, UnpackOutcome, IndexBytes, IndexOf, MARKER, Holds,
        UniqueTools, Grouped, Packs, Arrived,
      Receives, AllBelow, Agreeing, BoxAttempts, RestoredLock, PackPlatforms, ParseLock, ParseProjectLock, FilesOf,
          Compatible, ProjectReady;
    var layout := new Layout();
    PackExact(hash, box);
    var failed := source.Pack(hash, layout);
    PackedHolds(hash, box);
    r := target.Unpack(hash, layout, pid);
    UnpackedResult(hash, box, layout.blobs, target, start, pid, r);
  }

  /** What an unpack of a packed layout comes to. */
  lemma UnpackedResult(hash: string -> string, box: Toolbox, blobs: Blobs, target: Root, start: Tree, pid: nat,
      r: Result<seq<LockedTool>, Error>)
    requires ValidHash(hash) && TextBox(box) && Packs(hash, box) && Holds(hash, blobs, Written(hash, box))
    requires Outcome(target.tree, r)
        == UnpackOutcome(hash, Some(MARKER), blobs, Some(IndexBytes(IndexOf(hash, box))), target.home, pid, start)
    ensures r.Ok? <==> UniqueTools(box) && Receives(start, target.home, pid, box)
    ensures AllBelow(BoxAttempts(box)) ==>
      (Receives(start, target.home, pid, box) <==>
       Compatible(BoxAttempts(box)) && ProjectReady(start, target.home, pid, RestoredLock(box)))
    ensures r.Ok? ==> r.value == Grouped(box) && target.Lock() == Some(r.value)
    ensures r.Ok? && RestoredLock(box).Some? ==> target.ProjectLock() == RestoredLock(box)
    ensures r.Ok? && AllBelow(BoxAttempts(box)) ==>
        (Arrived(hash, box, target.home, target.tree) <==> Agreeing(BoxAttempts(box)))
  {
    hide ValidHash, TextBox, Written, UnpackOutcome, IndexBytes, IndexOf, MARKER, Holds, UniqueTools, Grouped, Packs,
        Arrived, Receives, IsInstalled,
      AllBelow, Agreeing, BoxAttempts, RestoredLock, ParseLock, ParseProjectLock, Compatible, ProjectReady;
    PackedOutcome(hash, box, blobs, target.home, pid, start);
    if AllBelow(BoxAttempts(box)) { BelowReceives(start, target.home, pid, box); }
    if r.Ok? {
      LocksRead(hash, box, target, start, pid);
      if AllBelow(BoxAttempts(box)) { ArrivedExact(hash, target.tree, start, target.home, pid, box); }
    }
  }
}
