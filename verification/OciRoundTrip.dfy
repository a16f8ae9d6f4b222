/** What packing writes, in closed form, and that unpacking gives the toolbox back. */
module OciRoundTrip {
  import opened Wrappers
  import opened Text
  import opened Json
  import opened OciDocs
  import opened Oci
  import opened FileTree
  import opened ToolPaths
  import Shell

  // ---------------------------------------------------------------- What packing writes

  function Content(box: Toolbox, t: LockedTool): string {
    if t.path in box.files then box.files[t.path] else ""
  }

  function Contents(box: Toolbox, tools: seq<LockedTool>): (r: seq<string>)
    ensures |r| == |tools| && forall i :: 0 <= i < |tools| ==> r[i] == Content(box, tools[i])
  {
    seq(|tools|, i requires 0 <= i < |tools| => Content(box, tools[i]))
  }

  function LayersOf(hash: string -> string, box: Toolbox, tools: seq<LockedTool>): (r: seq<Descriptor>)
    ensures |r| == |tools| && forall i :: 0 <= i < |tools| ==> r[i] == Layer(hash, tools[i], Content(box, tools[i]))
  {
    seq(|tools|, i requires 0 <= i < |tools| => Layer(hash, tools[i], Content(box, tools[i])))
  }

  function ManifestOf(hash: string -> string, box: Toolbox, p: Platform): Manifest {
    ManifestFor(hash, ConfigFor(box, p), LayersOf(hash, box, ToolsFor(box.tools, p)))
  }

  /** The blobs of one platform in the order they are written; the manifest comes last. */
  function WrittenFor(hash: string -> string, box: Toolbox, p: Platform): seq<string> {
    var tools := ToolsFor(box.tools, p);
    if tools == [] then []
    else [ConfigFor(box, p)] + Contents(box, tools) + [ManifestBytes(ManifestOf(hash, box, p))]
  }

  function Written(hash: string -> string, box: Toolbox): seq<string> {
    WrittenFor(hash, box, LinuxAmd64) + WrittenFor(hash, box, LinuxArm64)
  }

  function DescriptorsFor(hash: string -> string, box: Toolbox, p: Platform): seq<Descriptor> {
    if ToolsFor(box.tools, p) == [] then []
    else [BlobDescriptor(hash, ManifestBytes(ManifestOf(hash, box, p)), MANIFEST_TYPE).(platform := Some(ToOci(p)))]
  }

  function IndexOf(hash: string -> string, box: Toolbox): Index {
    IndexFor(DescriptorsFor(hash, box, LinuxAmd64) + DescriptorsFor(hash, box, LinuxArm64))
  }

  /** The checks `pack` makes on a tool. */
  predicate Packable(hash: string -> string, files: map<string, string>, t: LockedTool) {
    Shell.ToolName(t.name).Some? && t.path in files && hash(files[t.path]) == t.sha256
  }

  predicate AllPackable(hash: string -> string, files: map<string, string>, tools: seq<LockedTool>) {
    forall t :: t in tools ==> Packable(hash, files, t)
  }

  lemma AllPackableSnoc(hash: string -> string, files: map<string, string>, tools: seq<LockedTool>)
    requires tools != []
    ensures AllPackable(hash, files, tools)
       <==> AllPackable(hash, files, tools[..|tools| - 1]) && Packable(hash, files, tools[|tools| - 1])
  {
    hide Packable;
    assert tools == tools[..|tools| - 1] + [tools[|tools| - 1]];
  }

  lemma PackToolExact(hash: string -> string, box: Toolbox, t: LockedTool, s: Layers)
    requires s.failed.None?
    ensures PackTool(hash, box.files, t, s).failed.None? <==> Packable(hash, box.files, t)
    ensures Packable(hash, box.files, t) ==>
      PackTool(hash, box.files, t, s)
      == Layers(Put(hash, s.blobs, Content(box, t)), s.layers + [Layer(hash, t, Content(box, t))], None)
  {
    hide Shell.ToolName, Put, Layer;
  }

  lemma {:induction false} PackToolsExact(
    hash: string -> string, box: Toolbox, tools: seq<LockedTool>, blobs: Blobs)
    ensures PackTools(hash, box.files, tools, blobs).failed.None? <==> AllPackable(hash, box.files, tools)
    ensures AllPackable(hash, box.files, tools) ==>
      PackTools(hash, box.files, tools, blobs)
          == Layers(PutAll(hash, blobs, Contents(box, tools)), LayersOf(hash, box, tools), None)
  {
    hide Packable, PackTool, Layer, Content, Put;
    if tools != [] {
      var n := |tools| - 1;
      AllPackableSnoc(hash, box.files, tools);
      hide AllPackable;
      PackToolsExact(hash, box, tools[..n], blobs);
      PackToolExact(hash, box, tools[n], PackTools(hash, box.files, tools[..n], blobs).(failed := None));
      assert Contents(box, tools)[..n] == Contents(box, tools[..n]);
      assert LayersOf(hash, box, tools)
          == LayersOf(hash, box, tools[..n]) + [Layer(hash, tools[n], Content(box, tools[n]))];
    }
  }

  lemma PutEnds(hash: string -> string, blobs: Blobs, first: string, middle: seq<string>, last: string)
    ensures PutAll(hash, blobs, [first] + middle + [last])
         == Put(hash, PutAll(hash, Put(hash, blobs, first), middle), last)
  {
    hide Put;
    var all := [first] + middle + [last];
    assert all[..|all| - 1] == [first] + middle;
    PutAllAppend(hash, blobs, [first], middle);
    assert [first][..0] == [];
    assert PutAll(hash, blobs, []) == blobs;
  }

  lemma PackPlatformExact(hash: string -> string, box: Toolbox, p: Platform, s: Packing)
    requires s.failed.None?
    ensures PackPlatform(hash, box, p, s).failed.None? <==> AllPackable(hash, box.files, ToolsFor(box.tools, p))
    ensures AllPackable(hash, box.files, ToolsFor(box.tools, p)) ==>
      PackPlatform(hash, box, p, s)
      == Packing(PutAll(hash, s.blobs, WrittenFor(hash, box, p)), s.manifests + DescriptorsFor(hash, box, p), None)
  {
    var tools := ToolsFor(box.tools, p);
    var config := ConfigFor(box, p);
    assert tools == [] ==> AllPackable(hash, box.files, tools);
    assert tools == [] ==> PutAll(hash, s.blobs, []) == s.blobs;
    PackToolsExact(hash, box, tools, Put(hash, s.blobs, config));
    PutEnds(hash, s.blobs, config, Contents(box, tools), ManifestBytes(ManifestOf(hash, box, p)));
    hide PackTools, AllPackable, Put, PutAll, ManifestBytes, ConfigFor, Contents, LayersOf, ManifestFor, BlobDescriptor,
        ToolsFor;
  }

  /** The packing checks hold for every tool that is packed. */
  ghost predicate Packs(hash: string -> string, box: Toolbox) {
    forall p: Platform :: AllPackable(hash, box.files, ToolsFor(box.tools, p))
  }

  /** The packer as a whole: it succeeds exactly when every tool it packs checks out. */
  lemma PackExact(hash: string -> string, box: Toolbox)
    ensures PackPlatforms(hash, box, ALL).failed.None? <==> Packs(hash, box)
    ensures PackPlatforms(hash, box, ALL).failed.None? ==>
      PackPlatforms(hash, box, ALL)
          == Packing(PutAll(hash, map[], Written(hash, box)), IndexOf(hash, box).manifests, None)
  {
    hide PackPlatform, AllPackable, WrittenFor, DescriptorsFor, PutAll;
    var none := Packing(map[], [], None);
    assert ALL[..1] == [LinuxAmd64] && ALL[..2] == ALL && [LinuxAmd64][..0] == [];
    var first := PackPlatforms(hash, box, [LinuxAmd64]);
    assert first == PackPlatform(hash, box, LinuxAmd64, none) by {
      assert PackPlatforms(hash, box, []) == none;
    }
    PackPlatformExact(hash, box, LinuxAmd64, none);
    if first.failed.None? {
      PackPlatformExact(hash, box, LinuxArm64, first);
      PutAllAppend(hash, map[], WrittenFor(hash, box, LinuxAmd64), WrittenFor(hash, box, LinuxArm64));
      assert [] + DescriptorsFor(hash, box, LinuxAmd64) == DescriptorsFor(hash, box, LinuxAmd64);
    }
  }

  // ---------------------------------------------------------------- Reading it back

  /** A store from which everything written can be read. */
  predicate Holds(hash: string -> string, blobs: Blobs, items: seq<string>) {
    forall i :: 0 <= i < |items| ==> hash(items[i]) in blobs && blobs[hash(items[i])] == items[i]
  }

  lemma ReadBack(hash: string -> string, blobs: Blobs, bytes: string, d: Descriptor)
    requires IsHash(hash(bytes)) && d.digest == Digest(hash, bytes) && d.size == |bytes|
    requires hash(bytes) in blobs && blobs[hash(bytes)] == bytes
    ensures ReadBlob(hash, blobs, d) == Ok(bytes)
  {
    DigestHashes(hash, bytes);
  }

  lemma LayerAnnotations(hash: string -> string, t: LockedTool, bytes: string)
    ensures AnnotationOf(Layer(hash, t, bytes), NAME_KEY) == Some(t.name)
    ensures AnnotationOf(Layer(hash, t, bytes), VERSION_KEY) == Some(t.version)
  {
    var a := [Annotation(NAME_KEY, t.name), Annotation(VERSION_KEY, t.version)];
    assert NAME_KEY != VERSION_KEY by { assert NAME_KEY[17] == 'n' && VERSION_KEY[17] == 'v'; }
    assert a[..1] == [Annotation(NAME_KEY, t.name)];
    assert LastValue(a, VERSION_KEY) == Some(t.version);
    assert LastValue(a, NAME_KEY) == LastValue(a[..1], NAME_KEY);
  }

  /** The tools of a platform as unpacking takes them on. */
  function ToolsAttempts(box: Toolbox, p: Platform, tools: seq<LockedTool>): (r: seq<Attempt>)
    ensures |r| == |tools| && forall i :: 0 <= i < |tools| ==>
        r[i] == Attempt(p, tools[i].name, Some(Content(box, tools[i])))
  {
    seq(|tools|, i requires 0 <= i < |tools| => Attempt(p, tools[i].name, Some(Content(box, tools[i]))))
  }

  /** What staging them asks of the file system. */
  function ToolsOps(staging: Path, box: Toolbox, p: Platform, tools: seq<LockedTool>): seq<Op> {
    AttemptOps(staging, ToolsAttempts(box, p, tools))
  }

  /** What is remembered of tools staged one by one, none of them failing. */
  function RestoreTools(hash: string -> string, box: Toolbox, p: Platform, tools: seq<LockedTool>,
      s: Staged): (r: Staged)
    ensures r.failed == s.failed && r.lock == s.lock && r.platforms == s.platforms && r.tree == s.tree
  {
    if tools == [] then s
    else
      var t := tools[|tools| - 1];
      Install(hash, p, t.name, t.version, Content(box, t), RestoreTools(hash, box, p, tools[..|tools| - 1], s), s.tree)
  }

  predicate HasName(tools: seq<LockedTool>, n: string) {
    exists i :: 0 <= i < |tools| && tools[i].name == n
  }

  lemma {:induction false} RestoredIdentities(
    hash: string -> string, box: Toolbox, p: Platform, tools: seq<LockedTool>, s: Staged, n: string, q: Platform)
    ensures (n, Name(q)) in RestoreTools(hash, box, p, tools, s).identities
       <==> (n, Name(q)) in s.identities || (q == p && HasName(tools, n))
  {
    if tools != [] {
      var k := |tools| - 1;
      RestoredIdentities(hash, box, p, tools[..k], s, n, q);
      PlatformNames(p, q);
      hide Name, Content;
      assert HasName(tools, n) <==> HasName(tools[..k], n) || tools[k].name == n by {
        assert forall i :: 0 <= i < k ==> tools[..k][i] == tools[i];
      }
    }
  }

  predicate UniqueNames(tools: seq<LockedTool>) {
    forall i, j :: 0 <= i < j < |tools| ==> tools[i].name != tools[j].name
  }

  lemma UnpackLayerExact(
    hash: string -> string, blobs: Blobs, staging: Path, p: Platform, t: LockedTool, bytes: string, s: Staged)
    requires Shell.ToolName(t.name).Some? && IsHash(hash(bytes)) && hash(bytes) in blobs && blobs[hash(bytes)] == bytes
    requires s.failed.None?
    ensures var r := UnpackLayer(hash, blobs, staging, p, Layer(hash, t, bytes), s);
            var w := Perform(s.tree, ToolOps(staging, p, t.name, Some(bytes)));
            && (r.failed.None? <==> (t.name, Name(p)) !in s.identities && w.ok)
            && (r.failed.None? ==> r == Install(hash, p, t.name, t.version, bytes, s, w.tree))
  {
    LayerAnnotations(hash, t, bytes);
    ReadBack(hash, blobs, bytes, Layer(hash, t, bytes));
    hide AnnotationOf, ReadBlob, IsHash, Name, TOOL_TYPE, NAME_KEY, VERSION_KEY, Install, Digest, Shell.ToolName;
    ToolPerformed(staging, p, t.name, bytes, s.tree);
    hide Perform, Do, MakeOps, WriteOp, ToolOps;
  }

  lemma ToolPerformed(staging: Path, p: Platform, name: string, bytes: string, t: Tree)
    ensures var made := Perform(t, MakeOps(StagedBox(staging), [Folder(p)], name));
            Perform(t, ToolOps(staging, p, name, Some(bytes)))
            == if made.ok then Do(made.tree, WriteOp(StagedBox(staging), [Folder(p)], name, bytes)) else made
  {
    var make, write := MakeOps(StagedBox(staging), [Folder(p)], name),
        WriteOp(StagedBox(staging), [Folder(p)], name, bytes);
    PerformAppend(t, make, [write]);
    hide MakeOps, WriteOp, Perform, Do;
    PerformOne(Perform(t, make).tree, write);
  }

  lemma UniqueSnoc(tools: seq<LockedTool>)
    requires tools != []
    ensures UniqueNames(tools)
       <==> UniqueNames(tools[..|tools| - 1]) && !HasName(tools[..|tools| - 1], tools[|tools| - 1].name)
  {
    var n := |tools| - 1;
    assert forall i :: 0 <= i < n ==> tools[..n][i] == tools[i];
    if UniqueNames(tools[..n]) && !HasName(tools[..n], tools[n].name) {
      forall i, j | 0 <= i < j < |tools| ensures tools[i].name != tools[j].name {
        assert tools[..n][i].name != tools[n].name;
        if j < n { assert tools[..n][i].name != tools[..n][j].name; }
      }
    }
  }

  lemma ToolsPerformed(staging: Path, box: Toolbox, p: Platform, tools: seq<LockedTool>, t: Tree)
    requires tools != []
    ensures var n := |tools| - 1;
            var before := Perform(t, ToolsOps(staging, box, p, tools[..n]));
            Perform(t, ToolsOps(staging, box, p, tools))
            == if before.ok then Perform(before.tree, ToolOps(staging, p, tools[n].name, Some(Content(box, tools[n]))))
                else before
  {
    hide Perform, ToolOps, Content;
    var n := |tools| - 1;
    ToolsOpsSnoc(staging, box, p, tools);
    hide ToolsOps;
    PerformAppend(t, ToolsOps(staging, box, p, tools[..n]),
        ToolOps(staging, p, tools[n].name, Some(Content(box, tools[n]))));
  }

  lemma ToolsOpsSnoc(staging: Path, box: Toolbox, p: Platform, tools: seq<LockedTool>)
    requires tools != []
    ensures var n := |tools| - 1;
            ToolsOps(staging, box, p, tools)
            == ToolsOps(staging, box, p, tools[..n]) + ToolOps(staging, p, tools[n].name, Some(Content(box, tools[n])))
  {
    hide ToolOps, Content;
    assert ToolsAttempts(box, p, tools)[..|tools| - 1] == ToolsAttempts(box, p, tools[..|tools| - 1]);
  }

  lemma HeldPrefix(hash: string -> string, box: Toolbox, blobs: Blobs, tools: seq<LockedTool>)
    requires tools != [] && ValidHash(hash) && Holds(hash, blobs, Contents(box, tools))
    ensures Holds(hash, blobs, Contents(box, tools[..|tools| - 1]))
    ensures var c := Content(box, tools[|tools| - 1]); IsHash(hash(c)) && hash(c) in blobs && blobs[hash(c)] == c
  {
    hide Content, IsHash;
    var n := |tools| - 1;
    var all := Contents(box, tools);
    assert all[n] == Content(box, tools[n]);
    assert forall i :: 0 <= i < n ==> all[i] == Contents(box, tools[..n])[i];
    assert IsHash(hash(all[n]));
  }

  lemma UnpackLayersLast(hash: string -> string, blobs: Blobs, staging: Path, p: Platform, layers: seq<Descriptor>,
      s: Staged)
    requires layers != []
    ensures var n := |layers| - 1;
            var before := UnpackLayers(hash, blobs, staging, p, layers[..n], s);
            UnpackLayers(hash, blobs, staging, p, layers, s)
            == if before.failed.Some? then before else UnpackLayer(hash, blobs, staging, p, layers[n], before)
  {
    hide UnpackLayer;
  }

  /** The layers of one platform unpack exactly when no name repeats and the file system takes every one. */
  lemma {:induction false} UnpackLayersExact(
    hash: string -> string, box: Toolbox, blobs: Blobs, staging: Path, p: Platform, tools: seq<LockedTool>, s: Staged)
    requires ValidHash(hash) && AllPackable(hash, box.files, tools) && Holds(hash, blobs, Contents(box, tools))
    requires s.failed.None? && forall n: string :: (n, Name(p)) !in s.identities
    ensures var r := UnpackLayers(hash, blobs, staging, p, LayersOf(hash, box, tools), s);
            && (r.failed.None? <==> UniqueNames(tools) && Perform(s.tree, ToolsOps(staging, box, p, tools)).ok)
            && (r.failed.None? ==>
                r == RestoreTools(hash, box, p, tools,
                    s).(tree := Perform(s.tree, ToolsOps(staging, box, p, tools)).tree))
  {
    hide Layer, AllPackable, Holds, ValidHash, Name, Content, UnpackLayer, HasName, Perform, ToolOps, Packable,
        UniqueNames, IsHash, AttemptOps, ToolPath,
      Contents;
    if tools != [] {
      var n := |tools| - 1;
      var t := tools[n];
      LayersFront(hash, box, tools);
      AllPackableSnoc(hash, box.files, tools);
      HeldPrefix(hash, box, blobs, tools);
      PackableName(hash, box.files, t);
      var done := Perform(s.tree, ToolsOps(staging, box, p, tools[..n])).tree;
      var before := RestoreTools(hash, box, p, tools[..n], s).(tree := done);
      UnpackLayerExact(hash, blobs, staging, p, t, Content(box, t), before);
      UnpackLayersExact(hash, box, blobs, staging, p, tools[..n], s);
      UniqueSnoc(tools);
      ToolsPerformed(staging, box, p, tools, s.tree);
      RestoredIdentities(hash, box, p, tools[..n], s, t.name, p);
      UnpackLayersLast(hash, blobs, staging, p, LayersOf(hash, box, tools), s);
      hide UnpackLayers, LayersOf, ToolsOps;
    } else {
      NoLayers(hash, box, blobs, staging, p, s);
    }
  }

  lemma LayersFront(hash: string -> string, box: Toolbox, tools: seq<LockedTool>)
    requires tools != []
    ensures var n := |tools| - 1;
            && LayersOf(hash, box, tools)[..n] == LayersOf(hash, box, tools[..n])
            && LayersOf(hash, box, tools)[n] == Layer(hash, tools[n], Content(box, tools[n]))
  {
    hide Layer, Content;
  }

  lemma PackableName(hash: string -> string, files: map<string, string>, t: LockedTool)
    requires Packable(hash, files, t)
    ensures Shell.ToolName(t.name).Some?
  {
  }

  lemma NoLayers(hash: string -> string, box: Toolbox, blobs: Blobs, staging: Path, p: Platform, s: Staged)
    ensures UniqueNames([]) && Perform(s.tree, ToolsOps(staging, box, p, [])) == Performed(s.tree, true)
    ensures UnpackLayers(hash, blobs, staging, p, LayersOf(hash, box, []), s) == s &&
        RestoreTools(hash, box, p, [], s) == s
  {
    PerformNone(s.tree);
  }

  lemma PerformNone(t: Tree)
    ensures Perform(t, []) == Performed(t, true)
  {
  }

  // ---------------------------------------------------------------- Documents

  /** The strings of a toolbox are text, and its lock is a JSON object. */
  predicate TextBox(box: Toolbox) {
    && (forall t :: t in box.tools ==> ValidUtf8(t.name) && ValidUtf8(t.version))
    && (box.projectLock.Some? ==> box.projectLock.value.JObj? && WellFormed(box.projectLock.value))
  }

  lemma JoinedIsText(a: string, b: string)
    requires Ascii(a) && Ascii(b)
    ensures ValidUtf8(a + b)
  {
    AsciiIsUtf8(a + b);
  }

  lemma MediaTypesAreText()
    ensures ValidUtf8(INDEX_TYPE) && ValidUtf8(MANIFEST_TYPE) && ValidUtf8(CONFIG_TYPE) && ValidUtf8(TOOL_TYPE)
  {
    ImageTypesAreText();
    ToolboxTypesAreText();
    hide ValidUtf8, INDEX_TYPE, MANIFEST_TYPE, CONFIG_TYPE, TOOL_TYPE;
  }

  lemma ImageTypesAreText()
    ensures ValidUtf8(INDEX_TYPE) && ValidUtf8(MANIFEST_TYPE)
  {
    hide ValidUtf8;
    JoinedIsText("application/vnd.oci", ".image.index.v1+json");
    JoinedIsText("application/vnd.oci", ".image.manifest.v1+json");
  }

  lemma ToolboxTypesAreText()
    ensures ValidUtf8(CONFIG_TYPE) && ValidUtf8(TOOL_TYPE)
  {
    hide ValidUtf8;
    JoinedIsText("application/vnd.binport", ".toolbox.config.v1+json");
    JoinedIsText("application/vnd.binport", ".tool.v1");
  }

  lemma KeysAreText()
    ensures ValidUtf8(NAME_KEY) && ValidUtf8(VERSION_KEY)
  {
    hide ValidUtf8;
    assert Ascii(NAME_KEY) && Ascii(VERSION_KEY);
    AsciiIsUtf8(NAME_KEY);
    AsciiIsUtf8(VERSION_KEY);
  }

  lemma PlatformIsText(p: Platform)
    ensures ValidUtf8(Name(p)) && ValidUtf8(Architecture(p)) && ValidUtf8("linux")
  {
    hide ValidUtf8;
    assert Ascii("linux/") && Ascii("linux") && Ascii(Architecture(p));
    AsciiIsUtf8("linux");
    AsciiIsUtf8(Architecture(p));
    JoinedIsText("linux/", Architecture(p));
  }

  lemma DigestIsText(hash: string -> string, bytes: string)
    requires IsHash(hash(bytes))
    ensures ValidUtf8(Digest(hash, bytes))
  {
    hide ValidUtf8;
    assert Ascii("sha256:") && Ascii(hash(bytes));
    AsciiIsUtf8(Digest(hash, bytes));
  }

  lemma BlobIsGood(hash: string -> string, bytes: string, mediaType: string)
    requires IsHash(hash(bytes)) && ValidUtf8(mediaType)
    ensures GoodDescriptor(BlobDescriptor(hash, bytes, mediaType))
  {
    DigestIsText(hash, bytes);
    hide ValidUtf8, Digest;
  }

  lemma LayersAreGood(hash: string -> string, box: Toolbox, tools: seq<LockedTool>)
    requires ValidHash(hash) && forall t :: t in tools ==> ValidUtf8(t.name) && ValidUtf8(t.version)
    ensures GoodDescriptors(LayersOf(hash, box, tools))
  {
    KeysAreText();
    MediaTypesAreText();
    hide ValidUtf8, Content, TOOL_TYPE, NAME_KEY, VERSION_KEY;
    forall i | 0 <= i < |tools| ensures GoodDescriptor(LayersOf(hash, box, tools)[i]) {
      assert IsHash(hash(Content(box, tools[i])));
      BlobIsGood(hash, Content(box, tools[i]), TOOL_TYPE);
      hide Digest, IsHash, ValidHash;
    }
  }

  lemma ManifestReads(hash: string -> string, box: Toolbox, p: Platform)
    requires ValidHash(hash) && TextBox(box)
    ensures ParseManifest(ManifestBytes(ManifestOf(hash, box, p))) == Some(ManifestOf(hash, box, p))
    ensures ParseDocument(ManifestBytes(ManifestOf(hash, box, p))) == Some(Document(MANIFEST_TYPE, [],
        Some(PlainOf(ManifestOf(hash, box, p).config)), PlainAll(ManifestOf(hash, box, p).layers)))
  {
    MediaTypesAreText();
    var config := ConfigFor(box, p);
    assert IsHash(hash(config));
    hide ValidUtf8, ConfigFor, INDEX_TYPE, MANIFEST_TYPE, CONFIG_TYPE, TOOL_TYPE, WellFormed;
    BlobIsGood(hash, config, CONFIG_TYPE);
    LayersAreGood(hash, box, ToolsFor(box.tools, p));
    hide GoodDescriptor, GoodDescriptors, BlobDescriptor, LayersOf, PlainOf, PlainAll, ToolsFor;
    hide ManifestBytes, ParseManifest, ParseDocument;
    ManifestBytesRoundTrip(ManifestOf(hash, box, p));
  }

  lemma ConfigReads(box: Toolbox, p: Platform)
    requires TextBox(box)
    ensures ParseConfig(ConfigFor(box, p)) == Some(Config(1, Name(p), box.projectLock))
  {
    PlatformIsText(p);
    hide ValidUtf8, Name, WellFormed;
    ConfigBytesRoundTrip(Config(1, Name(p), box.projectLock));
  }

  lemma DescriptorsAreGood(hash: string -> string, box: Toolbox, p: Platform)
    requires ValidHash(hash)
    ensures GoodDescriptors(DescriptorsFor(hash, box, p))
  {
    hide ValidUtf8, ManifestBytes, ManifestOf, INDEX_TYPE, MANIFEST_TYPE, CONFIG_TYPE, TOOL_TYPE, Digest, ToolsFor,
        Architecture, IsHash;
    var bytes := ManifestBytes(ManifestOf(hash, box, p));
    assert IsHash(hash(bytes));
    hide ValidHash;
    MediaTypesAreText();
    PlatformIsText(p);
    BlobIsGood(hash, bytes, MANIFEST_TYPE);
  }

  lemma IndexReads(hash: string -> string, box: Toolbox)
    requires ValidHash(hash)
    ensures ParseIndex(IndexBytes(IndexOf(hash, box))) == Some(IndexOf(hash, box))
    ensures ParseDocument(IndexBytes(IndexOf(hash, box)))
         == Some(Document(INDEX_TYPE, PlainAll(IndexOf(hash, box).manifests), None, []))
  {
    DescriptorsAreGood(hash, box, LinuxAmd64);
    DescriptorsAreGood(hash, box, LinuxArm64);
    MediaTypesAreText();
    hide ValidUtf8, INDEX_TYPE, MANIFEST_TYPE, CONFIG_TYPE, TOOL_TYPE, GoodDescriptor, DescriptorsFor;
    assert GoodDescriptors(IndexOf(hash, box).manifests);
    hide GoodDescriptors, IndexBytes, ParseIndex, ParseDocument, PlainAll;
    IndexBytesRoundTrip(IndexOf(hash, box));
  }

  lemma MarkerIsText()
    ensures WellFormed(JObj([Field("imageLayoutVersion", JStr("1.0.0"))]))
  {
    hide ValidUtf8;
    assert Ascii("imageLayoutVersion") && Ascii("1.0.0");
    AsciiIsUtf8("imageLayoutVersion");
    AsciiIsUtf8("1.0.0");
  }

  lemma MarkerParses()
    ensures Parse(MARKER) == Some(JObj([Field("imageLayoutVersion", JStr("1.0.0"))]))
  {
    hide WellFormed, ParseValue, Print;
    MarkerIsText();
    ValueRoundTrip(JObj([Field("imageLayoutVersion", JStr("1.0.0"))]), Compact, 0, "\n");
  }

  lemma MarkerReads()
    ensures ValidMarker(MARKER)
  {
    hide Parse, MARKER, Depth, ReadValue;
    MarkerParses();
    ReadValueWithin(MARKER);
    MarkerDepth();
  }

  lemma MarkerDepth()
    ensures Depth(JObj([Field("imageLayoutVersion", JStr("1.0.0"))])) == 1
  {
    var f := [Field("imageLayoutVersion", JStr("1.0.0"))];
    assert f[1..] == [] && Depth(f[0].value) == 0;
    assert FieldsDepth(f[1..]) == 0;
  }

  // ---------------------------------------------------------------- Pack, then unpack

  function JoinedLock(box: Toolbox, s: Staged): Option<Json> {
    if box.projectLock.Some? then box.projectLock else s.lock
  }

  /** The configuration and the manifest of a platform can be read, whatever became of its tools. */
  predicate EndsHeld(hash: string -> string, box: Toolbox, blobs: Blobs, p: Platform) {
    Holds(hash, blobs, [ConfigFor(box, p), ManifestBytes(ManifestOf(hash, box, p))])
  }

  lemma HeldEnds(hash: string -> string, box: Toolbox, blobs: Blobs, p: Platform)
    requires ToolsFor(box.tools, p) != [] && Holds(hash, blobs, WrittenFor(hash, box, p))
    ensures EndsHeld(hash, box, blobs, p)
  {
    hide ManifestBytes, ConfigFor, ToolsFor, ManifestOf, Contents;
    var w := WrittenFor(hash, box, p);
    assert w[0] == ConfigFor(box, p) && w[|w| - 1] == ManifestBytes(ManifestOf(hash, box, p));
  }

  lemma EndsRead(hash: string -> string, box: Toolbox, blobs: Blobs, p: Platform)
    requires ValidHash(hash) && EndsHeld(hash, box, blobs, p)
    ensures var c := ConfigFor(box, p); IsHash(hash(c)) && hash(c) in blobs && blobs[hash(c)] == c
    ensures var m := ManifestBytes(ManifestOf(hash, box, p)); IsHash(hash(m)) && hash(m) in blobs && blobs[hash(m)] == m
  {
    hide ManifestBytes, ConfigFor, ManifestOf, IsHash;
    var w := [ConfigFor(box, p), ManifestBytes(ManifestOf(hash, box, p))];
    assert IsHash(hash(w[0])) && IsHash(hash(w[1]));
  }

  lemma ManifestAtExact(hash: string -> string, box: Toolbox, blobs: Blobs, p: Platform)
    requires ValidHash(hash) && TextBox(box) && ToolsFor(box.tools, p) != [] && EndsHeld(hash, box, blobs, p)
    ensures ManifestAt(hash, blobs, DescriptorsFor(hash, box, p)[0]) == Ok(ManifestOf(hash, box, p))
  {
    EndsRead(hash, box, blobs, p);
    ManifestReads(hash, box, p);
    var m := ManifestBytes(ManifestOf(hash, box, p));
    hide ManifestBytes, ParseManifest, ParseDocument, EndsHeld, ValidHash, TextBox, Holds, ToolsFor, IsHash, LayersOf,
        ConfigFor;
    ReadBack(hash, blobs, m, DescriptorsFor(hash, box, p)[0]);
    hide ReadBlob, MANIFEST_TYPE, DescriptorsFor;
  }

  lemma ConfigAtExact(hash: string -> string, box: Toolbox, blobs: Blobs, p: Platform)
    requires ValidHash(hash) && TextBox(box) && ToolsFor(box.tools, p) != [] && EndsHeld(hash, box, blobs, p)
    ensures ConfigAt(hash, blobs, p, ManifestOf(hash, box, p).config) == Ok(Config(1, Name(p), box.projectLock))
  {
    EndsRead(hash, box, blobs, p);
    ConfigReads(box, p);
    hide ConfigFor, ParseConfig, EndsHeld, ValidHash, TextBox, Holds, ToolsFor, IsHash, LayersOf, CONFIG_TYPE, Name;
    ReadBack(hash, blobs, ConfigFor(box, p), ManifestOf(hash, box, p).config);
    hide ReadBlob, ManifestOf;
  }

  lemma OpenExact(hash: string -> string, box: Toolbox, blobs: Blobs, p: Platform, s: Staged)
    requires ValidHash(hash) && TextBox(box) && ToolsFor(box.tools, p) != [] && EndsHeld(hash, box, blobs, p)
    requires Name(p) !in s.platforms && (s.lock == None || s.lock == box.projectLock)
    ensures OpenManifest(hash, blobs, DescriptorsFor(hash, box, p)[0], s)
        == Ok((p, ManifestOf(hash, box, p), JoinedLock(box, s)))
  {
    PlatformNames(p, p);
    ManifestAtExact(hash, box, blobs, p);
    ConfigAtExact(hash, box, blobs, p);
    assert DescriptorsFor(hash, box, p)[0].platform == Some(ToOci(p));
    hide DescriptorsFor, ManifestOf, ManifestAt, ConfigAt, EndsHeld, ValidHash, TextBox, Holds, ToolsFor, FromOci, Name,
        ToOci;
  }

  lemma HeldContents(hash: string -> string, box: Toolbox, blobs: Blobs, p: Platform)
    requires ToolsFor(box.tools, p) != [] && Holds(hash, blobs, WrittenFor(hash, box, p))
    ensures Holds(hash, blobs, Contents(box, ToolsFor(box.tools, p)))
  {
    hide ConfigFor, ManifestBytes, ManifestOf, ToolsFor, Content;
    var w := WrittenFor(hash, box, p);
    var c := Contents(box, ToolsFor(box.tools, p));
    forall i | 0 <= i < |c| ensures hash(c[i]) in blobs && blobs[hash(c[i])] == c[i] {
      assert w[i + 1] == c[i];
    }
  }

  function PlatformOps(staging: Path, box: Toolbox, p: Platform): seq<Op> {
    ToolsOps(staging, box, p, ToolsFor(box.tools, p))
  }

  function BoxAttempts(box: Toolbox): seq<Attempt> {
    ToolsAttempts(box, LinuxAmd64, ToolsFor(box.tools, LinuxAmd64)) +
        ToolsAttempts(box, LinuxArm64, ToolsFor(box.tools, LinuxArm64))
  }

  /** Everything that staging a toolbox asks of the file system. */
  function BoxOps(staging: Path, box: Toolbox): seq<Op> {
    AttemptOps(staging, BoxAttempts(box))
  }

  /** What unpacking one platform's manifest stages. */
  function RestorePlatform(hash: string -> string, box: Toolbox, staging: Path, p: Platform, s: Staged): (r: Staged)
    ensures r.tree == Perform(s.tree, PlatformOps(staging, box, p)).tree
  {
    var tools := ToolsFor(box.tools, p);
    if tools == [] then s
    else
      RestoreTools(hash, box, p, tools, s.(platforms := s.platforms + {Name(p)}, lock := JoinedLock(box, s)))
        .(tree := Perform(s.tree, PlatformOps(staging, box, p)).tree)
  }

  lemma UnpackPlatformExact(hash: string -> string, box: Toolbox, blobs: Blobs, staging: Path, p: Platform, s: Staged)
    requires ValidHash(hash) && TextBox(box) && ToolsFor(box.tools, p) != [] &&
        Holds(hash, blobs, WrittenFor(hash, box, p))
    requires AllPackable(hash, box.files, ToolsFor(box.tools, p))
    requires Name(p) !in s.platforms && (s.lock == None || s.lock == box.projectLock)
    requires s.failed.None? && forall n: string :: (n, Name(p)) !in s.identities
    ensures var r := UnpackManifest(hash, blobs, staging, DescriptorsFor(hash, box, p)[0], s);
            && (r.failed.None? <==>
                UniqueNames(ToolsFor(box.tools, p)) && Perform(s.tree, PlatformOps(staging, box, p)).ok)
            && (r.failed.None? ==> r == RestorePlatform(hash, box, staging, p, s))
  {
    HeldEnds(hash, box, blobs, p);
    OpenExact(hash, box, blobs, p, s);
    HeldContents(hash, box, blobs, p);
    var tools := ToolsFor(box.tools, p);
    var from := s.(platforms := s.platforms + {Name(p)}, lock := JoinedLock(box, s));
    hide OpenManifest, Holds, EndsHeld, WrittenFor, ValidHash, TextBox, DescriptorsFor, AllPackable, JoinedLock, Name,
        UniqueNames, ToolsFor;
    UnpackLayersExact(hash, box, blobs, staging, p, tools, from);
    hide RestoreTools, UnpackLayers, LayersOf, Perform, ToolsOps;
  }

  /** No tool name occurs twice for one platform. */
  predicate UniqueTools(box: Toolbox) {
    UniqueNames(ToolsFor(box.tools, LinuxAmd64)) && UniqueNames(ToolsFor(box.tools, LinuxArm64))
  }

  function RestoreAll(hash: string -> string, box: Toolbox, staging: Path, start: Tree): Staged {
    RestorePlatform(hash, box, staging, LinuxArm64, RestorePlatform(hash, box, staging, LinuxAmd64, Unstarted(start)))
  }

  lemma AfterPlatform(hash: string -> string, box: Toolbox, staging: Path, p: Platform, q: Platform, start: Tree)
    requires p != q
    ensures var s := RestorePlatform(hash, box, staging, p, Unstarted(start));
            && Name(q) !in s.platforms && (s.lock == None || s.lock == box.projectLock) && s.failed.None?
            && forall n: string :: (n, Name(q)) !in s.identities
  {
    PlatformNames(p, q);
    var none := Unstarted(start);
    var s := RestorePlatform(hash, box, staging, p, none);
    var tools := ToolsFor(box.tools, p);
    hide Name, ToolsFor, Perform, PlatformOps;
    forall n: string ensures (n, Name(q)) !in s.identities {
      RestoredIdentities(hash, box, p, tools,
          none.(platforms := none.platforms + {Name(p)}, lock := JoinedLock(box, none)), n, q);
      hide RestoreTools;
    }
  }

  lemma UnpackOne(hash: string -> string, blobs: Blobs, staging: Path, start: Tree, before: seq<Descriptor>,
      d: Descriptor)
    ensures var s := UnpackManifests(hash, blobs, staging, start, before);
            UnpackManifests(hash, blobs, staging, start, before + [d])
            == if s.failed.Some? then s else UnpackManifest(hash, blobs, staging, d, s)
  {
    hide UnpackManifest;
    var all := before + [d];
    assert all[..|all| - 1] == before;
  }

  lemma NoTools(staging: Path, box: Toolbox, p: Platform, t: Tree)
    requires ToolsFor(box.tools, p) == []
    ensures UniqueNames(ToolsFor(box.tools, p)) && Perform(t, PlatformOps(staging, box, p)) == Performed(t, true)
  {
    PerformNone(t);
  }

  lemma UnpackFirst(hash: string -> string, box: Toolbox, blobs: Blobs, staging: Path, start: Tree, p: Platform)
    requires ValidHash(hash) && TextBox(box) && AllPackable(hash, box.files, ToolsFor(box.tools, p))
    requires Holds(hash, blobs, WrittenFor(hash, box, p))
    ensures var r := UnpackManifests(hash, blobs, staging, start, DescriptorsFor(hash, box, p));
            && (r.failed.None? <==>
                UniqueNames(ToolsFor(box.tools, p)) && Perform(start, PlatformOps(staging, box, p)).ok)
            && (r.failed.None? ==> r == RestorePlatform(hash, box, staging, p, Unstarted(start)))
  {
    var ds := DescriptorsFor(hash, box, p);
    var tools := ToolsFor(box.tools, p);
    hide Holds, WrittenFor, ValidHash, TextBox, AllPackable, Name, ToolsFor, ManifestBytes, ManifestOf, Perform,
        PlatformOps;
    assert UnpackManifests(hash, blobs, staging, start, []) == Unstarted(start);
    if tools == [] {
      NoTools(staging, box, p, start);
    } else {
      hide UniqueNames;
      UnpackPlatformExact(hash, box, blobs, staging, p, Unstarted(start));
      assert ds == [] + [ds[0]];
      UnpackOne(hash, blobs, staging, start, [], ds[0]);
      hide UnpackManifest, UnpackManifests, RestorePlatform, DescriptorsFor;
    }
  }

  lemma UnpackBoth(hash: string -> string, box: Toolbox, blobs: Blobs, staging: Path, start: Tree)
    requires ValidHash(hash) && TextBox(box) &&
        forall p: Platform :: AllPackable(hash, box.files, ToolsFor(box.tools, p))
    requires Holds(hash, blobs, Written(hash, box))
    ensures var r := UnpackManifests(hash, blobs, staging, start, IndexOf(hash, box).manifests);
            && (r.failed.None? <==> UniqueTools(box) && Perform(start, BoxOps(staging, box)).ok)
            && (r.failed.None? ==>
                r == RestoreAll(hash, box, staging, start) && r.tree == Perform(start, BoxOps(staging, box)).tree)
  {
    var amd, arm := LinuxAmd64, LinuxArm64;
    SplitHolds(hash, blobs, WrittenFor(hash, box, amd), WrittenFor(hash, box, arm));
    assert AllPackable(hash, box.files, ToolsFor(box.tools, amd)) &&
        AllPackable(hash, box.files, ToolsFor(box.tools, arm));
    hide Holds, WrittenFor, ValidHash, TextBox, AllPackable, UniqueNames, ToolsFor, Perform, PlatformOps;
    PerformAppend(start, PlatformOps(staging, box, amd), PlatformOps(staging, box, arm));
    PlatformsOps(staging, box);
    hide BoxOps;
    UnpackFirst(hash, box, blobs, staging, start, amd);
    AfterPlatform(hash, box, staging, amd, arm, start);
    var first := DescriptorsFor(hash, box, amd);
    var second := DescriptorsFor(hash, box, arm);
    var s := RestorePlatform(hash, box, staging, amd, Unstarted(start));
    if ToolsFor(box.tools, arm) == [] {
      assert first + second == first;
      NoTools(staging, box, arm, s.tree);
      assert RestorePlatform(hash, box, staging, arm, s) == s;
      hide DescriptorsFor, UnpackManifests, RestorePlatform;
    } else {
      assert second == [second[0]];
      hide DescriptorsFor, RestorePlatform, Name;
      UnpackOne(hash, blobs, staging, start, first, second[0]);
      UnpackPlatformExact(hash, box, blobs, staging, arm, s);
      hide UnpackManifest, UnpackManifests;
    }
  }

  lemma PlatformsOps(staging: Path, box: Toolbox)
    ensures BoxOps(staging, box) == PlatformOps(staging, box, LinuxAmd64) + PlatformOps(staging, box, LinuxArm64)
  {
    AttemptOpsAppend(staging, ToolsAttempts(box, LinuxAmd64, ToolsFor(box.tools, LinuxAmd64)),
      ToolsAttempts(box, LinuxArm64, ToolsFor(box.tools, LinuxArm64)));
    hide AttemptOps, ToolsAttempts, ToolsFor;
  }

  lemma SplitHolds(hash: string -> string, blobs: Blobs, a: seq<string>, b: seq<string>)
    requires Holds(hash, blobs, a + b)
    ensures Holds(hash, blobs, a) && Holds(hash, blobs, b)
  {
    forall i | 0 <= i < |a| ensures hash(a[i]) in blobs && blobs[hash(a[i])] == a[i] {
      assert (a + b)[i] == a[i];
    }
    forall i | 0 <= i < |b| ensures hash(b[i]) in blobs && blobs[hash(b[i])] == b[i] {
      assert (a + b)[|a| + i] == b[i];
    }
  }

  // ---------------------------------------------------------------- What unpacking leaves

  /** A tool as `unpack` records it: only the path is its own. */
  function Moved(p: Platform, t: LockedTool): LockedTool {
    t.(path := ToolPath(p, t.name))
  }

  function MovedAll(p: Platform, tools: seq<LockedTool>): (r: seq<LockedTool>)
    ensures |r| == |tools| && forall i :: 0 <= i < |tools| ==> r[i] == Moved(p, tools[i])
  {
    seq(|tools|, i requires 0 <= i < |tools| => Moved(p, tools[i]))
  }

  lemma {:induction false} RestoredTools(hash: string -> string, box: Toolbox, p: Platform, tools: seq<LockedTool>,
      s: Staged)
    requires AllPackable(hash, box.files, tools) && forall i :: 0 <= i < |tools| ==> tools[i].platform == Name(p)
    ensures RestoreTools(hash, box, p, tools, s).tools == s.tools + MovedAll(p, tools)
  {
    if tools != [] {
      var n := |tools| - 1;
      AllPackableSnoc(hash, box.files, tools);
      assert forall i :: 0 <= i < n ==> tools[..n][i] == tools[i];
      hide AllPackable, Shell.ToolName, ToolPath, Name;
      RestoredTools(hash, box, p, tools[..n], s);
      assert MovedAll(p, tools) == MovedAll(p, tools[..n]) + [Moved(p, tools[n])];
    }
  }

  /** The tools, platform by platform in the packer's order, each keeping its order. */
  function Grouped(box: Toolbox): seq<LockedTool> {
    MovedAll(LinuxAmd64, ToolsFor(box.tools, LinuxAmd64)) + MovedAll(LinuxArm64, ToolsFor(box.tools, LinuxArm64))
  }

  lemma PlatformTools(hash: string -> string, box: Toolbox, staging: Path, p: Platform, s: Staged)
    requires AllPackable(hash, box.files, ToolsFor(box.tools, p))
    ensures var r := RestorePlatform(hash, box, staging, p, s);
            && r.tools == s.tools + MovedAll(p, ToolsFor(box.tools, p)) && r.failed == s.failed
            && r.lock == if ToolsFor(box.tools, p) == [] then s.lock else JoinedLock(box, s)
  {
    var tools := ToolsFor(box.tools, p);
    assert tools == [] ==> s.tools + MovedAll(p, tools) == s.tools;
    hide AllPackable, Name, Perform, ToolsOps;
    RestoredTools(hash, box, p, tools, s.(platforms := s.platforms + {Name(p)}, lock := JoinedLock(box, s)));
    hide RestoreTools, ToolsFor, Moved;
  }

  /**
   Pack, then unpack. From any store that still holds what was packed, a toolbox is staged exactly when no
   name repeats within a platform and its names ask for no path both as a file and as a directory; then
   every tool's name, version, platform and hash is back, grouped by platform in order, and the project
   lock when anything was packed, and the tree is the one the names ask for.
   */
  lemma PackUnpack(hash: string -> string, box: Toolbox, blobs: Blobs, staging: Path, start: Tree)
    requires ValidHash(hash) && TextBox(box) && Packs(hash, box) && Holds(hash, blobs, Written(hash, box))
    ensures var u := Unpacked(hash, Some(MARKER), blobs, Some(IndexBytes(IndexOf(hash, box))), staging, start);
            && (u.failed.None? <==> UniqueTools(box) && Consistent(start, BoxOps(staging, box)))
            && (u.failed.None? ==>
                && u.tools == Grouped(box)
                && u.lock == (if Grouped(box) == [] then None else box.projectLock)
                && u.tree == Perform(start, BoxOps(staging, box)).tree)
  {
    PackedManifests(hash, box);
    PerformExact(start, BoxOps(staging, box));
    hide Listed, IndexBytes, MARKER, Holds, Written, TextBox, ValidHash, Perform, Consistent, After, BoxOps;
    UnpackBoth(hash, box, blobs, staging, start);
    RestoredAll(hash, box, staging, start);
    hide UnpackManifests, AllPackable, UniqueTools, RestoreAll, Grouped;
  }

  /** The marker and the index that packing writes are the ones unpacking accepts. */
  lemma PackedManifests(hash: string -> string, box: Toolbox)
    requires ValidHash(hash)
    ensures Listed(Some(MARKER), Some(IndexBytes(IndexOf(hash, box)))) == Ok(IndexOf(hash, box).manifests)
  {
    hide ValidMarker, MARKER, ParseIndex, ParseDocument, IndexBytes, PlainAll, DescriptorsFor, INDEX_TYPE;
    MarkerReads();
    IndexReads(hash, box);
  }

  lemma RestoredAll(hash: string -> string, box: Toolbox, staging: Path, start: Tree)
    requires Packs(hash, box)
    ensures var r := RestoreAll(hash, box, staging, start);
            r.tools == Grouped(box) && r.lock == (if Grouped(box) == [] then None else box.projectLock) &&
                r.failed == None
  {
    assert AllPackable(hash, box.files, ToolsFor(box.tools, LinuxAmd64)) &&
        AllPackable(hash, box.files, ToolsFor(box.tools, LinuxArm64));
    hide AllPackable, ToolsFor, Moved, Perform, PlatformOps;
    PlatformTools(hash, box, staging, LinuxAmd64, Unstarted(start));
    PlatformTools(hash, box, staging, LinuxArm64, RestorePlatform(hash, box, staging, LinuxAmd64, Unstarted(start)));
    hide RestorePlatform;
    var amd := MovedAll(LinuxAmd64, ToolsFor(box.tools, LinuxAmd64));
    assert [] + amd == amd;
  }

  lemma PackedTool(hash: string -> string, box: Toolbox, p: Platform, t: LockedTool)
    requires Packs(hash, box) && t in ToolsFor(box.tools, p)
    ensures t.path in box.files && Content(box, t) == box.files[t.path] && hash(box.files[t.path]) == t.sha256
  {
    assert AllPackable(hash, box.files, ToolsFor(box.tools, p));
    assert Packable(hash, box.files, t);
    hide Shell.ToolName, ToolsFor;
  }
}
