/**
 Packing a toolbox into an OCI image layout and unpacking it again. The hash is a parameter: integrity
 needs nothing of it, and the round trip needs only that it tells the byte strings written apart.
 */
module Oci {
  import opened Wrappers
  import opened Text
  import opened Json
  import opened OciDocs
  import opened FileTree
  import opened ToolPaths
  import Shell

  // ---------------------------------------------------------------- Platforms

  datatype Platform = LinuxAmd64 | LinuxArm64

  const ALL: seq<Platform> := [LinuxAmd64, LinuxArm64]

  function Architecture(p: Platform): string {
    match p case LinuxAmd64 => "amd64" case LinuxArm64 => "arm64"
  }

  function Name(p: Platform): string {
    "linux/" + Architecture(p)
  }

  function ParsePlatform(s: string): Option<Platform> {
    if s == "linux/amd64" || s == "linux/x86_64" then Some(LinuxAmd64)
    else if s == "linux/arm64" || s == "linux/aarch64" then Some(LinuxArm64)
    else None
  }

  function ToOci(p: Platform): OciPlatform {
    OciPlatform("linux", Architecture(p))
  }

  function FromOci(o: OciPlatform): Option<Platform> {
    ParsePlatform(o.os + "/" + o.architecture)
  }

  lemma PlatformNames(p: Platform, q: Platform)
    ensures Name(p) == Name(q) <==> p == q
    ensures FromOci(ToOci(p)) == Some(p)
  {
    assert Name(LinuxAmd64)[7] == 'm' && Name(LinuxArm64)[7] == 'r';
    assert "linux" + "/" + "amd64" == "linux/amd64" && "linux" + "/" + "arm64" == "linux/arm64";
    assert "linux/arm64"[7] != "linux/amd64"[7] && |"linux/x86_64"| != |"linux/arm64"|;
  }

  // ---------------------------------------------------------------- Blobs

  datatype Error =
    | NoToolbox | AlreadyExists | UnsafeName | MissingFile | Checksum | BadLayout | BadIndex | NoPlatform
    | UnknownPlatform
    | DuplicatePlatform | BadDigest | MissingBlob | BlobMismatch | BadManifest | BadConfig | DifferentLocks | BadLayer
    | NoAnnotation | DuplicateTool | CannotWrite

  type Blobs = map<string, string>

  predicate IsHexChar(c: char) {
    IsDigit(c) || 'a' <= c <= 'f' || 'A' <= c <= 'F'
  }

  predicate IsHash(h: string) {
    |h| == 64 && forall i :: 0 <= i < |h| ==> IsHexChar(h[i])
  }

  ghost predicate ValidHash(hash: string -> string) {
    forall s: string :: IsHash(hash(s))
  }

  function DigestHash(digest: string): Option<string> {
    if |digest| >= 7 && digest[..7] == "sha256:" && IsHash(digest[7..]) then Some(digest[7..]) else None
  }

  function Digest(hash: string -> string, bytes: string): string {
    "sha256:" + hash(bytes)
  }

  lemma DigestHashes(hash: string -> string, bytes: string)
    requires IsHash(hash(bytes))
    ensures DigestHash(Digest(hash, bytes)) == Some(hash(bytes))
  {
  }

  predicate Verifies(hash: string -> string, bytes: string, d: Descriptor) {
    DigestHash(d.digest) == Some(hash(bytes)) && |bytes| == d.size
  }

  function ReadBlob(hash: string -> string, blobs: Blobs, d: Descriptor): (r: Result<string, Error>)
    ensures r.Ok? ==> Verifies(hash, r.value, d)
  {
    var h := DigestHash(d.digest);
    if h == None then Err(BadDigest)
    else if h.value !in blobs then Err(MissingBlob)
    else if !Verifies(hash, blobs[h.value], d) then Err(BlobMismatch)
    else Ok(blobs[h.value])
  }

  function BlobDescriptor(hash: string -> string, bytes: string, mediaType: string): Descriptor {
    Descriptor(mediaType, Digest(hash, bytes), |bytes|, None, [])
  }

  /** A blob is written only under a name that is not there yet. */
  function Put(hash: string -> string, blobs: Blobs, bytes: string): Blobs {
    if hash(bytes) in blobs then blobs else blobs[hash(bytes) := bytes]
  }

  function PutAll(hash: string -> string, blobs: Blobs, items: seq<string>): Blobs {
    if items == [] then blobs else Put(hash, PutAll(hash, blobs, items[..|items| - 1]), items[|items| - 1])
  }

  /** No two of the byte strings at hand share a hash. */
  ghost predicate CollisionFree(hash: string -> string, items: seq<string>) {
    forall i, j :: 0 <= i < |items| && 0 <= j < |items| && hash(items[i]) == hash(items[j]) ==> items[i] == items[j]
  }

  lemma {:induction false} PutAllAppend(hash: string -> string, blobs: Blobs, a: seq<string>, b: seq<string>)
    ensures PutAll(hash, blobs, a + b) == PutAll(hash, PutAll(hash, blobs, a), b)
    decreases |b|
  {
    if b == [] {
      assert a + b == a;
    } else {
      PutAllAppend(hash, blobs, a, b[..|b| - 1]);
      assert (a + b)[..|a + b| - 1] == a + b[..|b| - 1];
    }
  }

  /** Without collisions the store maps exactly the hashes of what was written to what was written. */
  lemma {:induction false} PutAllExact(hash: string -> string, items: seq<string>)
    requires CollisionFree(hash, items)
    ensures forall h :: h in PutAll(hash, map[], items) <==> exists i :: 0 <= i < |items| && hash(items[i]) == h
    ensures forall i :: 0 <= i < |items| ==> PutAll(hash, map[], items)[hash(items[i])] == items[i]
  {
    if items != [] {
      var n := |items| - 1;
      PutAllExact(hash, items[..n]);
      var before := PutAll(hash, map[], items[..n]);
      assert forall i :: 0 <= i < n ==> items[..n][i] == items[i];
      forall h | h in PutAll(hash, map[], items) ensures exists i :: 0 <= i < |items| && hash(items[i]) == h {
        if h in before {
          var i :| 0 <= i < n && hash(items[..n][i]) == h;
          assert hash(items[i]) == h;
        } else {
          assert hash(items[n]) == h;
        }
      }
    }
  }

  // ---------------------------------------------------------------- The toolbox

  /** An entry of `.binport/toolbox.json`. */
  datatype LockedTool = LockedTool(name: string, version: string, platform: string, sha256: string, path: string)

  /** What packing reads of a project: the tools, the files by path, and `Binport.lock` when it can be read. */
  datatype Toolbox = Toolbox(tools: seq<LockedTool>, files: map<string, string>, projectLock: Option<Json>)

  function ToolsFor(tools: seq<LockedTool>, p: Platform): (r: seq<LockedTool>)
    ensures forall i :: 0 <= i < |r| ==> r[i].platform == Name(p) && r[i] in tools
    ensures forall t :: t in tools && t.platform == Name(p) ==> t in r
  {
    if tools == [] then []
    else
      var rest := ToolsFor(tools[1..], p);
      if tools[0].platform == Name(p) then [tools[0]] + rest else rest
  }

  function Layer(hash: string -> string, tool: LockedTool, bytes: string): Descriptor {
    BlobDescriptor(hash, bytes, TOOL_TYPE)
      .(annotations := [Annotation(NAME_KEY, tool.name), Annotation(VERSION_KEY, tool.version)])
  }

  datatype Layers = Layers(blobs: Blobs, layers: seq<Descriptor>, failed: Option<Error>)

  function PackTool(hash: string -> string, files: map<string, string>, tool: LockedTool, s: Layers): Layers {
    if Shell.ToolName(tool.name) == None then s.(failed := Some(UnsafeName))
    else if tool.path !in files then s.(failed := Some(MissingFile))
    else if hash(files[tool.path]) != tool.sha256 then s.(failed := Some(Checksum))
    else Layers(Put(hash, s.blobs, files[tool.path]), s.layers + [Layer(hash, tool, files[tool.path])], None)
  }

  function PackTools(hash: string -> string, files: map<string, string>, tools: seq<LockedTool>, blobs: Blobs): Layers {
    if tools == [] then Layers(blobs, [], None)
    else
      var before := PackTools(hash, files, tools[..|tools| - 1], blobs);
      if before.failed.Some? then before else PackTool(hash, files, tools[|tools| - 1], before)
  }

  datatype Packing = Packing(blobs: Blobs, manifests: seq<Descriptor>, failed: Option<Error>)

  function ConfigFor(box: Toolbox, p: Platform): string {
    ConfigBytes(Config(1, Name(p), box.projectLock))
  }

  function ManifestFor(hash: string -> string, config: string, layers: seq<Descriptor>): Manifest {
    Manifest(2, MANIFEST_TYPE, BlobDescriptor(hash, config, CONFIG_TYPE), layers)
  }

  function PackPlatform(hash: string -> string, box: Toolbox, p: Platform, s: Packing): Packing {
    var tools := ToolsFor(box.tools, p);
    if tools == [] then s
    else
      var config := ConfigFor(box, p);
      var l := PackTools(hash, box.files, tools, Put(hash, s.blobs, config));
      if l.failed.Some? then Packing(l.blobs, s.manifests, l.failed)
      else
        var manifest := ManifestBytes(ManifestFor(hash, config, l.layers));
        var d := BlobDescriptor(hash, manifest, MANIFEST_TYPE).(platform := Some(ToOci(p)));
        Packing(Put(hash, l.blobs, manifest), s.manifests + [d], None)
  }

  function PackPlatforms(hash: string -> string, box: Toolbox, platforms: seq<Platform>): Packing {
    if platforms == [] then Packing(map[], [], None)
    else
      var before := PackPlatforms(hash, box, platforms[..|platforms| - 1]);
      if before.failed.Some? then before else PackPlatform(hash, box, platforms[|platforms| - 1], before)
  }

  function IndexFor(manifests: seq<Descriptor>): Index {
    Index(2, INDEX_TYPE, manifests)
  }

  /** The text of `oci-layout`, with its final line feed. */
  const MARKER: string := Print(JObj([Field("imageLayoutVersion", JStr("1.0.0"))]), Compact, 0) + "\n"

  /** A failing step ends the loop: what follows it changes nothing. */
  lemma {:induction false} FailureEndsTools(
    hash: string -> string, files: map<string, string>, tools: seq<LockedTool>, blobs: Blobs, k: nat)
    requires k <= |tools| && PackTools(hash, files, tools[..k], blobs).failed.Some?
    ensures PackTools(hash, files, tools, blobs) == PackTools(hash, files, tools[..k], blobs)
    decreases |tools| - k
  {
    if k == |tools| {
      assert tools[..k] == tools;
    } else {
      assert tools[..k + 1][..k] == tools[..k];
      FailureEndsTools(hash, files, tools, blobs, k + 1);
    }
  }

  lemma {:induction false} FailureEndsPlatforms(hash: string -> string, box: Toolbox, platforms: seq<Platform>, k: nat)
    requires k <= |platforms| && PackPlatforms(hash, box, platforms[..k]).failed.Some?
    ensures PackPlatforms(hash, box, platforms) == PackPlatforms(hash, box, platforms[..k])
    decreases |platforms| - k
  {
    if k == |platforms| {
      assert platforms[..k] == platforms;
    } else {
      assert platforms[..k + 1][..k] == platforms[..k];
      FailureEndsPlatforms(hash, box, platforms, k + 1);
    }
  }

  // ---------------------------------------------------------------- Unpacking

  datatype Staged = Staged(
    tools: seq<LockedTool>, tree: Tree, lock: Option<Json>,
    identities: set<(string, string)>, platforms: set<string>, failed: Option<Error>)

  function Unstarted(tree: Tree): Staged {
    Staged([], tree, None, {}, {}, None)
  }

  const TOOLBOX := ".binport/toolbox/"

  function Folder(p: Platform): string {
    "linux-" + Architecture(p)
  }

  /** The path recorded for a tool, below the project; an absolute name replaces what it is joined to. */
  function ToolPath(p: Platform, name: string): string {
    if Absolute(name) then name else TOOLBOX + Folder(p) + "/" + name
  }

  /** The directory the staged tools go to, and what staging one asks of the file system. */
  function StagedBox(staging: Path): Path {
    staging + ["toolbox"]
  }

  function ToolOps(staging: Path, p: Platform, name: string, bytes: Option<string>): seq<Op> {
    FileOps(StagedBox(staging), [Folder(p)], name, bytes)
  }

  /** A tool that passed every check before its directories are made; without bytes when its blob cannot be read. */
  datatype Attempt = Attempt(platform: Platform, name: string, bytes: Option<string>)

  function AttemptOps(staging: Path, a: seq<Attempt>): seq<Op> {
    if a == [] then []
    else
      var last := a[|a| - 1];
      AttemptOps(staging, a[..|a| - 1]) + ToolOps(staging, last.platform, last.name, last.bytes)
  }

  lemma {:induction false} AttemptOpsAppend(staging: Path, a: seq<Attempt>, b: seq<Attempt>)
    ensures AttemptOps(staging, a + b) == AttemptOps(staging, a) + AttemptOps(staging, b)
    decreases |b|
  {
    hide ToolOps;
    if b == [] {
      assert a + b == a;
    } else {
      AttemptOpsAppend(staging, a, b[..|b| - 1]);
      assert (a + b)[..|a + b| - 1] == a + b[..|b| - 1];
    }
  }

  /** The directories are made before the blob is read, the file is written after. */
  function UnpackLayer(hash: string -> string, blobs: Blobs, staging: Path, p: Platform, layer: Descriptor,
      s: Staged): Staged {
    var name := AnnotationOf(layer, NAME_KEY);
    var version := AnnotationOf(layer, VERSION_KEY);
    if layer.mediaType != TOOL_TYPE then s.(failed := Some(BadLayer))
    else if name == None || version == None then s.(failed := Some(NoAnnotation))
    else if Shell.ToolName(name.value) == None then s.(failed := Some(UnsafeName))
    else if (name.value, Name(p)) in s.identities then s.(failed := Some(DuplicateTool))
    else
      var made := Perform(s.tree, MakeOps(StagedBox(staging), [Folder(p)], name.value));
      var bytes := ReadBlob(hash, blobs, layer);
      if !made.ok then s.(tree := made.tree, failed := Some(CannotWrite))
      else if bytes.Err? then s.(tree := made.tree, failed := Some(bytes.error))
      else
        var written := Do(made.tree, WriteOp(StagedBox(staging), [Folder(p)], name.value, bytes.value));
        if !written.ok then s.(tree := written.tree, failed := Some(CannotWrite))
        else Install(hash, p, name.value, version.value, bytes.value, s, written.tree)
  }

  function Install(
    hash: string -> string, p: Platform, name: string, version: string, bytes: string, s: Staged, tree: Tree): Staged
  {
    s.(tools := s.tools + [LockedTool(name, version, Name(p), hash(bytes), ToolPath(p, name))],
       tree := tree,
       identities := s.identities + {(name, Name(p))})
  }

  function UnpackLayers(
    hash: string -> string, blobs: Blobs, staging: Path, p: Platform, layers: seq<Descriptor>, s: Staged): Staged
  {
    if layers == [] then s
    else
      var before := UnpackLayers(hash, blobs, staging, p, layers[..|layers| - 1], s);
      if before.failed.Some? then before else UnpackLayer(hash, blobs, staging, p, layers[|layers| - 1], before)
  }

  /** The manifest behind a descriptor, verified and parsed. */
  function ManifestAt(hash: string -> string, blobs: Blobs, d: Descriptor): Result<Manifest, Error> {
    var bytes :- ReadBlob(hash, blobs, d);
    var m := ParseManifest(bytes);
    if m == None || m.value.schemaVersion != 2 || m.value.mediaType != MANIFEST_TYPE then Err(BadManifest)
    else Ok(m.value)
  }

  function ConfigAt(hash: string -> string, blobs: Blobs, p: Platform, d: Descriptor): Result<Config, Error> {
    var bytes :- ReadBlob(hash, blobs, d);
    var c := ParseConfig(bytes);
    if c == None || c.value.format != 1 || c.value.platform != Name(p) then Err(BadConfig)
    else Ok(c.value)
  }

  function JoinLocks(had: Option<Json>, found: Option<Json>): Result<Option<Json>, Error> {
    if found == None then Ok(had)
    else if had.Some? && had != found then Err(DifferentLocks)
    else Ok(found)
  }

  /** Everything before the layers: the manifest and the lock to carry on with. */
  function OpenManifest(hash: string -> string, blobs: Blobs, d: Descriptor, s: Staged)
    : Result<(Platform, Manifest, Option<Json>), Error>
  {
    if d.platform == None then Err(NoPlatform)
    else
      var p := FromOci(d.platform.value);
      if p == None then Err(UnknownPlatform)
      else if Name(p.value) in s.platforms then Err(DuplicatePlatform)
      else
        var m :- ManifestAt(hash, blobs, d);
        var c :- ConfigAt(hash, blobs, p.value, m.config);
        var lock :- JoinLocks(s.lock, c.projectLock);
        Ok((p.value, m, lock))
  }

  function UnpackManifest(hash: string -> string, blobs: Blobs, staging: Path, d: Descriptor, s: Staged): Staged {
    var parts := OpenManifest(hash, blobs, d, s);
    if parts.Err? then s.(failed := Some(parts.error))
    else
      var (p, m, lock) := parts.value;
      UnpackLayers(hash, blobs, staging, p, m.layers, s.(platforms := s.platforms + {Name(p)}, lock := lock))
  }

  function UnpackManifests(
    hash: string -> string, blobs: Blobs, staging: Path, start: Tree, manifests: seq<Descriptor>): Staged
  {
    if manifests == [] then Unstarted(start)
    else
      var before := UnpackManifests(hash, blobs, staging, start, manifests[..|manifests| - 1]);
      if before.failed.Some? then before else UnpackManifest(hash, blobs, staging, manifests[|manifests| - 1], before)
  }

  lemma {:induction false} FailureEndsLayers(
    hash: string -> string, blobs: Blobs, staging: Path, p: Platform, layers: seq<Descriptor>, s: Staged, k: nat)
    requires k <= |layers| && UnpackLayers(hash, blobs, staging, p, layers[..k], s).failed.Some?
    ensures UnpackLayers(hash, blobs, staging, p, layers, s) == UnpackLayers(hash, blobs, staging, p, layers[..k], s)
    decreases |layers| - k
  {
    if k == |layers| {
      assert layers[..k] == layers;
    } else {
      assert layers[..k + 1][..k] == layers[..k];
      FailureEndsLayers(hash, blobs, staging, p, layers, s, k + 1);
    }
  }

  lemma {:induction false} FailureEndsManifests(
    hash: string -> string, blobs: Blobs, staging: Path, start: Tree, manifests: seq<Descriptor>, k: nat)
    requires k <= |manifests| && UnpackManifests(hash, blobs, staging, start, manifests[..k]).failed.Some?
    ensures UnpackManifests(hash, blobs, staging, start, manifests)
        == UnpackManifests(hash, blobs, staging, start, manifests[..k])
    decreases |manifests| - k
  {
    if k == |manifests| {
      assert manifests[..k] == manifests;
    } else {
      assert manifests[..k + 1][..k] == manifests[..k];
      FailureEndsManifests(hash, blobs, staging, start, manifests, k + 1);
    }
  }

  /** `serde_json::Value` indexing: the last of equal keys. */
  function LastField(f: seq<Field>, key: string): Json {
    if f == [] then JNull
    else if f[|f| - 1].key == key then f[|f| - 1].value
    else LastField(f[..|f| - 1], key)
  }

  predicate ValidMarker(bytes: string) {
    var v := ReadValue(bytes);
    v.Some? && v.value.JObj? && LastField(v.value.fields, "imageLayoutVersion") == JStr("1.0.0")
  }

  /** The staging directory after reading a whole layout. */
  function Unpacked(
    hash: string -> string, marker: Option<string>, blobs: Blobs, index: Option<string>, staging: Path,
        start: Tree): Staged
  {
    var x := Listed(marker, index);
    if x.Err? then Unstarted(start).(failed := Some(x.error))
    else UnpackManifests(hash, blobs, staging, start, x.value)
  }

  /** The manifests of a layout, once its marker and its index check out. */
  function Listed(marker: Option<string>, index: Option<string>): Result<seq<Descriptor>, Error> {
    if marker == None || !ValidMarker(marker.value) then Err(BadLayout)
    else if index == None then Err(BadIndex)
    else
      var x := ParseIndex(index.value);
      if x == None || x.value.schemaVersion != 2 || x.value.mediaType != INDEX_TYPE then Err(BadIndex)
          else Ok(x.value.manifests)
  }
}
