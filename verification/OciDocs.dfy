/**
 The JSON documents of a toolbox image (OCI Image Format Specification: Image Index, Image Manifest,
 Content Descriptors), as the packer writes them and as the two readers, the unpacker and the registry
 client, read them back.
 */
module OciDocs {
  import opened Wrappers
  import opened Text
  import opened Json
  import opened Fields

  const INDEX_TYPE := "application/vnd.oci" + ".image.index.v1+json"
  const MANIFEST_TYPE := "application/vnd.oci" + ".image.manifest.v1+json"
  const DOCKER_INDEX_TYPE := "application/vnd.docker.distribution" + ".manifest.list.v2+json"
  const DOCKER_MANIFEST_TYPE := "application/vnd.docker.distribution" + ".manifest.v2+json"
  const CONFIG_TYPE := "application/vnd.binport" + ".toolbox.config.v1+json"
  const TOOL_TYPE := "application/vnd.binport" + ".tool.v1"
  const NAME_KEY := "org.binport.tool.name"
  const VERSION_KEY := "org.binport.tool.version"

  datatype OciPlatform = OciPlatform(os: string, architecture: string)

  datatype Annotation = Annotation(key: string, value: string)

  datatype Descriptor = Descriptor(
    mediaType: string, digest: string, size: nat, platform: Option<OciPlatform>, annotations: seq<Annotation>)

  datatype Index = Index(schemaVersion: nat, mediaType: string, manifests: seq<Descriptor>)

  datatype Manifest = Manifest(schemaVersion: nat, mediaType: string, config: Descriptor, layers: seq<Descriptor>)

  /** The project lock is carried through as the JSON object it is. */
  datatype Config = Config(format: nat, platform: string, projectLock: Option<Json>)

  // ---------------------------------------------------------------- Writing

  function PlatformField(p: Option<OciPlatform>): seq<Field> {
    if p == None then []
    else [Field("platform", JObj([Field("os", JStr(p.value.os)), Field("architecture", JStr(p.value.architecture))]))]
  }

  function AnnotationFields(a: seq<Annotation>): (f: seq<Field>)
    ensures |f| == |a| && forall i :: 0 <= i < |a| ==> f[i] == Field(a[i].key, JStr(a[i].value))
  {
    seq(|a|, i requires 0 <= i < |a| => Field(a[i].key, JStr(a[i].value)))
  }

  function AnnotationsField(a: seq<Annotation>): seq<Field> {
    if a == [] then [] else [Field("annotations", JObj(AnnotationFields(a)))]
  }

  function DescriptorFields(d: Descriptor): seq<Field> {
    [Field("mediaType", JStr(d.mediaType)), Field("digest", JStr(d.digest)), Field("size", JNum(d.size))]
    + PlatformField(d.platform) + AnnotationsField(d.annotations)
  }

  function DescriptorJson(d: Descriptor): Json {
    JObj(DescriptorFields(d))
  }

  function DescriptorsJson(ds: seq<Descriptor>): (items: seq<Json>)
    ensures |items| == |ds| && forall i :: 0 <= i < |ds| ==> items[i] == DescriptorJson(ds[i])
  {
    seq(|ds|, i requires 0 <= i < |ds| => DescriptorJson(ds[i]))
  }

  function IndexJson(x: Index): Json {
    JObj([Field("schemaVersion", JNum(x.schemaVersion)), Field("mediaType", JStr(x.mediaType)),
          Field("manifests", JArr(DescriptorsJson(x.manifests)))])
  }

  function ManifestJson(m: Manifest): Json {
    JObj([Field("schemaVersion", JNum(m.schemaVersion)), Field("mediaType", JStr(m.mediaType)),
          Field("config", DescriptorJson(m.config)), Field("layers", JArr(DescriptorsJson(m.layers)))])
  }

  function ConfigJson(c: Config): Json {
    JObj([Field("format", JNum(c.format)), Field("platform", JStr(c.platform))]
         + if c.projectLock.Some? then [Field("project_lock", c.projectLock.value)] else [])
  }

  // ---------------------------------------------------------------- Reading

  /** A repeated known field is an error; unknown fields are skipped, repeated or not. */
  predicate OnceEach(fields: seq<Field>, keys: seq<string>) {
    forall i, j :: 0 <= i < j < |fields| && fields[i].key == fields[j].key ==> fields[i].key !in keys
  }

  function AsText(v: Option<Json>): Option<string> {
    match v case Some(JStr(s)) => Some(s) case _ => None
  }

  function AsNat(v: Option<Json>): Option<nat> {
    match v case Some(JNum(n)) => Some(n) case _ => None
  }

  function ReadPlatform(v: Option<Json>): Option<Option<OciPlatform>> {
    match v
    case None => Some(None)
    case Some(JNull) => Some(None)
    case Some(JObj(f)) =>
      if !OnceEach(f, ["os", "architecture"]) then None
      else
        var os :- AsText(Lookup(f, "os"));
        var architecture :- AsText(Lookup(f, "architecture"));
        Some(Some(OciPlatform(os, architecture)))
    case _ => None
  }

  function ReadAnnotations(v: Option<Json>): Option<seq<Annotation>> {
    match v
    case None => Some([])
    case Some(JObj(f)) => ReadAnnotationFields(f)
    case _ => None
  }

  function ReadAnnotationFields(f: seq<Field>): Option<seq<Annotation>> {
    if f == [] then Some([])
    else if !f[0].value.JStr? then None
    else
      var rest :- ReadAnnotationFields(f[1..]);
      Some([Annotation(f[0].key, f[0].value.s)] + rest)
  }

  /** The value of an annotation; a map keeps the last of equal keys. */
  function AnnotationOf(d: Descriptor, key: string): Option<string> {
    LastValue(d.annotations, key)
  }

  function LastValue(a: seq<Annotation>, key: string): Option<string> {
    if a == [] then None
    else if a[|a| - 1].key == key then Some(a[|a| - 1].value)
    else LastValue(a[..|a| - 1], key)
  }

  /** The unpacker's descriptor. */
  function ReadDescriptor(v: Json): Option<Descriptor> {
    if !v.JObj? || !OnceEach(v.fields, ["mediaType", "digest", "size", "platform", "annotations"]) then None
    else
      var mediaType :- AsText(Lookup(v.fields, "mediaType"));
      var digest :- AsText(Lookup(v.fields, "digest"));
      var size :- AsNat(Lookup(v.fields, "size"));
      var platform :- ReadPlatform(Lookup(v.fields, "platform"));
      var annotations :- ReadAnnotations(Lookup(v.fields, "annotations"));
      Some(Descriptor(mediaType, digest, size, platform, annotations))
  }

  /** The registry client's descriptor: the media type may be missing, annotations are not kept. */
  function ReadPlainDescriptor(v: Json): Option<Descriptor> {
    if !v.JObj? || !OnceEach(v.fields, ["mediaType", "digest", "size", "platform"]) then None
    else
      var mediaType :- if Lookup(v.fields, "mediaType") == None then Some("")
          else AsText(Lookup(v.fields, "mediaType"));
      var digest :- AsText(Lookup(v.fields, "digest"));
      var size :- AsNat(Lookup(v.fields, "size"));
      var platform :- ReadPlatform(Lookup(v.fields, "platform"));
      Some(Descriptor(mediaType, digest, size, platform, []))
  }

  function ReadEach(items: seq<Json>, plain: bool): Option<seq<Descriptor>> {
    if items == [] then Some([])
    else
      var first :- if plain then ReadPlainDescriptor(items[0]) else ReadDescriptor(items[0]);
      var rest :- ReadEach(items[1..], plain);
      Some([first] + rest)
  }

  function ReadIndex(v: Json): Option<Index> {
    if !v.JObj? || !OnceEach(v.fields, ["schemaVersion", "mediaType", "manifests"]) then None
    else
      var schemaVersion :- AsNat(Lookup(v.fields, "schemaVersion"));
      var mediaType :- AsText(Lookup(v.fields, "mediaType"));
      match Lookup(v.fields, "manifests")
      case Some(JArr(items)) =>
        var manifests :- ReadEach(items, false);
        Some(Index(schemaVersion, mediaType, manifests))
      case _ => None
  }

  function ReadManifest(v: Json): Option<Manifest> {
    if !v.JObj? || !OnceEach(v.fields, ["schemaVersion", "mediaType", "config", "layers"]) then None
    else
      var schemaVersion :- AsNat(Lookup(v.fields, "schemaVersion"));
      var mediaType :- AsText(Lookup(v.fields, "mediaType"));
      match (Lookup(v.fields, "config"), Lookup(v.fields, "layers"))
      case (Some(c), Some(JArr(items))) =>
        var config :- ReadDescriptor(c);
        var layers :- ReadEach(items, false);
        Some(Manifest(schemaVersion, mediaType, config, layers))
      case _ => None
  }

  function ReadConfig(v: Json): Option<Config> {
    if !v.JObj? || !OnceEach(v.fields, ["format", "platform", "project_lock"]) then None
    else
      var format :- AsNat(Lookup(v.fields, "format"));
      var platform :- AsText(Lookup(v.fields, "platform"));
      match Lookup(v.fields, "project_lock")
      case None => Some(Config(format, platform, None))
      case Some(JNull) => Some(Config(format, platform, None))
      case Some(JObj(f)) => Some(Config(format, platform, Some(JObj(f))))
      case _ => None
  }

  /** What the registry client reads of an index or a manifest: every part may be missing. */
  datatype Document = Document(
    mediaType: string, manifests: seq<Descriptor>, config: Option<Descriptor>, layers: seq<Descriptor>)

  function ReadPlainList(v: Option<Json>): Option<seq<Descriptor>> {
    match v case None => Some([]) case Some(JArr(items)) => ReadEach(items, true) case _ => None
  }

  function ReadDocument(v: Json): Option<Document> {
    if !v.JObj? || !OnceEach(v.fields, ["mediaType", "manifests", "config", "layers"]) then None
    else
      var mediaType :- if Lookup(v.fields, "mediaType") == None then Some("")
          else AsText(Lookup(v.fields, "mediaType"));
      var manifests :- ReadPlainList(Lookup(v.fields, "manifests"));
      var config :- match Lookup(v.fields, "config")
                    case None => Some(None)
                    case Some(JNull) => Some(None)
                    case Some(c) => (var d :- ReadPlainDescriptor(c); Some(Some(d)));
      var layers :- ReadPlainList(Lookup(v.fields, "layers"));
      Some(Document(mediaType, manifests, config, layers))
  }

  // ---------------------------------------------------------------- Both readers undo the writer

  /** The descriptor as the registry client keeps it. */
  function PlainOf(d: Descriptor): Descriptor {
    d.(annotations := [])
  }

  function PlainAll(ds: seq<Descriptor>): (r: seq<Descriptor>)
    ensures |r| == |ds| && forall i :: 0 <= i < |ds| ==> r[i] == PlainOf(ds[i])
  {
    seq(|ds|, i requires 0 <= i < |ds| => PlainOf(ds[i]))
  }

  lemma DistinctOnce(fields: seq<Field>, keys: seq<string>)
    requires NoRepeat(fields)
    ensures OnceEach(fields, keys)
  {
  }

  lemma PlatformRoundTrip(p: OciPlatform)
    ensures ReadPlatform(Some(PlatformField(Some(p))[0].value)) == Some(Some(p))
  {
    var f := [Field("os", JStr(p.os)), Field("architecture", JStr(p.architecture))];
    assert f[0].key != f[1].key;
    LookupFound(f, 0);
    LookupFound(f, 1);
  }

  lemma {:induction false} AnnotationsRoundTrip(a: seq<Annotation>)
    ensures ReadAnnotationFields(AnnotationFields(a)) == Some(a)
  {
    if a != [] {
      assert AnnotationFields(a)[1..] == AnnotationFields(a[1..]);
      AnnotationsRoundTrip(a[1..]);
      assert [a[0]] + a[1..] == a;
    }
  }

  lemma DescriptorNoRepeat(d: Descriptor)
    ensures NoRepeat(DescriptorFields(d))
  {
    var f := DescriptorFields(d);
    assert f[0].key == "mediaType" && f[1].key == "digest" && f[2].key == "size";
    assert forall i :: 3 <= i < |f| ==> f[i].key == "platform" || f[i].key == "annotations";
    assert |f| == 5 ==> f[3].key == "platform" && f[4].key == "annotations";
  }

  lemma DescriptorLookups(d: Descriptor)
    ensures var f := DescriptorFields(d);
            && Lookup(f, "mediaType") == Some(JStr(d.mediaType))
            && Lookup(f, "digest") == Some(JStr(d.digest))
            && Lookup(f, "size") == Some(JNum(d.size))
            && Lookup(f, "platform") == (if d.platform == None then None else Some(PlatformField(d.platform)[0].value))
            && Lookup(f, "annotations")
                == (if d.annotations == [] then None else Some(JObj(AnnotationFields(d.annotations))))
  {
    DescriptorNoRepeat(d);
    var f := DescriptorFields(d);
    hide NoRepeat, Lookup;
    LookupFound(f, 0);
    LookupFound(f, 1);
    LookupFound(f, 2);
    if d.platform.Some? { LookupFound(f, 3); } else { LookupMissing(f, "platform"); }
    if d.annotations != [] { LookupFound(f, |f| - 1); } else { LookupMissing(f, "annotations"); }
  }

  lemma DescriptorRoundTrip(d: Descriptor)
    ensures ReadDescriptor(DescriptorJson(d)) == Some(d)
    ensures ReadPlainDescriptor(DescriptorJson(d)) == Some(PlainOf(d))
  {
    DescriptorNoRepeat(d);
    DescriptorLookups(d);
    var f := DescriptorFields(d);
    DistinctOnce(f, ["mediaType", "digest", "size", "platform", "annotations"]);
    DistinctOnce(f, ["mediaType", "digest", "size", "platform"]);
    AnnotationsRoundTrip(d.annotations);
    if d.platform.Some? { PlatformRoundTrip(d.platform.value); }
    hide Lookup, NoRepeat, OnceEach, DescriptorFields, PlatformField, AnnotationFields;
  }

  lemma {:induction false} EachRoundTrip(ds: seq<Descriptor>)
    ensures ReadEach(DescriptorsJson(ds), false) == Some(ds)
    ensures ReadEach(DescriptorsJson(ds), true) == Some(PlainAll(ds))
  {
    hide ReadDescriptor, ReadPlainDescriptor, DescriptorJson, PlainOf;
    if ds != [] {
      DescriptorRoundTrip(ds[0]);
      EachRoundTrip(ds[1..]);
      assert DescriptorsJson(ds)[1..] == DescriptorsJson(ds[1..]);
      assert [ds[0]] + ds[1..] == ds;
      assert [PlainOf(ds[0])] + PlainAll(ds[1..]) == PlainAll(ds);
    }
  }

  lemma ThreeLookups(f: seq<Field>)
    requires |f| == 3 && NoRepeat(f)
    ensures forall i :: 0 <= i < 3 ==> Lookup(f, f[i].key) == Some(f[i].value)
  {
    LookupFound(f, 0);
    LookupFound(f, 1);
    LookupFound(f, 2);
  }

  lemma IndexRoundTrip(x: Index)
    ensures ReadIndex(IndexJson(x)) == Some(x)
    ensures ReadDocument(IndexJson(x)) == Some(Document(x.mediaType, PlainAll(x.manifests), None, []))
  {
    hide DescriptorsJson, ReadEach, PlainAll;
    EachRoundTrip(x.manifests);
    var f := IndexJson(x).fields;
    assert NoRepeat(f) by { assert f[0].key == "schemaVersion" && f[1].key == "mediaType" && f[2].key == "manifests"; }
    DistinctOnce(f, ["schemaVersion", "mediaType", "manifests"]);
    DistinctOnce(f, ["mediaType", "manifests", "config", "layers"]);
    ThreeLookups(f);
    assert Lookup(f, f[0].key) == Some(f[0].value) && Lookup(f, f[1].key) == Some(f[1].value) &&
        Lookup(f, f[2].key) == Some(f[2].value);
    LookupMissing(f, "config");
    LookupMissing(f, "layers");
    hide Lookup, OnceEach, NoRepeat;
  }

  lemma ManifestRoundTrip(m: Manifest)
    ensures ReadManifest(ManifestJson(m)) == Some(m)
    ensures ReadDocument(ManifestJson(m))
        == Some(Document(m.mediaType, [], Some(PlainOf(m.config)), PlainAll(m.layers)))
  {
    hide DescriptorsJson, ReadEach, PlainAll, DescriptorFields, ReadDescriptor, ReadPlainDescriptor, PlainOf;
    EachRoundTrip(m.layers);
    DescriptorRoundTrip(m.config);
    var f := ManifestJson(m).fields;
    assert NoRepeat(f) by {
      assert f[0].key == "schemaVersion" && f[1].key == "mediaType" && f[2].key == "config" && f[3].key == "layers";
    }
    DistinctOnce(f, ["schemaVersion", "mediaType", "config", "layers"]);
    DistinctOnce(f, ["mediaType", "manifests", "config", "layers"]);
    LookupFound(f, 0);
    LookupFound(f, 1);
    LookupFound(f, 2);
    LookupFound(f, 3);
    LookupMissing(f, "manifests");
    hide Lookup, OnceEach, NoRepeat;
  }

  lemma ConfigRoundTrip(c: Config)
    requires c.projectLock.Some? ==> c.projectLock.value.JObj?
    ensures ReadConfig(ConfigJson(c)) == Some(c)
  {
    var f := ConfigJson(c).fields;
    assert NoRepeat(f) by {
      assert f[0].key == "format" && f[1].key == "platform" && (|f| == 3 ==> f[2].key == "project_lock");
    }
    DistinctOnce(f, ["format", "platform", "project_lock"]);
    LookupFound(f, 0);
    LookupFound(f, 1);
    if c.projectLock.Some? { LookupFound(f, 2); } else { LookupMissing(f, "project_lock"); }
    hide Lookup, OnceEach, NoRepeat;
  }

  // ---------------------------------------------------------------- Bytes

  predicate GoodDescriptor(d: Descriptor) {
    && ValidUtf8(d.mediaType) && ValidUtf8(d.digest)
    && (d.platform.Some? ==> ValidUtf8(d.platform.value.os) && ValidUtf8(d.platform.value.architecture))
    && forall i :: 0 <= i < |d.annotations| ==> ValidUtf8(d.annotations[i].key) && ValidUtf8(d.annotations[i].value)
  }

  predicate GoodDescriptors(ds: seq<Descriptor>) {
    forall i :: 0 <= i < |ds| ==> GoodDescriptor(ds[i])
  }

  const DOC_KEYS: seq<string> :=
    ["mediaType", "digest", "size", "platform", "annotations", "os", "architecture", "schemaVersion", "manifests",
     "config", "layers", "format", "project_lock"]

  lemma DocKeysWellFormed()
    ensures forall k :: k in DOC_KEYS ==> ValidUtf8(k)
  {
    hide ValidUtf8;
    forall i | 0 <= i < |DOC_KEYS| ensures ValidUtf8(DOC_KEYS[i]) {
      assert Ascii(DOC_KEYS[i]);
      AsciiIsUtf8(DOC_KEYS[i]);
    }
  }

  predicate GoodFields(fields: seq<Field>) {
    forall i :: 0 <= i < |fields| ==> ValidUtf8(fields[i].key) && WellFormed(fields[i].value)
  }

  lemma GoodFieldsAppend(a: seq<Field>, b: seq<Field>)
    requires GoodFields(a) && GoodFields(b)
    ensures GoodFields(a + b)
  {
    hide ValidUtf8, WellFormed;
  }

  lemma ObjectWellFormed(fields: seq<Field>)
    requires GoodFields(fields)
    ensures WellFormed(JObj(fields))
  {
    hide ValidUtf8;
  }

  lemma PlatformFieldGood(p: Option<OciPlatform>)
    requires p.Some? ==> ValidUtf8(p.value.os) && ValidUtf8(p.value.architecture)
    ensures GoodFields(PlatformField(p))
  {
    hide ValidUtf8;
    DocKeysWellFormed();
    assert DOC_KEYS[3] in DOC_KEYS && DOC_KEYS[5] in DOC_KEYS && DOC_KEYS[6] in DOC_KEYS;
    if p.Some? {
      var f := [Field("os", JStr(p.value.os)), Field("architecture", JStr(p.value.architecture))];
      assert GoodFields(f);
      ObjectWellFormed(f);
    }
  }

  lemma AnnotationsFieldGood(a: seq<Annotation>)
    requires forall i :: 0 <= i < |a| ==> ValidUtf8(a[i].key) && ValidUtf8(a[i].value)
    ensures GoodFields(AnnotationsField(a))
  {
    hide ValidUtf8;
    DocKeysWellFormed();
    assert DOC_KEYS[4] in DOC_KEYS;
    assert GoodFields(AnnotationFields(a));
    ObjectWellFormed(AnnotationFields(a));
  }

  lemma DescriptorWellFormed(d: Descriptor)
    requires GoodDescriptor(d)
    ensures WellFormed(DescriptorJson(d))
  {
    hide ValidUtf8, PlatformField, AnnotationsField;
    PlatformFieldGood(d.platform);
    AnnotationsFieldGood(d.annotations);
    DocKeysWellFormed();
    assert DOC_KEYS[0] in DOC_KEYS && DOC_KEYS[1] in DOC_KEYS && DOC_KEYS[2] in DOC_KEYS;
    var f := [Field("mediaType", JStr(d.mediaType)), Field("digest", JStr(d.digest)), Field("size", JNum(d.size))];
    assert GoodFields(f);
    hide WellFormed, GoodFields, DOC_KEYS;
    GoodFieldsAppend(f, PlatformField(d.platform));
    GoodFieldsAppend(f + PlatformField(d.platform), AnnotationsField(d.annotations));
    ObjectWellFormed(DescriptorFields(d));
  }

  lemma DescriptorsWellFormed(ds: seq<Descriptor>)
    requires GoodDescriptors(ds)
    ensures WellFormed(JArr(DescriptorsJson(ds)))
  {
    hide GoodDescriptor, ValidUtf8, DescriptorJson;
    forall i | 0 <= i < |ds| ensures WellFormed(DescriptorsJson(ds)[i]) {
      DescriptorWellFormed(ds[i]);
    }
  }

  lemma IndexWellFormed(x: Index)
    requires ValidUtf8(x.mediaType) && GoodDescriptors(x.manifests)
    ensures WellFormed(IndexJson(x))
  {
    hide ValidUtf8, GoodDescriptors, DescriptorsJson;
    DescriptorsWellFormed(x.manifests);
    DocKeysWellFormed();
    assert DOC_KEYS[7] in DOC_KEYS && DOC_KEYS[0] in DOC_KEYS && DOC_KEYS[8] in DOC_KEYS;
    assert GoodFields(IndexJson(x).fields);
    ObjectWellFormed(IndexJson(x).fields);
  }

  lemma ManifestWellFormed(m: Manifest)
    requires ValidUtf8(m.mediaType) && GoodDescriptor(m.config) && GoodDescriptors(m.layers)
    ensures WellFormed(ManifestJson(m))
  {
    hide ValidUtf8, GoodDescriptor, GoodDescriptors, DescriptorsJson, DescriptorJson;
    DescriptorWellFormed(m.config);
    DescriptorsWellFormed(m.layers);
    DocKeysWellFormed();
    assert DOC_KEYS[7] in DOC_KEYS && DOC_KEYS[0] in DOC_KEYS && DOC_KEYS[9] in DOC_KEYS && DOC_KEYS[10] in DOC_KEYS;
    assert GoodFields(ManifestJson(m).fields);
    ObjectWellFormed(ManifestJson(m).fields);
  }

  lemma ConfigWellFormed(c: Config)
    requires ValidUtf8(c.platform) && (c.projectLock.Some? ==> WellFormed(c.projectLock.value))
    ensures WellFormed(ConfigJson(c))
  {
    hide ValidUtf8;
    DocKeysWellFormed();
    assert DOC_KEYS[11] in DOC_KEYS && DOC_KEYS[3] in DOC_KEYS && DOC_KEYS[12] in DOC_KEYS;
    assert GoodFields(ConfigJson(c).fields);
    ObjectWellFormed(ConfigJson(c).fields);
  }

  /** The documents as bytes: manifests and configs are written compactly, the index pretty. */
  function ManifestBytes(m: Manifest): string {
    Print(ManifestJson(m), Compact, 0)
  }

  function ConfigBytes(c: Config): string {
    Print(ConfigJson(c), Compact, 0)
  }

  function IndexBytes(x: Index): string {
    Print(IndexJson(x), Pretty, 0)
  }

  function ParseIndex(bytes: string): Option<Index> {
    var v :- Parse(bytes);
    ReadIndex(v)
  }

  function ParseManifest(bytes: string): Option<Manifest> {
    var v :- Parse(bytes);
    ReadManifest(v)
  }

  function ParseConfig(bytes: string): Option<Config> {
    var v :- Parse(bytes);
    ReadConfig(v)
  }

  function ParseDocument(bytes: string): Option<Document> {
    var v :- Parse(bytes);
    ReadDocument(v)
  }

  lemma IndexBytesRoundTrip(x: Index)
    requires ValidUtf8(x.mediaType) && GoodDescriptors(x.manifests)
    ensures ParseIndex(IndexBytes(x)) == Some(x)
    ensures ParseDocument(IndexBytes(x)) == Some(Document(x.mediaType, PlainAll(x.manifests), None, []))
  {
    hide Print, Parse, IndexJson, ReadIndex, ReadDocument, ValidUtf8, GoodDescriptors, WellFormed;
    IndexWellFormed(x);
    PrintParse(IndexJson(x), Pretty);
    IndexRoundTrip(x);
  }

  lemma ManifestBytesRoundTrip(m: Manifest)
    requires ValidUtf8(m.mediaType) && GoodDescriptor(m.config) && GoodDescriptors(m.layers)
    ensures ParseManifest(ManifestBytes(m)) == Some(m)
    ensures ParseDocument(ManifestBytes(m))
         == Some(Document(m.mediaType, [], Some(PlainOf(m.config)), PlainAll(m.layers)))
  {
    hide Print, Parse, ManifestJson, ReadManifest, ReadDocument, ValidUtf8, GoodDescriptor, GoodDescriptors, WellFormed;
    ManifestWellFormed(m);
    PrintParse(ManifestJson(m), Compact);
    ManifestRoundTrip(m);
  }

  lemma ConfigBytesRoundTrip(c: Config)
    requires ValidUtf8(c.platform)
    requires c.projectLock.Some? ==> c.projectLock.value.JObj? && WellFormed(c.projectLock.value)
    ensures ParseConfig(ConfigBytes(c)) == Some(c)
  {
    hide Print, Parse, ConfigJson, ReadConfig, ValidUtf8, WellFormed;
    ConfigWellFormed(c);
    PrintParse(ConfigJson(c), Compact);
    ConfigRoundTrip(c);
  }
}
