/** A toolbox packed, pushed, pulled and unpacked: what comes out at the other end, and when. */
module Shipping {
  import opened Wrappers
  import opened Text
  import opened Json
  import opened OciDocs
  import opened Oci
  import opened FileTree
  import opened OciRoundTrip
  import opened OciIntegrity
  import opened OciSettle
  import opened OciArrival
  import opened PullDisk
  import opened RegistryPull
  import opened PullTheorems
  import RegistryPush

  // ---------------------------------------------------------------- What a pull of a packed toolbox fetches

  function FetchBytes(hash: string -> string, bytes: string): Event {
    Fetch(hash(bytes), |bytes|, bytes)
  }

  function FetchAll(hash: string -> string, items: seq<string>): (r: seq<Event>)
    ensures |r| == |items| && forall i :: 0 <= i < |items| ==> r[i] == FetchBytes(hash, items[i])
  {
    seq(|items|, i requires 0 <= i < |items| => FetchBytes(hash, items[i]))
  }

  /** The configuration and the contents of one platform's tools. */
  function BlobsFor(hash: string -> string, box: Toolbox, p: Platform): seq<string> {
    [ConfigFor(box, p)] + Contents(box, ToolsFor(box.tools, p))
  }

  function ManifestText(hash: string -> string, box: Toolbox, p: Platform): string {
    ManifestBytes(ManifestOf(hash, box, p))
  }

  function EventsFor(hash: string -> string, box: Toolbox, p: Platform): seq<Event> {
    if ToolsFor(box.tools, p) == [] then []
    else [Store(hash(ManifestText(hash, box, p)), ManifestText(hash, box, p))] + FetchAll(hash, BlobsFor(hash, box, p))
  }

  /** The events of a pull, as the packer can foresee them. */
  function BoxEvents(hash: string -> string, box: Toolbox): seq<Event> {
    EventsFor(hash, box, LinuxAmd64) + EventsFor(hash, box, LinuxArm64)
  }

  /** A registry that answers with the packed bytes, in any chunks. */
  predicate Serves(hash: string -> string, box: Toolbox, p: Platform, server: Server) {
    ToolsFor(box.tools, p) != [] ==>
      && Digest(hash, ManifestText(hash, box, p)) in server.manifests
      && server.manifests[Digest(hash, ManifestText(hash, box, p))] == ManifestText(hash, box, p)
      && ServesAll(hash, BlobsFor(hash, box, p), server)
  }

  predicate ServesAll(hash: string -> string, items: seq<string>, server: Server) {
    forall i :: 0 <= i < |items| ==>
      Digest(hash, items[i]) in server.blobs && Flatten(server.blobs[Digest(hash, items[i])]) == items[i]
  }

  function RefsFor(hash: string -> string, box: Toolbox, p: Platform): seq<Descriptor> {
    [PlainOf(ManifestOf(hash, box, p).config)] + PlainAll(ManifestOf(hash, box, p).layers)
  }

  lemma RefsForExact(hash: string -> string, box: Toolbox, p: Platform)
    requires ValidHash(hash) && TextBox(box)
    ensures RefsOf(ManifestText(hash, box, p)) == RefsFor(hash, box, p)
    ensures ParseDocument(ManifestText(hash, box, p)).Some?
    ensures ParseDocument(ManifestText(hash, box, p)).value.mediaType == MANIFEST_TYPE
  {
    ManifestReads(hash, box, p);
    hide ManifestBytes, ManifestOf, ParseManifest, ParseDocument, PlainAll, PlainOf, TextBox, ValidHash, MANIFEST_TYPE;
  }

  /** Each reference of a packed manifest is the digest and size of one of its blobs. */
  lemma RefIsBlob(hash: string -> string, box: Toolbox, p: Platform, i: nat)
    requires i < |RefsFor(hash, box, p)|
    ensures |RefsFor(hash, box, p)| == |BlobsFor(hash, box, p)|
    ensures RefsFor(hash, box, p)[i].digest == Digest(hash, BlobsFor(hash, box, p)[i])
    ensures RefsFor(hash, box, p)[i].size == |BlobsFor(hash, box, p)[i]|
  {
    hide ConfigFor, ToolsFor, Content, Digest, TOOL_TYPE, CONFIG_TYPE;
    if i > 0 {
      assert RefsFor(hash, box, p)[i] == PlainOf(ManifestOf(hash, box, p).layers[i - 1]);
    }
  }

  lemma FetchesExact(hash: string -> string, box: Toolbox, p: Platform, server: Server)
    requires ValidHash(hash) && ServesAll(hash, BlobsFor(hash, box, p), server)
    ensures Fetches(server, RefsFor(hash, box, p)) == FetchAll(hash, BlobsFor(hash, box, p))
    ensures AllServed(hash, server, RefsFor(hash, box, p))
  {
    var refs, items := RefsFor(hash, box, p), BlobsFor(hash, box, p);
    RefIsBlob(hash, box, p, 0);
    forall i | 0 <= i < |refs|
      ensures Fetches(server, refs)[i] == FetchAll(hash, items)[i]
      ensures refs[i].digest in server.blobs && Verifies(hash, Body(server, refs[i]), refs[i])
    {
      RefIsBlob(hash, box, p, i);
      assert IsHash(hash(items[i]));
      DigestHashes(hash, items[i]);
      hide RefsFor, BlobsFor, Digest, DigestHash, IsHash, ValidHash;
    }
    hide RefsFor, BlobsFor, ServesAll;
  }

  lemma ManifestEventsExact(hash: string -> string, box: Toolbox, p: Platform, server: Server, m: Descriptor)
    requires ValidHash(hash) && TextBox(box) && ToolsFor(box.tools, p) != [] && Serves(hash, box, p, server)
    requires m.digest == Digest(hash, ManifestText(hash, box, p)) && m.size == |ManifestText(hash, box, p)|
    ensures ManifestEvents(server, m) == EventsFor(hash, box, p)
    ensures GoodManifest(hash, server, m) && AllServed(hash, server, RefsOf(ManifestBody(server, m)))
  {
    RefsForExact(hash, box, p);
    FetchesExact(hash, box, p, server);
    assert IsHash(hash(ManifestText(hash, box, p)));
    DigestHashes(hash, ManifestText(hash, box, p));
    hide RefsFor, BlobsFor, ManifestText, Fetches, FetchAll, RefsOf, ParseDocument, TextBox, ValidHash, IsHash,
        AllServed, ServesAll, Digest,
      DigestHash, MANIFEST_TYPE, DOCKER_MANIFEST_TYPE;
  }

  /** The packed index as the registry client reads it. */
  lemma PackedListed(hash: string -> string, box: Toolbox)
    requires ValidHash(hash)
    ensures ParseDocument(IndexBytes(IndexOf(hash, box)))
        == Some(Document(INDEX_TYPE, IndexOf(hash, box).manifests, None, []))
    ensures forall i :: 0 <= i < |IndexOf(hash, box).manifests| ==>
      var d := IndexOf(hash, box).manifests[i]; d.mediaType != "" && d.annotations == [] && SupportedPlatform(d)
  {
    IndexReads(hash, box);
    var manifests := IndexOf(hash, box).manifests;
    assert MANIFEST_TYPE != "";
    forall i | 0 <= i < |manifests|
      ensures manifests[i].mediaType == MANIFEST_TYPE && manifests[i].annotations == [] &&
          SupportedPlatform(manifests[i])
    {
      hide ManifestBytes, MANIFEST_TYPE, ManifestOf, IndexBytes;
    }
    assert PlainAll(manifests) == manifests by {
      hide IndexBytes, ParseDocument, ParseIndex, DescriptorsFor, SupportedPlatform, INDEX_TYPE, MANIFEST_TYPE;
    }
    hide IndexBytes, ParseDocument, ParseIndex, DescriptorsFor, SupportedPlatform, INDEX_TYPE, MANIFEST_TYPE;
  }

  /** What the registry's index says, as the pull reads it: the packed manifests, all supported. */
  lemma PackedIndex(hash: string -> string, box: Toolbox, server: Server, reference: string)
    requires ValidHash(hash)
    requires reference in server.references && server.references[reference] == IndexBytes(IndexOf(hash, box))
    requires "sha256:" <= reference ==> reference == Digest(hash, IndexBytes(IndexOf(hash, box)))
    ensures var manifests := IndexOf(hash, box).manifests;
            && PullIndex(hash, server, reference) == (if manifests == [] then Err(NoManifests) else Ok(manifests))
            && LocalIndexBytes(manifests) == IndexBytes(IndexOf(hash, box))
  {
    PackedListed(hash, box);
    var manifests := IndexOf(hash, box).manifests;
    hide IndexBytes, ParseDocument, DescriptorsFor, SupportedPlatform, INDEX_TYPE, Digest, LocalIndexBytes;
    LocalIndexIsIndex(manifests);
    assert Supported(manifests) == manifests;
  }

  lemma EventsSnoc(server: Server, before: seq<Descriptor>, d: Descriptor)
    ensures Events(server, before + [d]) == Events(server, before) + ManifestEvents(server, d)
  {
    hide ManifestEvents;
    assert (before + [d])[..|before|] == before;
  }

  lemma AllGoodSnoc(hash: string -> string, server: Server, before: seq<Descriptor>, d: Descriptor)
    requires AllGood(hash, server, before)
    requires GoodManifest(hash, server, d) && AllServed(hash, server, RefsOf(ManifestBody(server, d)))
    ensures AllGood(hash, server, before + [d])
  {
    hide GoodManifest, AllServed, RefsOf, ManifestBody;
  }

  lemma DescriptorForExact(hash: string -> string, box: Toolbox, p: Platform)
    requires ToolsFor(box.tools, p) != []
    ensures |DescriptorsFor(hash, box, p)| == 1
    ensures var d := DescriptorsFor(hash, box, p)[0];
            d.digest == Digest(hash, ManifestText(hash, box, p)) && d.size == |ManifestText(hash, box, p)|
  {
    hide ToolsFor, ManifestBytes, ManifestOf, Digest;
  }

  lemma OnePlatform(hash: string -> string, box: Toolbox, p: Platform, server: Server, before: seq<Descriptor>)
    requires ValidHash(hash) && TextBox(box) && Serves(hash, box, p, server) && AllGood(hash, server, before)
    ensures Events(server, before + DescriptorsFor(hash, box, p)) == Events(server, before) + EventsFor(hash, box, p)
    ensures AllGood(hash, server, before + DescriptorsFor(hash, box, p))
  {
    hide ManifestEvents, Serves, AllGood, Events, ManifestText, ManifestBytes, ManifestOf, ValidHash, TextBox, Digest,
        ToolsFor, BlobsFor, FetchAll;
    if ToolsFor(box.tools, p) == [] {
      assert before + DescriptorsFor(hash, box, p) == before;
    } else {
      DescriptorForExact(hash, box, p);
      hide DescriptorsFor, EventsFor;
      var d := DescriptorsFor(hash, box, p)[0];
      assert DescriptorsFor(hash, box, p) == [d];
      ManifestEventsExact(hash, box, p, server, d);
      EventsSnoc(server, before, d);
      AllGoodSnoc(hash, server, before, d);
    }
  }

  lemma BoxEventsExact(hash: string -> string, box: Toolbox, server: Server)
    requires ValidHash(hash) && TextBox(box) && Serves(hash, box, LinuxAmd64, server) &&
        Serves(hash, box, LinuxArm64, server)
    ensures Events(server, IndexOf(hash, box).manifests) == BoxEvents(hash, box)
    ensures AllGood(hash, server, IndexOf(hash, box).manifests)
  {
    hide DescriptorsFor, Serves, EventsFor, GoodManifest, AllServed, ValidHash, TextBox, ManifestEvents;
    assert Events(server, []) == [];
    OnePlatform(hash, box, LinuxAmd64, server, []);
    var first := DescriptorsFor(hash, box, LinuxAmd64);
    assert [] + first == first && [] + EventsFor(hash, box, LinuxAmd64) == EventsFor(hash, box, LinuxAmd64);
    OnePlatform(hash, box, LinuxArm64, server, first);
  }

  // ---------------------------------------------------------------- From the pulled files back to the toolbox

  predicate IsEvent(hash: string -> string, events: seq<Event>, x: string) {
    exists i :: 0 <= i < |events| && events[i].h == hash(x) && events[i].bytes == x
  }

  lemma WrittenForIsEvent(hash: string -> string, box: Toolbox, p: Platform, i: nat)
    requires i < |WrittenFor(hash, box, p)|
    ensures IsEvent(hash, EventsFor(hash, box, p), WrittenFor(hash, box, p)[i])
  {
    hide ConfigFor, ManifestBytes, ManifestOf, ToolsFor, Content;
    var w, e := WrittenFor(hash, box, p), EventsFor(hash, box, p);
    if i == |w| - 1 {
      assert e[0].bytes == w[i] && e[0].h == hash(w[i]);
    } else {
      assert e[i + 1] == FetchBytes(hash, BlobsFor(hash, box, p)[i]) && BlobsFor(hash, box, p)[i] == w[i];
      assert e[i + 1].h == hash(w[i]);
    }
  }

  lemma WrittenIsEvent(hash: string -> string, box: Toolbox, x: string)
    requires x in Written(hash, box)
    ensures IsEvent(hash, BoxEvents(hash, box), x)
  {
    hide WrittenFor, EventsFor;
    var p := if x in WrittenFor(hash, box, LinuxAmd64) then LinuxAmd64 else LinuxArm64;
    var i :| 0 <= i < |WrittenFor(hash, box, p)| && WrittenFor(hash, box, p)[i] == x;
    WrittenForIsEvent(hash, box, p, i);
    var e := EventsFor(hash, box, p);
    var j :| 0 <= j < |e| && e[j].h == hash(x) && e[j].bytes == x;
    var all := BoxEvents(hash, box);
    assert all[if p == LinuxAmd64 then j else |EventsFor(hash, box, LinuxAmd64)| + j] == e[j];
  }

  lemma EventForIsWritten(hash: string -> string, box: Toolbox, p: Platform, i: nat)
    requires i < |EventsFor(hash, box, p)|
    ensures EventsFor(hash, box, p)[i].bytes in WrittenFor(hash, box, p)
    ensures var e := EventsFor(hash, box, p)[i]; hash(e.bytes) == e.h && (e.Fetch? ==> e.size == |e.bytes|)
  {
    hide ConfigFor, ManifestBytes, ManifestOf, ToolsFor, Content;
    var w := WrittenFor(hash, box, p);
    assert EventsFor(hash, box, p)[i].bytes == w[if i == 0 then |w| - 1 else i - 1];
  }

  lemma EventIsWritten(hash: string -> string, box: Toolbox, i: nat)
    requires i < |BoxEvents(hash, box)|
    ensures BoxEvents(hash, box)[i].bytes in Written(hash, box)
    ensures var e := BoxEvents(hash, box)[i]; hash(e.bytes) == e.h && (e.Fetch? ==> e.size == |e.bytes|)
  {
    var n := |EventsFor(hash, box, LinuxAmd64)|;
    hide EventsFor, WrittenFor;
    EventForIsWritten(hash, box, if i < n then LinuxAmd64 else LinuxArm64, if i < n then i else i - n);
  }

  lemma BoxEventsGenuine(hash: string -> string, box: Toolbox)
    ensures Genuine(hash, BoxEvents(hash, box))
  {
    forall i | 0 <= i < |BoxEvents(hash, box)|
      ensures var e := BoxEvents(hash, box)[i]; hash(e.bytes) == e.h && (e.Fetch? ==> e.size == |e.bytes|)
    {
      EventIsWritten(hash, box, i);
      hide BoxEvents;
    }
    hide BoxEvents;
  }

  /** A store in which everything written is whole or empty. */
  predicate WholeOrEmpty(hash: string -> string, blobs: Blobs, items: seq<string>) {
    forall x :: x in items ==> hash(x) in blobs && (blobs[hash(x)] == x || blobs[hash(x)] == "")
  }

  lemma ReadableIsWhole(hash: string -> string, blobs: Blobs, x: string, d: Descriptor)
    requires IsHash(hash(x)) && d.digest == Digest(hash, x) && d.size == |x|
    requires hash(x) in blobs && (blobs[hash(x)] == x || blobs[hash(x)] == "") && ReadBlob(hash, blobs, d).Ok?
    ensures blobs[hash(x)] == x && ReadBlob(hash, blobs, d).value == x
  {
    DigestHashes(hash, x);
  }

  lemma ManifestWhole(hash: string -> string, box: Toolbox, blobs: Blobs, p: Platform)
    requires ValidHash(hash) && TextBox(box) && ToolsFor(box.tools, p) != []
    requires WholeOrEmpty(hash, blobs, [ManifestText(hash, box, p)])
    requires ManifestAt(hash, blobs, DescriptorsFor(hash, box, p)[0]).Ok?
    ensures blobs[hash(ManifestText(hash, box, p))] == ManifestText(hash, box, p)
    ensures ManifestAt(hash, blobs, DescriptorsFor(hash, box, p)[0]) == Ok(ManifestOf(hash, box, p))
  {
    var d := DescriptorsFor(hash, box, p)[0];
    var m := ManifestText(hash, box, p);
    ManifestReads(hash, box, p);
    DescriptorForExact(hash, box, p);
    assert m in [m] && IsHash(hash(m));
    var manifest := ManifestOf(hash, box, p);
    assert manifest.schemaVersion == 2 && manifest.mediaType == MANIFEST_TYPE;
    hide ReadBlob, ParseManifest, ParseDocument, ManifestOf, ManifestBytes, ValidHash, TextBox, ToolsFor, Digest,
        IsHash, MANIFEST_TYPE, DescriptorsFor, PlainAll;
    ReadableIsWhole(hash, blobs, m, d);
  }

  lemma ConfigWhole(hash: string -> string, box: Toolbox, blobs: Blobs, p: Platform, q: Platform)
    requires ValidHash(hash) && WholeOrEmpty(hash, blobs, [ConfigFor(box, p)])
    requires ConfigAt(hash, blobs, q, ManifestOf(hash, box, p).config).Ok?
    ensures blobs[hash(ConfigFor(box, p))] == ConfigFor(box, p)
  {
    var c := ConfigFor(box, p);
    assert c in [c] && IsHash(hash(c));
    var d := ManifestOf(hash, box, p).config;
    assert d.digest == Digest(hash, c) && d.size == |c|;
    hide ReadBlob, ParseConfig, ConfigFor, ManifestOf, ValidHash, Digest, IsHash;
    ReadableIsWhole(hash, blobs, c, d);
  }

  lemma LayersWhole(
    hash: string -> string, box: Toolbox, blobs: Blobs, tools: seq<LockedTool>)
    requires ValidHash(hash) && WholeOrEmpty(hash, blobs, Contents(box, tools))
    requires VerifiedLayers(hash, blobs, LayersOf(hash, box, tools))
    ensures Holds(hash, blobs, Contents(box, tools))
  {
    var items, layers := Contents(box, tools), LayersOf(hash, box, tools);
    forall i | 0 <= i < |items| ensures hash(items[i]) in blobs && blobs[hash(items[i])] == items[i] {
      assert VerifiedLayer(hash, blobs, layers[i]);
      assert items[i] in items && IsHash(hash(items[i]));
      assert layers[i].digest == Digest(hash, items[i]) && layers[i].size == |items[i]|;
      hide ReadBlob, Layer, Content, Digest, IsHash, ValidHash, VerifiedLayers;
      ReadableIsWhole(hash, blobs, items[i], layers[i]);
    }
  }

  lemma WholeParts(hash: string -> string, box: Toolbox, blobs: Blobs, p: Platform)
    requires ToolsFor(box.tools, p) != [] && WholeOrEmpty(hash, blobs, WrittenFor(hash, box, p))
    ensures WholeOrEmpty(hash, blobs, [ManifestText(hash, box, p)]) && WholeOrEmpty(hash, blobs, [ConfigFor(box, p)])
    ensures WholeOrEmpty(hash, blobs, Contents(box, ToolsFor(box.tools, p)))
  {
    hide ConfigFor, ManifestBytes, ManifestOf, ToolsFor;
    var w := WrittenFor(hash, box, p);
    var c := Contents(box, ToolsFor(box.tools, p));
    assert w == [ConfigFor(box, p)] + c + [ManifestText(hash, box, p)];
    assert ManifestText(hash, box, p) in w && ConfigFor(box, p) in w;
    forall x | x in c ensures x in w {}
  }

  lemma HoldsParts(hash: string -> string, box: Toolbox, blobs: Blobs, p: Platform)
    requires ToolsFor(box.tools, p) != [] && Holds(hash, blobs, Contents(box, ToolsFor(box.tools, p)))
    requires var c := ConfigFor(box, p); hash(c) in blobs && blobs[hash(c)] == c
    requires var m := ManifestText(hash, box, p); hash(m) in blobs && blobs[hash(m)] == m
    ensures Holds(hash, blobs, WrittenFor(hash, box, p))
  {
    hide ConfigFor, ManifestBytes, ManifestOf, ToolsFor;
    var w := WrittenFor(hash, box, p);
    var c := Contents(box, ToolsFor(box.tools, p));
    forall i | 0 <= i < |w| ensures hash(w[i]) in blobs && blobs[hash(w[i])] == w[i] {
      if 0 < i < |w| - 1 { assert w[i] == c[i - 1]; }
    }
  }

  lemma PlatformWhole(hash: string -> string, box: Toolbox, blobs: Blobs, p: Platform)
    requires ValidHash(hash) && TextBox(box) && ToolsFor(box.tools, p) != []
    requires WholeOrEmpty(hash, blobs, WrittenFor(hash, box, p))
    requires VerifiedManifest(hash, blobs, DescriptorsFor(hash, box, p)[0])
    ensures Holds(hash, blobs, WrittenFor(hash, box, p))
  {
    var d := DescriptorsFor(hash, box, p)[0];
    WholeParts(hash, box, blobs, p);
    hide ConfigFor, ManifestBytes, ToolsFor, ValidHash, TextBox, DescriptorsFor, VerifiedLayers, ManifestAt, ConfigAt,
        PlatformOf, WrittenFor;
    ManifestWhole(hash, box, blobs, p);
    ConfigWhole(hash, box, blobs, p, PlatformOf(d));
    assert LayersAt(hash, blobs, d) == LayersOf(hash, box, ToolsFor(box.tools, p));
    hide LayersOf, VerifiedManifest, LayersAt;
    LayersWhole(hash, box, blobs, ToolsFor(box.tools, p));
    HoldsParts(hash, box, blobs, p);
  }

  lemma VerifiedWhole(hash: string -> string, box: Toolbox, blobs: Blobs, p: Platform, platforms: set<string>)
    requires ValidHash(hash) && TextBox(box) && WholeOrEmpty(hash, blobs, Written(hash, box))
    requires AllVerified(hash, blobs, IndexOf(hash, box).manifests, platforms)
    ensures Holds(hash, blobs, WrittenFor(hash, box, p))
  {
    if ToolsFor(box.tools, p) == [] {
      assert WrittenFor(hash, box, p) == [];
    } else {
      var manifests := IndexOf(hash, box).manifests;
      var k := if p == LinuxAmd64 then 0 else |DescriptorsFor(hash, box, LinuxAmd64)|;
      DescriptorForExact(hash, box, p);
      hide DescriptorsFor, VerifiedManifest, PlatformOf, Name, ValidHash, TextBox, WholeOrEmpty, Written, WrittenFor,
          Holds, ToolsFor;
      assert manifests[k] == DescriptorsFor(hash, box, p)[0];
      WholePart(hash, box, blobs, p);
      PlatformWhole(hash, box, blobs, p);
    }
  }

  lemma JoinHolds(hash: string -> string, blobs: Blobs, a: seq<string>, b: seq<string>)
    requires Holds(hash, blobs, a) && Holds(hash, blobs, b)
    ensures Holds(hash, blobs, a + b)
  {
  }

  /** If a store of whole or emptied blobs unpacks at all, nothing in it was emptied. */
  lemma UnpackedIsWhole(hash: string -> string, box: Toolbox, blobs: Blobs, staging: Path, start: Tree)
    requires ValidHash(hash) && TextBox(box) && WholeOrEmpty(hash, blobs, Written(hash, box))
    requires UnpackManifests(hash, blobs, staging, start, IndexOf(hash, box).manifests).failed.None?
    ensures Holds(hash, blobs, Written(hash, box))
  {
    hide ValidHash, TextBox, WholeOrEmpty, WrittenFor, Holds, IndexOf, AllVerified, UnpackManifests;
    var u := UnpackManifests(hash, blobs, staging, start, IndexOf(hash, box).manifests);
    UnpackSound(hash, blobs, staging, start, IndexOf(hash, box).manifests);
    VerifiedWhole(hash, box, blobs, LinuxAmd64, u.platforms);
    VerifiedWhole(hash, box, blobs, LinuxArm64, u.platforms);
    JoinHolds(hash, blobs, WrittenFor(hash, box, LinuxAmd64), WrittenFor(hash, box, LinuxArm64));
  }

  lemma WholePart(hash: string -> string, box: Toolbox, blobs: Blobs, p: Platform)
    requires WholeOrEmpty(hash, blobs, Written(hash, box))
    ensures WholeOrEmpty(hash, blobs, WrittenFor(hash, box, p))
  {
    hide WrittenFor;
    forall x | x in WrittenFor(hash, box, p) ensures x in Written(hash, box) {}
  }

  // ---------------------------------------------------------------- The whole trip

  lemma UncachedHolds(hash: string -> string, box: Toolbox, d: Disk)
    requires Ready(hash, d, BoxEvents(hash, box))
    ensures Holds(hash, Uncached(BoxEvents(hash, box)), Written(hash, box))
  {
    var events := BoxEvents(hash, box);
    UncachedExact(hash, d, events);
    var w := Written(hash, box);
    hide Ready, Uncached, BoxEvents, Written, Times;
    forall i | 0 <= i < |w| ensures hash(w[i]) in Uncached(events) && Uncached(events)[hash(w[i])] == w[i] {
      WrittenIsEvent(hash, box, w[i]);
    }
  }

  lemma PulledWholeOrEmpty(hash: string -> string, box: Toolbox, d: Disk)
    requires Ready(hash, d, BoxEvents(hash, box))
    ensures WholeOrEmpty(hash, Files(Run(hash, d, BoxEvents(hash, box))), Written(hash, box))
  {
    var events := BoxEvents(hash, box);
    hide Ready, BoxEvents, Written, Run;
    forall x | x in Written(hash, box)
      ensures var blobs := Files(Run(hash, d, events));
              hash(x) in blobs && (blobs[hash(x)] == x || blobs[hash(x)] == "")
    {
      WrittenIsEvent(hash, box, x);
      var i :| 0 <= i < |events| && events[i].h == hash(x) && events[i].bytes == x;
      PullExact(hash, d, events, i);
      hide EmptiedAt;
    }
  }

  lemma EmptiedIsNotHeld(hash: string -> string, box: Toolbox, d: Disk)
    requires Ready(hash, d, BoxEvents(hash, box)) && !NoneEmptied(d.links, BoxEvents(hash, box))
    ensures !Holds(hash, Files(Run(hash, d, BoxEvents(hash, box))), Written(hash, box))
  {
    var events := BoxEvents(hash, box);
    hide Ready, BoxEvents, Written, Run;
    var i :| 0 <= i < |events| && EmptiedAt(d.links, events, i);
    PullExact(hash, d, events, i);
    EventIsWritten(hash, box, i);
    assert events[i].bytes != "";
    var w := Written(hash, box);
    var k :| 0 <= k < |w| && w[k] == events[i].bytes;
    assert Files(Run(hash, d, events))[hash(w[k])] == "";
  }

  /**
   A packed toolbox pulled from a registry that serves it unpacks exactly when no tool name repeats within a
   platform, the pull emptied nothing, and the machine receives the toolbox; then it is installed as it would
   be from the layout that was packed.
   */
  lemma PulledUnpacks(hash: string -> string, box: Toolbox, d: Disk, home: Path, pid: nat, t: Tree)
    requires ValidHash(hash) && TextBox(box) && Packs(hash, box) && Prepared(hash, d, BoxEvents(hash, box))
    ensures var blobs := Files(Run(hash, d, BoxEvents(hash, box)));
            var o := UnpackOutcome(hash, Some(MARKER), blobs, Some(IndexBytes(IndexOf(hash, box))), home, pid, t);
            && (o.result.Ok? <==>
                UniqueTools(box) && NoneEmptied(d.links, BoxEvents(hash, box)) && Receives(t, home, pid, box))
            && (o.result.Ok? ==> o.result == Ok(Grouped(box)) && IsInstalled(o.tree, t, home, pid, box))
  {
    var events := BoxEvents(hash, box);
    var blobs := Files(Run(hash, d, events));
    BoxEventsGenuine(hash, box);
    hide Prepared, Genuine, BoxEvents, Run, NoneEmptied, Files, Uncached, Holds, Written, WholeOrEmpty, ValidHash,
        TextBox, Packs, UniqueTools, Grouped,
      IsInstalled, Receives, IndexBytes, IndexOf, MARKER, UnpackManifests, Listed, Settled, FreshStaging, Staging;
    if NoneEmptied(d.links, events) {
      hide UnpackOutcome;
      RefinesUncached(hash, d, events);
      UncachedHolds(hash, box, d);
      PackedOutcome(hash, box, blobs, home, pid, t);
    } else {
      EmptiedIsNotHeld(hash, box, d);
      PulledWholeOrEmpty(hash, box, d);
      PackedManifests(hash, box);
      var staging := Staging(home, pid);
      if UnpackManifests(hash, blobs, staging, FreshStaging(t, staging), IndexOf(hash, box).manifests).failed.None? {
        UnpackedIsWhole(hash, box, blobs, staging, FreshStaging(t, staging));
      }
    }
  }

  /**
   One script packed for both platforms never gets through a pull where hard links work: the second
   manifest's layer empties the first's, in the layout and in the cache.
   */
  lemma SharedScript(hash: string -> string, box: Toolbox, script: string)
    requires CollisionFree(hash, Written(hash, box)) && script != ""
    requires forall p: Platform ::
      |ToolsFor(box.tools, p)| == 1 && Content(box, ToolsFor(box.tools, p)[0]) == script
      && script != ConfigFor(box, p) && script != ManifestText(hash, box, p)
    ensures !NoneEmptied(true, BoxEvents(hash, box))
  {
    OneToolEvents(hash, box, LinuxAmd64, script);
    OneToolEvents(hash, box, LinuxArm64, script);
    hide EventsFor, ManifestText, ConfigFor, ToolsFor, Written, Content;
    var e := BoxEvents(hash, box);
    ThirdAgain(e[0], e[1], e[3], e[4], e[2]);
    assert e == [e[0], e[1], e[2], e[3], e[4], e[5]];
  }

  lemma OneToolEvents(hash: string -> string, box: Toolbox, p: Platform, script: string)
    requires CollisionFree(hash, Written(hash, box))
    requires |ToolsFor(box.tools, p)| == 1 && Content(box, ToolsFor(box.tools, p)[0]) == script
    requires script != ConfigFor(box, p) && script != ManifestText(hash, box, p)
    ensures var e := EventsFor(hash, box, p);
            |e| == 3 && e[2] == FetchBytes(hash, script) && e[0].h != hash(script) && e[1].h != hash(script)
  {
    hide ManifestBytes, ManifestOf, ConfigFor, ToolsFor, Content;
    var w := WrittenFor(hash, box, p);
    var n := if p == LinuxAmd64 then 0 else |WrittenFor(hash, box, LinuxAmd64)|;
    assert w == [ConfigFor(box, p), script, ManifestText(hash, box, p)];
    assert forall i :: 0 <= i < 3 ==> Written(hash, box)[n + i] == w[i];
    hide WrittenFor, Written, ManifestText;
    assert hash(w[0]) != hash(w[1]) && hash(w[2]) != hash(w[1]) by {
      assert Written(hash, box)[n] == w[0] && Written(hash, box)[n + 1] == w[1] && Written(hash, box)[n + 2] == w[2];
    }
    assert BlobsFor(hash, box, p) == [ConfigFor(box, p), script];
    hide BlobsFor;
  }
}
