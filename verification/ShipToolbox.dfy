/** The four commands in a row: pack, push, pull into another machine's layout, unpack. */
module ShipToolbox {
  import opened Wrappers
  import opened Text
  import opened OciDocs
  import opened Oci
  import opened FileTree
  import opened OciRoundTrip
  import opened OciSettle
  import opened OciArrival
  import opened OciDisk
  import opened ToolboxLock
  import opened PullDisk
  import opened RegistryPull
  import opened PullTheorems
  import opened Shipping
  import P = RegistryPush

  // ---------------------------------------------------------------- A packed layout pushes

  /** What the registry client reads of one packed manifest. */
  lemma PackedDocument(hash: string -> string, box: Toolbox, blobs: Blobs, p: Platform)
    requires ValidHash(hash) && TextBox(box) && ToolsFor(box.tools, p) != [] &&
        Holds(hash, blobs, WrittenFor(hash, box, p))
    ensures var d := DescriptorsFor(hash, box, p)[0];
            && ReadBlob(hash, blobs, d) == Ok(ManifestText(hash, box, p))
            && P.DocumentAt(hash, blobs, d).Ok? && P.Refs(P.DocumentAt(hash, blobs, d).value) == RefsFor(hash, box, p)
  {
    HeldEnds(hash, box, blobs, p);
    EndsRead(hash, box, blobs, p);
    DescriptorForExact(hash, box, p);
    RefsForExact(hash, box, p);
    hide WrittenFor, ManifestBytes, ManifestOf, ToolsFor, DescriptorsFor, ParseDocument, RefsFor, ValidHash, TextBox,
        Holds, IsHash, Digest,
      MANIFEST_TYPE;
    ReadBack(hash, blobs, ManifestText(hash, box, p), DescriptorsFor(hash, box, p)[0]);
    hide ReadBlob;
  }

  lemma PackedRefsReadable(hash: string -> string, box: Toolbox, blobs: Blobs, p: Platform)
    requires ValidHash(hash) && ToolsFor(box.tools, p) != [] && Holds(hash, blobs, WrittenFor(hash, box, p))
    ensures P.AllReadable(hash, blobs, RefsFor(hash, box, p))
  {
    var refs := RefsFor(hash, box, p);
    forall i | 0 <= i < |refs| ensures ReadBlob(hash, blobs, refs[i]).Ok? {
      RefIsBlob(hash, box, p, i);
      var x := BlobsFor(hash, box, p)[i];
      assert WrittenFor(hash, box, p)[i] == x by {
        hide ConfigFor, ManifestBytes, ManifestOf, ToolsFor, Content;
      }
      assert IsHash(hash(x));
      hide RefsFor, BlobsFor, WrittenFor, ReadBlob, Digest, IsHash, ValidHash;
      ReadBack(hash, blobs, x, refs[i]);
    }
  }

  function RefsOrNone(hash: string -> string, box: Toolbox, p: Platform): seq<Descriptor> {
    if ToolsFor(box.tools, p) == [] then [] else RefsFor(hash, box, p)
  }

  lemma PlatformOccurrences(hash: string -> string, box: Toolbox, blobs: Blobs, p: Platform, before: seq<Descriptor>)
    requires ValidHash(hash) && TextBox(box) && Holds(hash, blobs, WrittenFor(hash, box, p)) &&
        P.Readable(hash, blobs, before)
    ensures P.Occurrences(hash, blobs, before + DescriptorsFor(hash, box, p))
         == P.Occurrences(hash, blobs, before) + RefsOrNone(hash, box, p)
    ensures P.Readable(hash, blobs, before + DescriptorsFor(hash, box, p))
  {
    hide ToolsFor, WrittenFor, RefsFor, P.DocumentAt, P.Refs, ReadBlob, P.Occurrences, ManifestText, ManifestBytes,
        ManifestOf, TextBox, ValidHash;
    if ToolsFor(box.tools, p) == [] {
      assert before + DescriptorsFor(hash, box, p) == before;
      assert P.Occurrences(hash, blobs, before) + [] == P.Occurrences(hash, blobs, before);
    } else {
      DescriptorForExact(hash, box, p);
      hide DescriptorsFor;
      var d := DescriptorsFor(hash, box, p)[0];
      assert DescriptorsFor(hash, box, p) == [d];
      PackedDocument(hash, box, blobs, p);
      PackedRefsReadable(hash, box, blobs, p);
      P.OccurrencesSnoc(hash, blobs, before, d);
    }
  }

  lemma PackedOccurrences(hash: string -> string, box: Toolbox, blobs: Blobs)
    requires ValidHash(hash) && TextBox(box) && Holds(hash, blobs, Written(hash, box))
    ensures P.Occurrences(hash, blobs, IndexOf(hash, box).manifests)
         == RefsOrNone(hash, box, LinuxAmd64) + RefsOrNone(hash, box, LinuxArm64)
    ensures P.Readable(hash, blobs, IndexOf(hash, box).manifests)
  {
    SplitHolds(hash, blobs, WrittenFor(hash, box, LinuxAmd64), WrittenFor(hash, box, LinuxArm64));
    assert P.Occurrences(hash, blobs, []) == [];
    hide ValidHash, TextBox, Holds, WrittenFor, DescriptorsFor, P.Occurrences, RefsOrNone, ReadBlob, P.DocumentAt;
    PlatformOccurrences(hash, box, blobs, LinuxAmd64, []);
    var first := DescriptorsFor(hash, box, LinuxAmd64);
    assert [] + first == first && [] + RefsOrNone(hash, box, LinuxAmd64) == RefsOrNone(hash, box, LinuxAmd64);
    PlatformOccurrences(hash, box, blobs, LinuxArm64, first);
  }

  // ---------------------------------------------------------------- A pushed layout is served

  /** A registry's answers: what it stores, the blobs cut up in any way. */
  predicate Answers(server: Server, stored: Blobs, manifests: map<string, string>, references: map<string, string>) {
    && server.manifests == manifests && server.references == references
    && forall d :: d in stored ==> d in server.blobs && Flatten(server.blobs[d]) == stored[d]
  }

  lemma BlobServed(
    hash: string -> string, box: Toolbox, p: Platform, blobs: Blobs, stored: Blobs, i: nat)
    requires ValidHash(hash) && ToolsFor(box.tools, p) != [] && Holds(hash, blobs, WrittenFor(hash, box, p)) &&
        P.Agrees(blobs, stored)
    requires i < |BlobsFor(hash, box, p)| && P.Digests(RefsFor(hash, box, p)) <= stored.Keys
    ensures var x := BlobsFor(hash, box, p)[i]; Digest(hash, x) in stored && stored[Digest(hash, x)] == x
  {
    RefIsBlob(hash, box, p, 0);
    RefIsBlob(hash, box, p, i);
    var x := BlobsFor(hash, box, p)[i];
    assert WrittenFor(hash, box, p)[i] == x by {
      hide ConfigFor, ManifestBytes, ManifestOf, ToolsFor, Content;
    }
    assert IsHash(hash(x));
    DigestHashes(hash, x);
    var refs := RefsFor(hash, box, p);
    hide RefsFor, BlobsFor, WrittenFor, Digest, DigestHash, IsHash, ValidHash;
    assert refs[i] in refs;
    assert refs[i].digest in P.Digests(refs);
  }

  lemma PushedServes(
    hash: string -> string, box: Toolbox, p: Platform, blobs: Blobs, stored: Blobs, manifests: map<string, string>,
    references: map<string, string>, server: Server)
    requires ValidHash(hash) && TextBox(box) && Holds(hash, blobs, Written(hash, box))
    requires P.Complete(hash, blobs, IndexOf(hash, box).manifests, stored, manifests) && P.Agrees(blobs, stored)
    requires Answers(server, stored, manifests, references)
    ensures Serves(hash, box, p, server)
  {
    if ToolsFor(box.tools, p) != [] {
      SplitHolds(hash, blobs, WrittenFor(hash, box, LinuxAmd64), WrittenFor(hash, box, LinuxArm64));
      PackedOccurrences(hash, box, blobs);
      P.DigestsAppend(RefsOrNone(hash, box, LinuxAmd64), RefsOrNone(hash, box, LinuxArm64));
      assert P.Digests(RefsFor(hash, box, p)) <= stored.Keys by {
        hide P.Digests, RefsFor, Holds, P.HoldsManifests;
      }
      PackedDocument(hash, box, blobs, p);
      DescriptorForExact(hash, box, p);
      var k := if p == LinuxAmd64 then 0 else |DescriptorsFor(hash, box, LinuxAmd64)|;
      assert IndexOf(hash, box).manifests[k] == DescriptorsFor(hash, box, p)[0];
      hide DescriptorsFor, ManifestText, ManifestBytes, ManifestOf, RefsFor, BlobsFor, ToolsFor, WrittenFor, Digest,
          ReadBlob, P.Occurrences,
        P.Digests, P.DocumentAt, ValidHash, TextBox, Holds;
      forall i | 0 <= i < |BlobsFor(hash, box, p)|
        ensures var x := BlobsFor(hash, box, p)[i];
                Digest(hash, x) in server.blobs && Flatten(server.blobs[Digest(hash, x)]) == x
      {
        BlobServed(hash, box, p, blobs, stored, i);
      }
    }
  }

  lemma PackedHeldIfNeeded(
    hash: string -> string, box: Toolbox, p: Platform, blobs: Blobs, stored: Blobs, manifests: map<string, string>)
    requires ValidHash(hash) && TextBox(box) && ToolsFor(box.tools, p) != [] &&
        Holds(hash, blobs, WrittenFor(hash, box, p))
    requires DescriptorsFor(hash, box, p)[0].digest in manifests && P.Agrees(blobs, manifests)
    requires forall d :: d in manifests ==> P.BlobNeeds(manifests[d]) <= stored.Keys
    ensures var d := DescriptorsFor(hash, box, p)[0]; ReadBlob(hash, blobs, d) == Ok(manifests[d.digest])
    ensures P.Digests(RefsFor(hash, box, p)) <= stored.Keys
  {
    var d := DescriptorsFor(hash, box, p)[0];
    PackedDocument(hash, box, blobs, p);
    HeldEnds(hash, box, blobs, p);
    EndsRead(hash, box, blobs, p);
    DescriptorForExact(hash, box, p);
    DigestHashes(hash, ManifestText(hash, box, p));
    hide ManifestBytes, ManifestOf, RefsFor, ToolsFor, WrittenFor, Digest, DigestHash, IsHash, ReadBlob, P.Digests,
        P.Refs, ParseDocument, ValidHash, TextBox,
      Holds, DescriptorsFor;
    assert manifests[d.digest] == ManifestText(hash, box, p);
  }

  lemma ListedAt(hash: string -> string, box: Toolbox, p: Platform)
    requires ToolsFor(box.tools, p) != []
    ensures DescriptorsFor(hash, box, p)[0] in IndexOf(hash, box).manifests
    ensures DescriptorsFor(hash, box, p)[0].digest in P.Digests(IndexOf(hash, box).manifests)
  {
    hide ManifestBytes, ManifestOf, ToolsFor, Digest;
    var k := if p == LinuxAmd64 then 0 else |DescriptorsFor(hash, box, LinuxAmd64)|;
    assert IndexOf(hash, box).manifests[k] == DescriptorsFor(hash, box, p)[0];
  }

  lemma ListedBy(hash: string -> string, box: Toolbox, i: nat) returns (p: Platform)
    requires i < |IndexOf(hash, box).manifests|
    ensures ToolsFor(box.tools, p) != [] && IndexOf(hash, box).manifests[i] == DescriptorsFor(hash, box, p)[0]
  {
    hide ManifestBytes, ManifestOf, ToolsFor, Digest;
    p := if i < |DescriptorsFor(hash, box, LinuxAmd64)| then LinuxAmd64 else LinuxArm64;
  }

  lemma NeedsListed(hash: string -> string, box: Toolbox)
    requires ValidHash(hash)
    ensures P.ManifestNeeds(IndexBytes(IndexOf(hash, box))) == P.Digests(IndexOf(hash, box).manifests)
  {
    PackedListed(hash, box);
    hide ParseDocument, IndexBytes, INDEX_TYPE, IndexOf, P.Digests, SupportedPlatform;
  }

  lemma AlreadyHeld(
    hash: string -> string, box: Toolbox, p: Platform, blobs: Blobs, stored: Blobs, manifests: map<string, string>,
    references: map<string, string>, reference: string)
    requires ValidHash(hash) && TextBox(box) && Holds(hash, blobs, WrittenFor(hash, box, p))
    requires P.Closed(stored, manifests, references) && P.Agrees(blobs, manifests)
    requires reference in references && references[reference] == IndexBytes(IndexOf(hash, box))
    ensures HeldFor(hash, box, p, blobs, stored, manifests)
  {
    hide ValidHash, TextBox, Holds, WrittenFor, IndexBytes, IndexOf, P.Digests, P.Agrees, P.BlobNeeds, P.ManifestNeeds,
        ToolsFor, ManifestBytes,
      ManifestOf, ReadBlob, RefsFor;
    if ToolsFor(box.tools, p) != [] {
      NeedsListed(hash, box);
      ListedAt(hash, box, p);
      PackedHeldIfNeeded(hash, box, p, blobs, stored, manifests);
    }
  }

  /** One platform's manifest and blobs are in the registry. */
  predicate HeldFor(
    hash: string -> string, box: Toolbox, p: Platform, blobs: Blobs, stored: Blobs, manifests: map<string, string>)
  {
    ToolsFor(box.tools, p) != [] ==>
      var d := DescriptorsFor(hash, box, p)[0];
      && d.digest in manifests && ReadBlob(hash, blobs, d) == Ok(manifests[d.digest])
      && P.Digests(RefsFor(hash, box, p)) <= stored.Keys
  }

  /** A consistent registry whose reference is the packed index already holds everything. */
  lemma AlreadyComplete(
    hash: string -> string, box: Toolbox, blobs: Blobs, stored: Blobs, manifests: map<string, string>,
    references: map<string, string>, reference: string)
    requires ValidHash(hash) && TextBox(box) && Holds(hash, blobs, Written(hash, box))
    requires P.Closed(stored, manifests, references) && P.Agrees(blobs, manifests)
    requires reference in references && references[reference] == IndexBytes(IndexOf(hash, box))
    ensures P.Complete(hash, blobs, IndexOf(hash, box).manifests, stored, manifests)
  {
    hide ValidHash, TextBox, Holds, WrittenFor, P.Closed, P.Agrees, IndexBytes, IndexOf, HeldFor, P.Complete,
        P.Occurrences;
    SplitHolds(hash, blobs, WrittenFor(hash, box, LinuxAmd64), WrittenFor(hash, box, LinuxArm64));
    PackedOccurrences(hash, box, blobs);
    AlreadyHeld(hash, box, LinuxAmd64, blobs, stored, manifests, references, reference);
    AlreadyHeld(hash, box, LinuxArm64, blobs, stored, manifests, references, reference);
    CompleteFrom(hash, box, blobs, stored, manifests);
  }

  lemma CompleteFrom(
    hash: string -> string, box: Toolbox, blobs: Blobs, stored: Blobs, manifests: map<string, string>)
    requires HeldFor(hash, box, LinuxAmd64, blobs, stored, manifests) &&
        HeldFor(hash, box, LinuxArm64, blobs, stored, manifests)
    requires P.Occurrences(hash, blobs, IndexOf(hash, box).manifests)
          == RefsOrNone(hash, box, LinuxAmd64) + RefsOrNone(hash, box, LinuxArm64)
    ensures P.Complete(hash, blobs, IndexOf(hash, box).manifests, stored, manifests)
  {
    hide ReadBlob, P.Occurrences, ToolsFor, RefsFor, P.Digests, ManifestBytes, ManifestOf;
    P.DigestsAppend(RefsOrNone(hash, box, LinuxAmd64), RefsOrNone(hash, box, LinuxArm64));
    P.CountNothing({});
    assert P.Digests(P.Occurrences(hash, blobs, IndexOf(hash, box).manifests)) <= stored.Keys;
    hide RefsOrNone;
    var all := IndexOf(hash, box).manifests;
    forall i | 0 <= i < |all|
      ensures all[i].digest in manifests && ReadBlob(hash, blobs, all[i]) == Ok(manifests[all[i].digest])
    {
      var p := ListedBy(hash, box, i);
      hide IndexOf, DescriptorsFor;
    }
    hide IndexOf, DescriptorsFor, HeldFor;
  }

  // ---------------------------------------------------------------- The four commands

  /** The packed index, its blobs and the events of pulling them. */
  function PackedBlobs(hash: string -> string, box: Toolbox): Blobs {
    PutAll(hash, map[], Written(hash, box))
  }

  function PackedIndexBytes(hash: string -> string, box: Toolbox): string {
    IndexBytes(IndexOf(hash, box))
  }

  /** What the registry may hold beforehand: nothing else under our names, and our index only with all it needs. */
  ghost predicate Welcomes(
    hash: string -> string, box: Toolbox, reference: string, stored: Blobs, manifests: map<string, string>,
        references: map<string, string>)
  {
    && P.Agrees(PackedBlobs(hash, box), stored) && P.Agrees(PackedBlobs(hash, box), manifests)
    && (P.AlreadyPushed(hash, Some(PackedIndexBytes(hash, box)), reference, references) ==>
          P.Closed(stored, manifests, references) && references[reference] == PackedIndexBytes(hash, box))
    && ("sha256:" <= reference ==> reference == Digest(hash, PackedIndexBytes(hash, box)))
  }

  /** After a push that went through, the registry serves the packed toolbox. */
  method PushBox(hash: string -> string, ghost box: Toolbox, layout: Layout, reference: string, registry: P.Registry)
    requires ValidHash(hash) && TextBox(box) && CollisionFree(hash, Written(hash, box))
    requires layout.blobs == PackedBlobs(hash, box) && layout.index == Some(PackedIndexBytes(hash, box))
    requires !P.Flaky(registry.net)
    requires Welcomes(hash, box, reference, registry.blobs, registry.manifests, registry.references)
    modifies registry
    ensures reference in registry.references && registry.references[reference] == PackedIndexBytes(hash, box)
    ensures P.Complete(hash, PackedBlobs(hash, box), IndexOf(hash, box).manifests, registry.blobs, registry.manifests)
    ensures P.Agrees(PackedBlobs(hash, box), registry.blobs)
  {
    var blobs := layout.blobs;
    PackedHolds(hash, box);
    PackedOccurrences(hash, box, blobs);
    PackedListed(hash, box);
    assert P.IndexManifests(layout.index) == Some(IndexOf(hash, box).manifests) by {
      hide IndexBytes, ParseDocument, IndexOf, SupportedPlatform;
    }
    hide ValidHash, TextBox, CollisionFree, Holds, Written, P.Closed, P.Agrees, P.Honest, P.Grew, P.Complete, P.Flaky,
        P.Occurrences, P.Readable,
      P.IndexManifests, PackedBlobs, IndexOf, IndexBytes, ParseDocument, P.Accounted, P.CountNew, P.Digests, Digest,
          SupportedPlatform;
    if P.AlreadyPushed(hash, layout.index, reference, registry.references) {
      AlreadyComplete(hash, box, blobs, registry.blobs, registry.manifests, registry.references, reference);
    }
    var report := P.PushLayout(hash, layout.index, blobs, reference, registry);
  }

  /** A pull from a registry that serves a packed toolbox goes through, and its disk is the foreseen one. */
  method PullBox(hash: string -> string, ghost box: Toolbox, server: Server, reference: string, store: PullStore)
    requires ValidHash(hash) && TextBox(box) && IndexOf(hash, box).manifests != []
    requires Serves(hash, box, LinuxAmd64, server) && Serves(hash, box, LinuxArm64, server)
    requires reference in server.references && server.references[reference] == PackedIndexBytes(hash, box)
    requires "sha256:" <= reference ==> reference == Digest(hash, PackedIndexBytes(hash, box))
    requires !store.present && store.layout == map[]
    modifies store
    ensures store.View() == Run(hash, old(store.View()), BoxEvents(hash, box))
    ensures store.marker == Some(MARKER) && store.index == Some(PackedIndexBytes(hash, box))
  {
    PackedIndex(hash, box, server, reference);
    BoxEventsExact(hash, box, server);
    hide ValidHash, TextBox, Serves, IndexOf, IndexBytes, Digest, PullIndex, AllGood, Events, BoxEvents, Run, Checked,
        FetchCount, ManifestsGood, MARKER,
      LocalIndexBytes;
    var report := store.PullLayout(hash, server, reference);
  }

  /** Push, then pull elsewhere. */
  method Transfer(hash: string -> string, ghost box: Toolbox, layout: Layout, reference: string, registry: P.Registry,
                  cut: string -> seq<string>, store: PullStore)
    requires ValidHash(hash) && TextBox(box) && CollisionFree(hash, Written(hash, box)) &&
        IndexOf(hash, box).manifests != []
    requires layout.blobs == PackedBlobs(hash, box) && layout.index == Some(PackedIndexBytes(hash, box))
    requires !P.Flaky(registry.net) && forall s: string :: Flatten(cut(s)) == s
    requires Welcomes(hash, box, reference, registry.blobs, registry.manifests, registry.references)
    requires !store.present && store.layout == map[]
    modifies registry, store
    ensures store.View() == Run(hash, old(store.View()), BoxEvents(hash, box))
    ensures store.marker == Some(MARKER) && store.index == Some(PackedIndexBytes(hash, box))
  {
    assert "sha256:" <= reference ==> reference == Digest(hash, PackedIndexBytes(hash, box));
    PackedHolds(hash, box);
    hide ValidHash, TextBox, CollisionFree, Written, PutAll, IndexBytes, IndexOf, MARKER, BoxEvents, Welcomes, P.Flaky,
        P.Complete, P.Agrees, Serves, Run,
      Digest, Holds, Flatten;
    PushBox(hash, box, layout, reference, registry);
    var server := Server(registry.references, registry.manifests, map d | d in registry.blobs ::
        cut(registry.blobs[d]));
    assert Answers(server, registry.blobs, registry.manifests, registry.references);
    hide Answers;
    PushedServes(hash, box, LinuxAmd64, layout.blobs, registry.blobs, registry.manifests, registry.references, server);
    PushedServes(hash, box, LinuxArm64, layout.blobs, registry.blobs, registry.manifests, registry.references, server);
    PullBox(hash, box, server, reference, store);
  }

  /** Unpacking reads the very directory the pull wrote. */
  method UnpackPulled(hash: string -> string, ghost box: Toolbox, ghost start: Disk, store: PullStore, target: Root,
      pid: nat)
    returns (r: Result<seq<LockedTool>, Error>)
    requires ValidHash(hash) && TextBox(box) && Packs(hash, box) && Prepared(hash, start, BoxEvents(hash, box))
    requires store.View() == Run(hash, start, BoxEvents(hash, box))
    requires store.marker == Some(MARKER) && store.index == Some(PackedIndexBytes(hash, box))
    modifies target
    ensures r.Ok? <==>
      UniqueTools(box) && NoneEmptied(start.links, BoxEvents(hash, box)) &&
        Receives(old(target.tree), target.home, pid, box)
    ensures r.Ok? ==> r.value == Grouped(box) && target.Lock() == Some(r.value)
    ensures r.Ok? && AllBelow(BoxAttempts(box)) ==>
        (Arrived(hash, box, target.home, target.tree) <==> Agreeing(BoxAttempts(box)))
  {
    hide ValidHash, TextBox, UnpackOutcome, IndexBytes, IndexOf, MARKER, Prepared, BoxEvents, Run, UniqueTools,
        NoneEmptied, Grouped, Packs, Files, Arrived,
      Receives, AllBelow, Agreeing, BoxAttempts, ParseLock, PackedIndexBytes;
    ghost var before := target.tree;
    var pulled := new Layout();
    pulled.marker, pulled.index, pulled.blobs := store.marker, store.index, Files(store.View());
    r := target.Unpack(hash, pulled, pid);
    PulledResult(hash, box, start, target, before, pid, r);
  }

  /** What an unpack of the pulled layout comes to. */
  lemma PulledResult(hash: string -> string, box: Toolbox, start: Disk, target: Root, before: Tree, pid: nat,
      r: Result<seq<LockedTool>, Error>)
    requires ValidHash(hash) && TextBox(box) && Packs(hash, box) && Prepared(hash, start, BoxEvents(hash, box))
    requires Outcome(target.tree, r)
          == UnpackOutcome(hash, Some(MARKER), Files(Run(hash, start, BoxEvents(hash, box))),
              Some(PackedIndexBytes(hash, box)), target.home, pid, before)
    ensures r.Ok? <==>
      UniqueTools(box) && NoneEmptied(start.links, BoxEvents(hash, box)) && Receives(before, target.home, pid, box)
    ensures r.Ok? ==> r.value == Grouped(box) && target.Lock() == Some(r.value)
    ensures r.Ok? && AllBelow(BoxAttempts(box)) ==>
        (Arrived(hash, box, target.home, target.tree) <==> Agreeing(BoxAttempts(box)))
  {
    hide ValidHash, TextBox, UnpackOutcome, IndexBytes, IndexOf, MARKER, Prepared, BoxEvents, Run, UniqueTools,
        NoneEmptied, Grouped, Packs, Files, Arrived,
      Receives, IsInstalled, AllBelow, Agreeing, BoxAttempts, ParseLock;
    PulledUnpacks(hash, box, start, target.home, pid, before);
    if r.Ok? {
      LocksRead(hash, box, target, before, pid);
      if AllBelow(BoxAttempts(box)) { ArrivedExact(hash, target.tree, before, target.home, pid, box); }
    }
  }

  /** Packing into a directory that is not there yet. */
  method PackFresh(hash: string -> string, source: Root) returns (layout: Layout)
    requires source.Lock().Some? && Packs(hash, source.Box())
    ensures fresh(layout)
    ensures layout.blobs == PackedBlobs(hash, source.Box()) &&
        layout.index == Some(PackedIndexBytes(hash, source.Box()))
  {
    layout := new Layout();
    hide Written, PutAll, IndexBytes, IndexOf, MARKER, Packs, PackPlatforms, ParseLock, ParseProjectLock, FilesOf;
    PackExact(hash, source.Box());
    var failed := source.Pack(hash, layout);
  }

  /**
   Pack, push, pull and unpack in a row, over a network that loses nothing, whatever the registry and the
   pull cache held before as long as it does not collide with what is sent. The toolbox is installed exactly
   when no tool name repeats within a platform, no blob is emptied by repeating, and the machine receives it;
   its contents have arrived, for names that stay below the toolbox directory, exactly when tools that end in
   one file agree.
   */
  method Ship(hash: string -> string, source: Root, reference: string, registry: P.Registry, cut: string -> seq<string>,
              store: PullStore, target: Root, pid: nat)
    returns (r: Result<seq<LockedTool>, Error>)
    requires source != target && source.Lock().Some?
    requires ValidHash(hash) && TextBox(source.Box()) && Packs(hash, source.Box())
    requires CollisionFree(hash, Written(hash, source.Box())) && IndexOf(hash, source.Box()).manifests != []
    requires !P.Flaky(registry.net) && forall s: string :: Flatten(cut(s)) == s
    requires Welcomes(hash, source.Box(), reference, registry.blobs, registry.manifests, registry.references)
    requires !store.present && store.layout == map[] && Prepared(hash, store.View(), BoxEvents(hash, source.Box()))
    modifies registry, store, target
    ensures r.Ok? <==>
      && UniqueTools(old(source.Box())) && NoneEmptied(store.links, BoxEvents(hash, old(source.Box())))
      && Receives(old(target.tree), target.home, pid, old(source.Box()))
    ensures r.Ok? ==> r.value == Grouped(old(source.Box())) && target.Lock() == Some(r.value)
    ensures r.Ok? && AllBelow(BoxAttempts(old(source.Box()))) ==>
      (Arrived(hash, old(source.Box()), target.home, target.tree) <==> Agreeing(BoxAttempts(old(source.Box()))))
  {
    ghost var box, start := source.Box(), store.View();
    hide ValidHash, TextBox, CollisionFree, Written, PackedBlobs, IndexBytes, IndexOf, MARKER, Prepared, BoxEvents,
        Welcomes, P.Flaky, Run, UniqueTools,
      NoneEmptied, Grouped, Arrived, Packs, Flatten, Receives, AllBelow, Agreeing, BoxAttempts, ParseLock,
          ParseProjectLock, FilesOf, PackedIndexBytes;
    var layout := PackFresh(hash, source);
    Transfer(hash, box, layout, reference, registry, cut, store);
    r := UnpackPulled(hash, box, start, store, target, pid);
  }
}
