/**
 Pulling a layout through the local blob cache (OCI Distribution Specification, Pull). The registry's
 answers are arbitrary: whatever is kept was checked against a digest.
 */
module RegistryPull {
  import opened Wrappers
  import opened Text
  import opened Json
  import opened OciDocs
  import opened Oci
  import opened PullDisk
  import RegistryPush

  /** What GET answers: a body by reference, by manifest digest, and a blob's body in the chunks it arrives in. */
  datatype Server = Server(references: map<string, string>, manifests: map<string, string>, blobs: map<string,
      seq<string>>)

  datatype PullError =
    | OutputExists | Remote | WrongRoot | BadDocument | NotAnIndex | NoManifests | BadManifestType | Blob(error: Error)

  datatype PullReport = PullReport(digest: string, downloaded: nat, cached: nat)

  predicate SupportedPlatform(d: Descriptor) {
    d.platform.Some? && d.platform.value.os == "linux" && d.platform.value.architecture in ["amd64", "arm64"]
  }

  function Supported(ds: seq<Descriptor>): (r: seq<Descriptor>)
    ensures forall i :: 0 <= i < |r| ==> SupportedPlatform(r[i]) && r[i] in ds
    ensures (forall i :: 0 <= i < |ds| ==> SupportedPlatform(ds[i])) ==> r == ds
  {
    if ds == [] then []
    else if SupportedPlatform(ds[0]) then [ds[0]] + Supported(ds[1..])
    else Supported(ds[1..])
  }

  // ---------------------------------------------------------------- The index written next to the blobs

  function LocalDescriptorJson(d: Descriptor): Json {
    JObj((if d.mediaType == "" then [] else [Field("mediaType", JStr(d.mediaType))])
         + [Field("digest", JStr(d.digest)), Field("size", JNum(d.size))] + PlatformField(d.platform))
  }

  function LocalDescriptors(ds: seq<Descriptor>): (items: seq<Json>)
    ensures |items| == |ds| && forall i :: 0 <= i < |ds| ==> items[i] == LocalDescriptorJson(ds[i])
  {
    seq(|ds|, i requires 0 <= i < |ds| => LocalDescriptorJson(ds[i]))
  }

  function LocalIndexBytes(ds: seq<Descriptor>): string {
    Print(JObj([Field("schemaVersion", JNum(2)), Field("mediaType", JStr(INDEX_TYPE)),
                Field("manifests", JArr(LocalDescriptors(ds)))]), Pretty, 0)
  }

  /** For descriptors without annotations the pulled index is byte for byte the packed one. */
  lemma LocalIndexIsIndex(ds: seq<Descriptor>)
    requires forall i :: 0 <= i < |ds| ==> ds[i].mediaType != "" && ds[i].annotations == []
    ensures LocalIndexBytes(ds) == IndexBytes(IndexFor(ds))
  {
    hide Print, INDEX_TYPE;
    forall i | 0 <= i < |ds| ensures LocalDescriptors(ds)[i] == DescriptorsJson(ds)[i] {
      assert LocalDescriptorJson(ds[i]).fields == DescriptorFields(ds[i]);
    }
    assert LocalDescriptors(ds) == DescriptorsJson(ds);
  }

  // ---------------------------------------------------------------- What a pull does to the disk

  function Hash(d: Descriptor): string {
    DigestHash(d.digest).GetOr("")
  }

  function Body(server: Server, d: Descriptor): string {
    if d.digest in server.blobs then Flatten(server.blobs[d.digest]) else ""
  }

  function Fetches(server: Server, refs: seq<Descriptor>): (r: seq<Event>)
    ensures |r| == |refs| && forall i :: 0 <= i < |refs| ==>
        r[i] == Fetch(Hash(refs[i]), refs[i].size, Body(server, refs[i]))
  {
    seq(|refs|, i requires 0 <= i < |refs| => Fetch(Hash(refs[i]), refs[i].size, Body(server, refs[i])))
  }

  function ManifestBody(server: Server, m: Descriptor): string {
    if m.digest in server.manifests then server.manifests[m.digest] else ""
  }

  function RefsOf(bytes: string): seq<Descriptor> {
    match ParseDocument(bytes) case Some(doc) => RegistryPush.Refs(doc) case None => []
  }

  function ManifestEvents(server: Server, m: Descriptor): seq<Event> {
    [Store(Hash(m), ManifestBody(server, m))] + Fetches(server, RefsOf(ManifestBody(server, m)))
  }

  function Events(server: Server, manifests: seq<Descriptor>): seq<Event> {
    if manifests == [] then []
    else Events(server, manifests[..|manifests| - 1]) + ManifestEvents(server, manifests[|manifests| - 1])
  }

  function FetchCount(events: seq<Event>): nat {
    if events == [] then 0
    else FetchCount(events[..|events| - 1]) + if events[|events| - 1].Fetch? then 1 else 0
  }

  predicate InCache(hash: string -> string, d: Disk, h: string, size: nat) {
    h in d.cache && Intact(hash, h, size, At(d, d.cache[h]))
  }

  /** Nothing unverified is used: a manifest matches its digest, and a blob that was not in the cache too. */
  predicate Checked(hash: string -> string, d: Disk, events: seq<Event>) {
    forall i :: 0 <= i < |events| ==>
      match events[i]
      case Store(h, bytes) => hash(bytes) == h
      case Fetch(h, size, bytes) => Intact(hash, h, size, bytes) || InCache(hash, Run(hash, d, events[..i]), h, size)
  }

  lemma RunSnoc(hash: string -> string, d: Disk, events: seq<Event>, e: Event)
    ensures Run(hash, d, events + [e]) == Step(hash, Run(hash, d, events), e)
    ensures FetchCount(events + [e]) == FetchCount(events) + if e.Fetch? then 1 else 0
  {
    hide Step;
    assert (events + [e])[..|events|] == events;
  }

  lemma CheckedSnoc(hash: string -> string, d: Disk, events: seq<Event>, e: Event)
    requires Checked(hash, d, events)
    requires e.Store? ==> hash(e.bytes) == e.h
    requires e.Fetch? ==> Intact(hash, e.h, e.size, e.bytes) || InCache(hash, Run(hash, d, events), e.h, e.size)
    ensures Checked(hash, d, events + [e])
  {
    hide Run, Intact, InCache;
    var all := events + [e];
    assert all[..|events|] == events;
    forall i | 0 <= i < |events| ensures all[i] == events[i] && all[..i] == events[..i] {}
  }

  lemma NoDigestNoBlob(hash: string -> string, bytes: string, d: Descriptor)
    requires DigestHash(d.digest) == None
    ensures !Verifies(hash, bytes, d)
  {
  }

  lemma StoreStep(hash: string -> string, d: Disk, h: string, bytes: string)
    ensures Step(hash, d, Store(h, bytes)) == StoreBytes(d, h, bytes)
  {
  }

  /** Where a pull stands after some of the fetches of a manifest. */
  predicate Along(hash: string -> string, start: Disk, past: seq<Event>, fetches: seq<Event>, k: nat, now: Disk,
      count: nat)
    requires k <= |fetches|
  {
    && now == Run(hash, start, past + fetches[..k]) && Checked(hash, start, past + fetches[..k])
    && FetchCount(past + fetches[..k]) == FetchCount(past) + count
  }

  lemma AlongNext(
    hash: string -> string, start: Disk, past: seq<Event>, fetches: seq<Event>, k: nat, before: Disk, count: nat)
    requires k < |fetches| && fetches[k].Fetch? && Along(hash, start, past, fetches, k, before, count)
    requires var e := fetches[k]; Intact(hash, e.h, e.size, e.bytes) || InCache(hash, before, e.h, e.size)
    ensures Along(hash, start, past, fetches, k + 1, Step(hash, before, fetches[k]), count + 1)
  {
    hide Run, Step, FetchCount, Checked, Intact, InCache;
    var sofar, e := past + fetches[..k], fetches[k];
    assert past + fetches[..k + 1] == sofar + [e];
    RunSnoc(hash, start, sofar, e);
    CheckedSnoc(hash, start, sofar, e);
  }

  lemma AlongStart(hash: string -> string, start: Disk, past: seq<Event>, fetches: seq<Event>, now: Disk)
    requires now == Run(hash, start, past) && Checked(hash, start, past)
    ensures Along(hash, start, past, fetches, 0, now, 0)
  {
    assert past + fetches[..0] == past;
  }

  lemma AlongEnd(hash: string -> string, start: Disk, past: seq<Event>, fetches: seq<Event>, now: Disk, count: nat)
    requires Along(hash, start, past, fetches, |fetches|, now, count)
    ensures now == Run(hash, start, past + fetches) && Checked(hash, start, past + fetches)
    ensures FetchCount(past + fetches) == FetchCount(past) + count
  {
    assert fetches[..|fetches|] == fetches;
  }

  /** The registry has every blob of a list as the descriptors say. */
  predicate AllServed(hash: string -> string, server: Server, refs: seq<Descriptor>) {
    forall i :: 0 <= i < |refs| ==> refs[i].digest in server.blobs && Verifies(hash, Body(server, refs[i]), refs[i])
  }

  /** The registry has a manifest as its descriptor says, and it is an image manifest. */
  predicate GoodManifest(hash: string -> string, server: Server, m: Descriptor) {
    && m.digest in server.manifests && Verifies(hash, server.manifests[m.digest], m)
    && ParseDocument(server.manifests[m.digest]).Some?
    && ParseDocument(server.manifests[m.digest]).value.mediaType in [MANIFEST_TYPE, DOCKER_MANIFEST_TYPE]
  }

  /** The registry serves whole images. */
  predicate AllGood(hash: string -> string, server: Server, manifests: seq<Descriptor>) {
    forall i :: 0 <= i < |manifests| ==>
      GoodManifest(hash, server, manifests[i]) && AllServed(hash, server, RefsOf(ManifestBody(server, manifests[i])))
  }

  /** The manifests a pull goes on with, or why it stops before them. */
  function PullIndex(hash: string -> string, server: Server, reference: string): Result<seq<Descriptor>, PullError> {
    if reference !in server.references then Err(Remote)
    else if "sha256:" <= reference && reference != Digest(hash, server.references[reference]) then Err(WrongRoot)
    else
      var doc := ParseDocument(server.references[reference]);
      if doc == None then Err(BadDocument)
      else if doc.value.mediaType != INDEX_TYPE && doc.value.mediaType != DOCKER_INDEX_TYPE then Err(NotAnIndex)
      else if Supported(doc.value.manifests) == [] then Err(NoManifests)
      else Ok(Supported(doc.value.manifests))
  }

  function Chosen(hash: string -> string, server: Server, reference: string): seq<Descriptor> {
    match PullIndex(hash, server, reference) case Ok(manifests) => manifests case Err(_) => []
  }

  /** The disk is what the events of the manifests make of it, and they were all checked. */
  predicate Pulled(hash: string -> string, server: Server, manifests: seq<Descriptor>, before: Disk, now: Disk) {
    now == Run(hash, before, Events(server, manifests)) && Checked(hash, before, Events(server, manifests))
  }

  lemma EventsNext(server: Server, manifests: seq<Descriptor>, k: nat)
    requires k < |manifests|
    ensures Events(server, manifests[..k + 1]) == Events(server, manifests[..k]) + ManifestEvents(server, manifests[k])
  {
    hide ManifestEvents;
    assert manifests[..k + 1][..k] == manifests[..k];
  }

  predicate ManifestsGood(hash: string -> string, server: Server, manifests: seq<Descriptor>) {
    forall i :: 0 <= i < |manifests| ==> GoodManifest(hash, server, manifests[i])
  }

  lemma GoodNext(hash: string -> string, server: Server, manifests: seq<Descriptor>, k: nat)
    requires k < |manifests| && ManifestsGood(hash, server, manifests[..k]) && GoodManifest(hash, server, manifests[k])
    ensures ManifestsGood(hash, server, manifests[..k + 1])
  {
    hide GoodManifest;
    forall i | 0 <= i < k ensures GoodManifest(hash, server, manifests[i]) {
      assert manifests[..k][i] == manifests[i];
    }
  }

  lemma PulledNothing(hash: string -> string, server: Server, manifests: seq<Descriptor>, d: Disk)
    ensures ManifestsGood(hash, server, manifests[..0])
    ensures Pulled(hash, server, manifests[..0], d, d) && FetchCount(Events(server, manifests[..0])) == 0
  {
    assert Events(server, manifests[..0]) == [];
  }

  // ---------------------------------------------------------------- The store

  class PullStore {
    var data: map<nat, string>
    var cache: map<string, nat>
    var layout: map<string, nat>
    var next: nat
    const links: bool
    var present: bool
    var marker: Option<string>
    var index: Option<string>

    function View(): Disk
      reads this
    {
      Disk(data, cache, layout, next, links)
    }

    /** `fs::hard_link` and, when it fails, `fs::copy`: the destination is opened and truncated first. */
    method MaterializeBlob(h: string)
      requires h in cache
      modifies this`data, this`layout, this`next
      ensures View() == Materialize(old(View()), h)
    {
      var source := cache[h];
      if links && h !in layout {
        layout := layout[h := source];
        return;
      }
      if h !in layout {
        data := data[next := At(View(), source)];
        layout := layout[h := next];
        next := next + 1;
      } else {
        data := data[layout[h] := ""];
        data := data[layout[h] := At(View(), source)];
      }
    }

    method StoreManifest(h: string, bytes: string)
      modifies this`data, this`cache, this`layout, this`next
      ensures View() == StoreBytes(old(View()), h, bytes)
    {
      if h !in cache {
        data := data[next := bytes];
        cache := cache[h := next];
        next := next + 1;
      }
      MaterializeBlob(h);
    }

    method UseCached(hash: string -> string, h: string, size: nat) returns (hit: bool)
      modifies this`data, this`cache, this`layout, this`next
      ensures (View(), hit) == MaterializeCached(hash, old(View()), h, size)
    {
      if h !in cache { return false; }
      if !Intact(hash, h, size, At(View(), cache[h])) {
        cache := cache - {h};
        return false;
      }
      MaterializeBlob(h);
      hit := true;
    }

    /** The body is copied to a temporary file chunk by chunk, which takes the cache name once it checks out. */
    method Download(hash: string -> string, server: Server, d: Descriptor) returns (failed: Option<PullError>)
      modifies this`data, this`cache, this`next
      ensures failed == None ==>
        && DigestHash(d.digest).Some? && d.digest in server.blobs && Intact(hash, Hash(d), d.size, Body(server, d))
        && View() == WriteCache(old(View()), Hash(d), Body(server, d))
      ensures failed != None ==> View() == old(View())
      ensures failed != None ==> !(d.digest in server.blobs && Verifies(hash, Body(server, d), d))
    {
      var h := DigestHash(d.digest);
      if h == None { return Some(Blob(BadDigest)); }
      if d.digest !in server.blobs { return Some(Remote); }
      var chunks := server.blobs[d.digest];
      var file, size, k := "", 0, 0;
      while k < |chunks|
        invariant k <= |chunks| && file == Flatten(chunks[..k]) && size == |file| && View() == old(View())
      {
        file := file + chunks[k];
        size := size + |chunks[k]|;
        FlattenSnoc(chunks[..k], chunks[k]);
        assert chunks[..k + 1] == chunks[..k] + [chunks[k]];
        k := k + 1;
      }
      assert chunks[..k] == chunks;
      if hash(file) != h.value || size != d.size { return Some(Blob(BlobMismatch)); }
      data := data[next := file];
      cache := cache[h.value := next];
      next := next + 1;
      failed := None;
    }

    /** One configuration or layer: from the cache when it is good there, else from the registry. */
    method PullBlob(hash: string -> string, server: Server, d: Descriptor) returns (r: Result<bool, PullError>)
      modifies this`data, this`cache, this`layout, this`next
      ensures r.Ok? ==>
        && View() == Step(hash, old(View()), Fetch(Hash(d), d.size, Body(server, d)))
        && (Intact(hash, Hash(d), d.size, Body(server, d)) || InCache(hash, old(View()), Hash(d), d.size))
      ensures r.Err? ==> !(d.digest in server.blobs && Verifies(hash, Body(server, d), d))
    {
      hide Intact, Body, At, Verifies;
      var h := DigestHash(d.digest);
      if h == None {
        NoDigestNoBlob(hash, Body(server, d), d);
        return Err(Blob(BadDigest));
      }
      var hit := UseCached(hash, h.value, d.size);
      if hit { return Ok(true); }
      var failed := Download(hash, server, d);
      if failed.Some? { return Err(failed.value); }
      MaterializeBlob(h.value);
      r := Ok(false);
    }

    /** The blobs of one manifest. */
    method PullBlobs(hash: string -> string, server: Server, refs: seq<Descriptor>, ghost start: Disk,
        ghost past: seq<Event>)
      returns (r: Result<(nat, nat), PullError>)
      requires View() == Run(hash, start, past) && Checked(hash, start, past)
      modifies this`data, this`cache, this`layout, this`next
      ensures r.Ok? ==>
        Along(hash, start, past, Fetches(server, refs), |refs|, View(), |refs|) && r.value.0 + r.value.1 == |refs|
      ensures r.Err? ==> !AllServed(hash, server, refs)
    {
      var downloaded, cached, k := 0, 0, 0;
      AlongStart(hash, start, past, Fetches(server, refs), View());
      hide Along, Run, Checked, FetchCount, AllServed;
      while k < |refs|
        invariant k <= |refs| && downloaded + cached == k &&
            Along(hash, start, past, Fetches(server, refs), k, View(), k)
      {
        var hit := PullNext(hash, server, refs, k, start, past);
        if hit.Err? { return Err(hit.error); }
        k := k + 1;
        downloaded, cached := if hit.value then downloaded else downloaded + 1, if hit.value then cached + 1
            else cached;
      }
      r := Ok((downloaded, cached));
    }

    method PullNext(hash: string -> string, server: Server, refs: seq<Descriptor>, k: nat, ghost start: Disk,
        ghost past: seq<Event>)
      returns (r: Result<bool, PullError>)
      requires k < |refs| && Along(hash, start, past, Fetches(server, refs), k, View(), k)
      modifies this`data, this`cache, this`layout, this`next
      ensures r.Ok? ==> Along(hash, start, past, Fetches(server, refs), k + 1, View(), k + 1)
      ensures r.Err? ==> !AllServed(hash, server, refs)
    {
      ghost var before := View();
      hide Along, Step, Intact, InCache, Body, Hash, Verifies;
      r := PullBlob(hash, server, refs[k]);
      if r.Ok? { AlongNext(hash, start, past, Fetches(server, refs), k, before, k); }
    }

    /** One turn of the manifest loop: the manifest always comes from the registry, its blobs may not. */
    method PullManifest(hash: string -> string, server: Server, m: Descriptor, ghost start: Disk,
        ghost past: seq<Event>)
      returns (r: Result<(nat, nat), PullError>)
      requires View() == Run(hash, start, past) && Checked(hash, start, past)
      modifies this`data, this`cache, this`layout, this`next
      ensures r.Ok? ==>
        && View() == Run(hash, start, past + ManifestEvents(server, m)) &&
            Checked(hash, start, past + ManifestEvents(server, m))
        && FetchCount(past + ManifestEvents(server, m)) == FetchCount(past) + r.value.0 + r.value.1
        && GoodManifest(hash, server, m)
      ensures r.Err? ==> !(GoodManifest(hash, server, m) && AllServed(hash, server, RefsOf(ManifestBody(server, m))))
    {
      hide Run, Checked, Step, AllServed, FetchCount, ParseDocument, Fetches, Along, MANIFEST_TYPE,
          DOCKER_MANIFEST_TYPE;
      if m.digest !in server.manifests { return Err(Remote); }
      var bytes := server.manifests[m.digest];
      if !Verifies(hash, bytes, m) { return Err(Blob(BlobMismatch)); }
      ghost var e := Store(Hash(m), bytes);
      StoreManifest(Hash(m), bytes);
      RunSnoc(hash, start, past, e);
      CheckedSnoc(hash, start, past, e);
      StoreStep(hash, Run(hash, start, past), Hash(m), bytes);
      var doc := ParseDocument(bytes);
      if doc == None { return Err(BadDocument); }
      if doc.value.mediaType != MANIFEST_TYPE && doc.value.mediaType != DOCKER_MANIFEST_TYPE {
        return Err(BadManifestType);
      }
      r := PullBlobs(hash, server, RegistryPush.Refs(doc.value), start, past + [e]);
      if r.Ok? {
        AlongEnd(hash, start, past + [e], Fetches(server, RegistryPush.Refs(doc.value)), View(), r.value.0 + r.value.1);
      }
      assert past + ManifestEvents(server, m) == past + [e] + Fetches(server, RefsOf(bytes));
    }

    /** The manifest loop. */
    method PullManifests(hash: string -> string, server: Server, manifests: seq<Descriptor>)
        returns (r: Result<(nat, nat), PullError>)
      modifies this`data, this`cache, this`layout, this`next
      ensures r.Ok? ==>
        && Pulled(hash, server, manifests, old(View()), View())
        && r.value.0 + r.value.1 == FetchCount(Events(server, manifests))
        && ManifestsGood(hash, server, manifests)
      ensures r.Err? ==> !AllGood(hash, server, manifests)
    {
      ghost var start := View();
      var downloaded, cached, k := 0, 0, 0;
      PulledNothing(hash, server, manifests, start);
      hide Run, Checked, FetchCount, Events, ManifestEvents, GoodManifest, AllServed, RefsOf, ManifestsGood;
      while k < |manifests|
        invariant k <= |manifests| && Pulled(hash, server, manifests[..k], start, View())
        invariant downloaded + cached == FetchCount(Events(server, manifests[..k]))
        invariant ManifestsGood(hash, server, manifests[..k])
      {
        EventsNext(server, manifests, k);
        var turn := PullManifest(hash, server, manifests[k], start, Events(server, manifests[..k]));
        if turn.Err? { return Err(turn.error); }
        GoodNext(hash, server, manifests, k);
        downloaded, cached := downloaded + turn.value.0, cached + turn.value.1;
        k := k + 1;
      }
      assert manifests[..k] == manifests;
      r := Ok((downloaded, cached));
    }

    method OpenIndex(hash: string -> string, server: Server, reference: string)
        returns (r: Result<seq<Descriptor>, PullError>)
      ensures r == PullIndex(hash, server, reference)
    {
      hide INDEX_TYPE, DOCKER_INDEX_TYPE, ParseDocument, Digest, Supported;
      if reference !in server.references { return Err(Remote); }
      var root := server.references[reference];
      if "sha256:" <= reference && reference != Digest(hash, root) { return Err(WrongRoot); }
      var doc := ParseDocument(root);
      if doc == None { return Err(BadDocument); }
      if doc.value.mediaType != INDEX_TYPE && doc.value.mediaType != DOCKER_INDEX_TYPE { return Err(NotAnIndex); }
      var manifests := Supported(doc.value.manifests);
      r := if manifests == [] then Err(NoManifests) else Ok(manifests);
    }

    /**
     `pull_layout`, for any registry and any cache: it stops on the first thing that does not check out, and
     otherwise leaves the disk as the events of the chosen manifests do, each fetch counted once.
     */
    method PullLayout(hash: string -> string, server: Server, reference: string)
        returns (r: Result<PullReport, PullError>)
      requires !present ==> layout == map[]
      modifies this
      ensures old(present) ==> r == Err(OutputExists) && unchanged(this)
      ensures !old(present) && PullIndex(hash, server, reference).Err? ==>
        r == Err(PullIndex(hash, server, reference).error) && View() == old(View()) && index == None
      ensures r.Ok? ==>
        && PullIndex(hash, server, reference).Ok?
        && Pulled(hash, server, Chosen(hash, server, reference), old(View()), View())
        && ManifestsGood(hash, server, Chosen(hash, server, reference))
        && r.value.downloaded + r.value.cached == FetchCount(Events(server, Chosen(hash, server, reference)))
        && marker == Some(MARKER) && index == Some(LocalIndexBytes(Chosen(hash, server, reference)))
        && r.value.digest == Digest(hash, server.references[reference])
      ensures r.Err? && !old(present) ==>
        index == None && (PullIndex(hash, server, reference).Ok? ==>
            !AllGood(hash, server, Chosen(hash, server, reference)))
    {
      if present { return Err(OutputExists); }
      present, marker, index := true, Some(MARKER), None;
      var manifests := OpenIndex(hash, server, reference);
      if manifests.Err? { return Err(manifests.error); }
      assert reference in server.references;
      hide MARKER, PullIndex, Pulled, FetchCount, Events, Digest, LocalIndexBytes, AllGood, ManifestsGood;
      var counts := PullManifests(hash, server, manifests.value);
      if counts.Err? { return Err(counts.error); }
      index := Some(LocalIndexBytes(manifests.value));
      r := Ok(PullReport(Digest(hash, server.references[reference]), counts.value.0, counts.value.1));
    }
  }
}
