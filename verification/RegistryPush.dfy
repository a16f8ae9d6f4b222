/**
 Pushing a layout to a registry (OCI Distribution Specification, Push). Any request may be refused, and a
 request that was carried out may still be reported as failed; the registry stays consistent through both.
 */
module RegistryPush {
  import opened Wrappers
  import opened OciDocs
  import opened Oci

  /** The fate of one request: carried out, turned down, or carried out with its answer lost. */
  datatype Outcome = Done | Refused | Lost

  datatype PushError = BadIndexFile | Local(error: Error) | BadDocument | Remote

  datatype PushReport = PushReport(digest: string, uploaded: nat, existing: nat)

  // ---------------------------------------------------------------- What a document refers to

  function Refs(doc: Document): seq<Descriptor> {
    (if doc.config.Some? then [doc.config.value] else []) + doc.layers
  }

  function Digests(ds: seq<Descriptor>): set<string> {
    set d | d in ds :: d.digest
  }

  function BlobNeeds(bytes: string): set<string> {
    match ParseDocument(bytes) case Some(doc) => Digests(Refs(doc)) case None => {}
  }

  function ManifestNeeds(bytes: string): set<string> {
    match ParseDocument(bytes) case Some(doc) => Digests(doc.manifests) case None => {}
  }

  /** A manifest of the layout being pushed, as the registry client reads it. */
  function DocumentAt(hash: string -> string, blobs: Blobs, d: Descriptor): Result<Document, PushError> {
    match ReadBlob(hash, blobs, d)
    case Err(e) => Err(Local(e))
    case Ok(bytes) => (match ParseDocument(bytes) case Some(doc) => Ok(doc) case None => Err(BadDocument))
  }

  /** Configurations and layers of the manifests, in the order they are pushed, with repetitions. */
  function Occurrences(hash: string -> string, blobs: Blobs, manifests: seq<Descriptor>): seq<Descriptor> {
    if manifests == [] then []
    else
      var doc := DocumentAt(hash, blobs, manifests[|manifests| - 1]);
      Occurrences(hash, blobs, manifests[..|manifests| - 1]) + if doc.Ok? then Refs(doc.value) else []
  }

  function CountNew(ds: seq<Descriptor>, known: set<string>): nat {
    |Digests(ds) - known|
  }

  lemma DigestsSnoc(ds: seq<Descriptor>, d: Descriptor)
    ensures Digests(ds + [d]) == Digests(ds) + {d.digest}
  {
  }

  lemma DigestsAppend(a: seq<Descriptor>, b: seq<Descriptor>)
    ensures Digests(a + b) == Digests(a) + Digests(b)
  {
  }

  /** One more occurrence adds to the count exactly when its digest was nowhere yet. */
  lemma CountSnoc(ds: seq<Descriptor>, d: Descriptor, known: set<string>)
    ensures CountNew(ds + [d], known) == CountNew(ds, known) + if d.digest in known + Digests(ds) then 0 else 1
  {
    DigestsSnoc(ds, d);
    if d.digest in known + Digests(ds) {
      assert Digests(ds + [d]) - known == Digests(ds) - known;
    } else {
      assert Digests(ds + [d]) - known == (Digests(ds) - known) + {d.digest};
    }
  }

  // ---------------------------------------------------------------- The registry

  /** Nothing stored refers to something missing. */
  ghost predicate Closed(blobs: map<string, string>, manifests: map<string, string>, references: map<string, string>) {
    && (forall d :: d in manifests ==> BlobNeeds(manifests[d]) <= blobs.Keys)
    && (forall r :: r in references ==> ManifestNeeds(references[r]) <= manifests.Keys)
  }

  /** Everything stored under a digest has it. */
  ghost predicate Honest(hash: string -> string, stored: map<string, string>) {
    forall d :: d in stored ==> Digest(hash, stored[d]) == d
  }

  /** Where the registry and a layout have a blob of the same name, it is the same blob. */
  predicate Agrees(blobs: Blobs, stored: map<string, string>) {
    forall d :: d in stored && DigestHash(d).Some? && DigestHash(d).value in blobs ==>
        stored[d] == blobs[DigestHash(d).value]
  }

  /** Honesty and agreement with the layout being pushed are not lost. */
  ghost predicate Kept(hash: string -> string, blobs: Blobs, before: map<string, string>, now: map<string, string>) {
    (Honest(hash, before) ==> Honest(hash, now)) && (Agrees(blobs, before) ==> Agrees(blobs, now))
  }

  lemma KeptPut(hash: string -> string, blobs: Blobs, stored: map<string, string>, d: Descriptor)
    requires ReadBlob(hash, blobs, d).Ok?
    ensures Kept(hash, blobs, stored, stored[d.digest := ReadBlob(hash, blobs, d).value])
  {
    VerifiedDigest(hash, ReadBlob(hash, blobs, d).value, d);
    hide Digest, DigestHash;
  }

  lemma KeptTwice(hash: string -> string, blobs: Blobs, a: map<string, string>, b: map<string, string>, c: map<string,
      string>)
    requires Kept(hash, blobs, a, b) && Kept(hash, blobs, b, c)
    ensures Kept(hash, blobs, a, c)
  {
    hide Honest, Agrees;
  }

  /** Some request does not go through. */
  ghost predicate Flaky(net: nat -> Outcome) {
    exists n: nat :: net(n) != Done
  }

  /** A store that only grew. */
  predicate Grew(before: map<string, string>, after: map<string, string>) {
    forall d :: d in before ==> d in after && after[d] == before[d]
  }

  class Registry {
    var blobs: map<string, string>
    var manifests: map<string, string>
    /** What the last request of a push names: a tag, or a digest. */
    var references: map<string, string>
    var clock: nat
    const net: nat -> Outcome

    constructor (net: nat -> Outcome)
      ensures blobs == map[] && manifests == map[] && references == map[] && this.net == net
    {
      blobs, manifests, references, clock := map[], map[], map[], 0;
      this.net := net;
    }

    method Request() returns (o: Outcome)
      modifies this`clock
      ensures clock == old(clock) + 1 && o == net(old(clock))
    {
      o := net(clock);
      clock := clock + 1;
    }

    method GetReference(reference: string) returns (r: Result<Option<string>, PushError>)
      modifies this`clock
      ensures r.Ok? ==> r.value == if reference in references then Some(references[reference]) else None
      ensures r.Err? ==> Flaky(net)
    {
      var o := Request();
      if o != Done { return Err(Remote); }
      r := Ok(if reference in references then Some(references[reference]) else None);
    }

    method BlobExists(d: Descriptor) returns (r: Result<bool, PushError>)
      modifies this`clock
      ensures r.Ok? ==> r.value == (d.digest in blobs)
      ensures r.Err? ==> Flaky(net)
    {
      var o := Request();
      if o != Done { return Err(Remote); }
      r := Ok(d.digest in blobs);
    }

    /** Opening the upload and sending the bytes are two requests. */
    method UploadBlob(hash: string -> string, d: Descriptor, bytes: string) returns (failed: Option<PushError>)
      modifies this`clock, this`blobs
      ensures blobs == old(blobs) || (Verifies(hash, bytes, d) && blobs == old(blobs)[d.digest := bytes])
      ensures failed == None ==> Verifies(hash, bytes, d) && blobs == old(blobs)[d.digest := bytes]
      ensures failed != None && Verifies(hash, bytes, d) ==> Flaky(net)
    {
      if !Verifies(hash, bytes, d) { return Some(Local(BlobMismatch)); }
      var o := Request();
      if o != Done { return Some(Remote); }
      o := Request();
      if o == Refused { return Some(Remote); }
      blobs := blobs[d.digest := bytes];
      failed := if o == Lost then Some(Remote) else None;
    }

    method PutManifest(digest: string, bytes: string) returns (failed: Option<PushError>)
      modifies this`clock, this`manifests
      ensures manifests == old(manifests) || manifests == old(manifests)[digest := bytes]
      ensures failed == None ==> manifests == old(manifests)[digest := bytes]
      ensures failed != None ==> Flaky(net)
    {
      var o := Request();
      if o == Refused { return Some(Remote); }
      manifests := manifests[digest := bytes];
      failed := if o == Lost then Some(Remote) else None;
    }

    method PutReference(reference: string, bytes: string) returns (failed: Option<PushError>)
      modifies this`clock, this`references
      ensures references == old(references) || references == old(references)[reference := bytes]
      ensures failed == None ==> references == old(references)[reference := bytes]
      ensures failed != None ==> Flaky(net)
    {
      var o := Request();
      if o == Refused { return Some(Remote); }
      references := references[reference := bytes];
      failed := if o == Lost then Some(Remote) else None;
    }
  }

  lemma VerifiedDigest(hash: string -> string, bytes: string, d: Descriptor)
    requires Verifies(hash, bytes, d)
    ensures Digest(hash, bytes) == d.digest
  {
    assert d.digest == d.digest[..7] + d.digest[7..];
  }

  // ---------------------------------------------------------------- Pushing

  /** Look one blob up, and send it when it is missing. */
  method PushBlob(hash: string -> string, blobs: Blobs, d: Descriptor, registry: Registry)
    returns (r: Result<bool, PushError>)
    modifies registry`clock, registry`blobs
    ensures PushStep(hash, blobs, d, old(registry.blobs), registry.blobs)
    ensures r.Ok? ==> d.digest in registry.blobs && (r.value <==> d.digest !in old(registry.blobs))
    ensures r.Err? && ReadBlob(hash, blobs, d).Ok? ==> Flaky(registry.net)
  {
    hide Verifies;
    var found := registry.BlobExists(d);
    if found.Err? { return Err(found.error); }
    if found.value { return Ok(false); }
    var bytes := ReadBlob(hash, blobs, d);
    if bytes.Err? { return Err(Local(bytes.error)); }
    var failed := registry.UploadBlob(hash, d, bytes.value);
    r := if failed.Some? then Err(failed.value) else Ok(true);
  }

  /** What pushing the blobs of `refs` has done when nothing failed. */
  ghost predicate PushedSoFar(
    hash: string -> string, blobs: Blobs, before: Blobs, now: Blobs, refs: seq<Descriptor>, uploaded: nat,
        existing: nat)
  {
    && Grew(before, now) && Kept(hash, blobs, before, now)
    && now.Keys == before.Keys + Digests(refs)
    && uploaded == CountNew(refs, before.Keys) && uploaded + existing == |refs|
  }

  /** One lookup and perhaps one upload. */
  predicate PushStep(hash: string -> string, blobs: Blobs, d: Descriptor, before: Blobs, now: Blobs) {
    || now == before
    || (d.digest !in before && ReadBlob(hash, blobs, d).Ok? &&
        now == before[d.digest := ReadBlob(hash, blobs, d).value])
  }

  lemma StepKeeps(hash: string -> string, blobs: Blobs, d: Descriptor, before: Blobs, now: Blobs)
    requires PushStep(hash, blobs, d, before, now)
    ensures Grew(before, now) && Kept(hash, blobs, before, now)
  {
    if now != before {
      KeptPut(hash, blobs, before, d);
      hide Honest, Agrees, ReadBlob;
    }
  }

  lemma PushedNext(
    hash: string -> string, blobs: Blobs, start: Blobs, before: Blobs, now: Blobs, refs: seq<Descriptor>, d: Descriptor,
    uploaded: nat, existing: nat)
    requires PushedSoFar(hash, blobs, start, before, refs, uploaded, existing) && PushStep(hash, blobs, d, before, now)
    requires d.digest in now
    ensures PushedSoFar(hash, blobs, start, now, refs + [d],
        uploaded + (if d.digest in before then 0 else 1), existing + (if d.digest in before then 1 else 0))
  {
    hide CountNew, Digest, ReadBlob, Kept;
    StepKeeps(hash, blobs, d, before, now);
    KeptTwice(hash, blobs, start, before, now);
    DigestsSnoc(refs, d);
    CountSnoc(refs, d, start.Keys);
    hide Digests;
  }

  predicate AllReadable(hash: string -> string, blobs: Blobs, refs: seq<Descriptor>) {
    forall i :: 0 <= i < |refs| ==> ReadBlob(hash, blobs, refs[i]).Ok?
  }

  lemma StoppedStep(
    hash: string -> string, blobs: Blobs, start: Blobs, before: Blobs, now: Blobs, refs: seq<Descriptor>, d: Descriptor,
    uploaded: nat, existing: nat)
    requires PushedSoFar(hash, blobs, start, before, refs, uploaded, existing) && PushStep(hash, blobs, d, before, now)
    ensures Grew(start, now) && Kept(hash, blobs, start, now)
  {
    StepKeeps(hash, blobs, d, before, now);
    hide Kept, ReadBlob, CountNew, Digests, PushStep;
    KeptTwice(hash, blobs, start, before, now);
  }

  lemma PushedAt(
    hash: string -> string, blobs: Blobs, start: Blobs, before: Blobs, now: Blobs, refs: seq<Descriptor>, k: nat,
    uploaded: nat, existing: nat)
    requires k < |refs| && PushedSoFar(hash, blobs, start, before, refs[..k], uploaded, existing)
    requires PushStep(hash, blobs, refs[k], before, now) && refs[k].digest in now
    ensures PushedSoFar(hash, blobs, start, now, refs[..k + 1],
        uploaded + (if refs[k].digest in before then 0 else 1), existing + (if refs[k].digest in before then 1 else 0))
  {
    hide PushedSoFar, PushStep;
    assert refs[..k + 1] == refs[..k] + [refs[k]];
    PushedNext(hash, blobs, start, before, now, refs[..k], refs[k], uploaded, existing);
  }

  lemma ReadableAt(hash: string -> string, blobs: Blobs, refs: seq<Descriptor>, k: nat)
    requires AllReadable(hash, blobs, refs) && k < |refs|
    ensures ReadBlob(hash, blobs, refs[k]).Ok?
  {
  }

  lemma GrewSoFar(hash: string -> string, blobs: Blobs, start: Blobs, now: Blobs, refs: seq<Descriptor>, u: nat, e: nat)
    requires PushedSoFar(hash, blobs, start, now, refs, u, e)
    ensures Grew(start, now) && Kept(hash, blobs, start, now)
  {
  }

  lemma PushedNone(hash: string -> string, blobs: Blobs, start: Blobs)
    ensures PushedSoFar(hash, blobs, start, start, [], 0, 0)
  {
    hide Honest, Agrees;
    CountNothing(start.Keys);
  }

  /** One turn of the blob loop. */
  method PushNth(hash: string -> string, blobs: Blobs, refs: seq<Descriptor>, k: nat, registry: Registry, uploaded: nat,
      existing: nat,
                 ghost start: Blobs)
    returns (r: Result<(nat, nat), PushError>)
    requires k < |refs| && PushedSoFar(hash, blobs, start, registry.blobs, refs[..k], uploaded, existing)
    modifies registry`clock, registry`blobs
    ensures r.Ok? ==> PushedSoFar(hash, blobs, start, registry.blobs, refs[..k + 1], r.value.0, r.value.1)
    ensures r.Err? ==> Grew(start, registry.blobs) && Kept(hash, blobs, start, registry.blobs)
    ensures r.Err? && AllReadable(hash, blobs, refs) ==> Flaky(registry.net)
  {
    hide PushStep, Kept, Grew, PushedSoFar, Flaky, ReadBlob, AllReadable;
    ghost var before := registry.blobs;
    var sent := PushBlob(hash, blobs, refs[k], registry);
    StoppedStep(hash, blobs, start, before, registry.blobs, refs[..k], refs[k], uploaded, existing);
    if sent.Err? {
      if AllReadable(hash, blobs, refs) { ReadableAt(hash, blobs, refs, k); }
      return Err(sent.error);
    }
    PushedAt(hash, blobs, start, before, registry.blobs, refs, k, uploaded, existing);
    r := Ok(if sent.value then (uploaded + 1, existing) else (uploaded, existing + 1));
  }

  /** Configuration and layers of one manifest: each is looked up first and sent only when missing. */
  method PushBlobs(hash: string -> string, blobs: Blobs, refs: seq<Descriptor>, registry: Registry)
    returns (r: Result<(nat, nat), PushError>)
    modifies registry`clock, registry`blobs
    ensures Grew(old(registry.blobs), registry.blobs)
    ensures Kept(hash, blobs, old(registry.blobs), registry.blobs)
    ensures r.Ok? ==> PushedSoFar(hash, blobs, old(registry.blobs), registry.blobs, refs, r.value.0, r.value.1)
    ensures r.Err? && AllReadable(hash, blobs, refs) ==> Flaky(registry.net)
  {
    ghost var start := registry.blobs;
    var uploaded, existing, k := 0, 0, 0;
    PushedNone(hash, blobs, start);
    assert refs[..0] == [];
    hide PushStep, Kept, Grew, PushedSoFar, Flaky, ReadBlob, AllReadable;
    while k < |refs|
      invariant k <= |refs| && PushedSoFar(hash, blobs, start, registry.blobs, refs[..k], uploaded, existing)
    {
      var sent := PushNth(hash, blobs, refs, k, registry, uploaded, existing, start);
      if sent.Err? { return Err(sent.error); }
      uploaded, existing := sent.value.0, sent.value.1;
      k := k + 1;
    }
    assert refs[..k] == refs;
    GrewSoFar(hash, blobs, start, registry.blobs, refs, uploaded, existing);
    r := Ok((uploaded, existing));
  }

  // ---------------------------------------------------------------- Whole pushes

  /** Manifests and what they refer to can all be read from the layout. */
  predicate Readable(hash: string -> string, blobs: Blobs, manifests: seq<Descriptor>) {
    && (forall i :: 0 <= i < |manifests| ==> DocumentAt(hash, blobs, manifests[i]).Ok?)
    && AllReadable(hash, blobs, Occurrences(hash, blobs, manifests))
  }

  /** A registry that holds every manifest of a list under its digest, as it is in the layout. */
  predicate HoldsManifests(hash: string -> string, blobs: Blobs, manifests: seq<Descriptor>, stored: map<string,
      string>) {
    forall i :: 0 <= i < |manifests| ==>
      && ReadBlob(hash, blobs, manifests[i]).Ok? && manifests[i].digest in stored
      && stored[manifests[i].digest] == ReadBlob(hash, blobs, manifests[i]).value
  }

  /** The state after some manifests went through. */
  ghost predicate PushedManifests(
    hash: string -> string, blobs: Blobs, manifests: seq<Descriptor>, start: Blobs, startManifests: map<string, string>,
    now: Blobs, nowManifests: map<string, string>, uploaded: nat, existing: nat)
  {
    && PushedSoFar(hash, blobs, start, now, Occurrences(hash, blobs, manifests), uploaded, existing)
    && HoldsManifests(hash, blobs, manifests, nowManifests)
    && startManifests.Keys <= nowManifests.Keys
    && Kept(hash, blobs, startManifests, nowManifests)
  }

  lemma CountInTurn(first: set<string>, second: set<string>, third: set<string>, a: set<string>, b: set<string>, u: nat,
      v: nat)
    requires second == first + a && third == second + b
    requires u == |a - first| && v == |b - second|
    ensures third == first + (a + b) && u + v == |(a + b) - first|
  {
    assert (a + b) - first == (a - first) + (b - second);
    assert (a - first) !! (b - second);
  }

  lemma PushedInTurn(
    hash: string -> string, blobs: Blobs, start: Blobs, middle: Blobs, now: Blobs, a: seq<Descriptor>,
        b: seq<Descriptor>,
    u: nat, e: nat, v: nat, f: nat)
    requires PushedSoFar(hash, blobs, start, middle, a, u, e) && PushedSoFar(hash, blobs, middle, now, b, v, f)
    ensures PushedSoFar(hash, blobs, start, now, a + b, u + v, e + f)
  {
    GrewTwice(start, middle, now);
    DigestsAppend(a, b);
    hide Kept, Digests, Grew;
    KeptTwice(hash, blobs, start, middle, now);
    CountInTurn(start.Keys, middle.Keys, now.Keys, Digests(a), Digests(b), u, v);
  }

  lemma GrewTwice(a: Blobs, b: Blobs, c: Blobs)
    requires Grew(a, b) && Grew(b, c)
    ensures Grew(a, c)
  {
  }

  /** A manifest goes in only after its blobs: closed before, closed after. */
  lemma ManifestKeepsClosed(
    blobs: Blobs, manifests: map<string, string>, references: map<string, string>, digest: string, bytes: string)
    requires Closed(blobs, manifests, references) && BlobNeeds(bytes) <= blobs.Keys
    ensures Closed(blobs, manifests[digest := bytes], references)
  {
    hide BlobNeeds, ManifestNeeds;
  }

  lemma GrowthKeepsClosed(blobs: Blobs, now: Blobs, manifests: map<string, string>, references: map<string, string>)
    requires Closed(blobs, manifests, references) && Grew(blobs, now)
    ensures Closed(now, manifests, references)
  {
    hide BlobNeeds, ManifestNeeds;
    assert blobs.Keys <= now.Keys;
  }

  lemma ReferenceKeepsClosed(
    blobs: Blobs, manifests: map<string, string>, references: map<string, string>, reference: string, bytes: string)
    requires Closed(blobs, manifests, references) && ManifestNeeds(bytes) <= manifests.Keys
    ensures Closed(blobs, manifests, references[reference := bytes])
  {
    hide BlobNeeds, ManifestNeeds;
  }

  /** A step that breaks nothing: consistency and honesty survive it, and no blob is lost. */
  ghost predicate Safe(
    hash: string -> string, layout: Blobs, references: map<string, string>, blobs: Blobs, manifests: map<string,
        string>,
    now: Blobs, nowManifests: map<string, string>)
  {
    && (Closed(blobs, manifests, references) ==> Closed(now, nowManifests, references))
    && Kept(hash, layout, blobs, now) && Kept(hash, layout, manifests, nowManifests)
    && Grew(blobs, now)
  }

  lemma SafeSelf(
    hash: string -> string, layout: Blobs, references: map<string, string>, blobs: Blobs, manifests: map<string,
        string>)
    ensures Safe(hash, layout, references, blobs, manifests, blobs, manifests)
  {
    hide Closed, Honest, Agrees;
  }

  lemma SafeTwice(
    hash: string -> string, layout: Blobs, references: map<string, string>, a: Blobs, m: map<string, string>, b: Blobs,
        n: map<string, string>,
    c: Blobs, o: map<string, string>)
    requires Safe(hash, layout, references, a, m, b, n) && Safe(hash, layout, references, b, n, c, o)
    ensures Safe(hash, layout, references, a, m, c, o)
  {
    hide Closed, Kept;
    GrewTwice(a, b, c);
    KeptTwice(hash, layout, a, b, c);
    KeptTwice(hash, layout, m, n, o);
  }

  lemma BlobsAreSafe(
    hash: string -> string, layout: Blobs, references: map<string, string>, blobs: Blobs, manifests: map<string,
        string>, now: Blobs)
    requires Grew(blobs, now) && Kept(hash, layout, blobs, now)
    ensures Safe(hash, layout, references, blobs, manifests, now, manifests)
  {
    if Closed(blobs, manifests, references) { GrowthKeepsClosed(blobs, now, manifests, references); }
    hide Closed, Honest, Agrees;
  }

  lemma ManifestIsSafe(
    hash: string -> string, layout: Blobs, references: map<string, string>, blobs: Blobs, manifests: map<string,
        string>, d: Descriptor)
    requires ReadBlob(hash, layout, d).Ok? && BlobNeeds(ReadBlob(hash, layout, d).value) <= blobs.Keys
    ensures Safe(hash, layout, references, blobs, manifests, blobs,
        manifests[d.digest := ReadBlob(hash, layout, d).value])
  {
    KeptPut(hash, layout, manifests, d);
    hide ReadBlob, BlobNeeds, ManifestNeeds;
    if Closed(blobs, manifests, references) {
      ManifestKeepsClosed(blobs, manifests, references, d.digest, ReadBlob(hash, layout, d).value);
    }
    hide Closed, Honest, Agrees;
  }

  lemma PushedNeeds(hash: string -> string, layout: Blobs, start: Blobs, now: Blobs, bytes: string, u: nat, e: nat)
    requires ParseDocument(bytes).Some? && PushedSoFar(hash, layout, start, now, Refs(ParseDocument(bytes).value), u, e)
    ensures BlobNeeds(bytes) <= now.Keys
  {
  }

  /** One turn of the manifest loop. */
  method PushManifest(hash: string -> string, blobs: Blobs, d: Descriptor, registry: Registry)
    returns (r: Result<(nat, nat), PushError>)
    modifies registry`clock, registry`blobs, registry`manifests
    ensures Safe(hash, blobs, registry.references, old(registry.blobs), old(registry.manifests), registry.blobs,
        registry.manifests)
    ensures registry.manifests == old(registry.manifests)
         || (DocumentAt(hash, blobs, d).Ok? &&
             registry.manifests == old(registry.manifests)[d.digest := ReadBlob(hash, blobs, d).value])
    ensures r.Ok? ==>
      && DocumentAt(hash, blobs, d).Ok?
      && registry.manifests == old(registry.manifests)[d.digest := ReadBlob(hash, blobs, d).value]
      && PushedSoFar(hash, blobs, old(registry.blobs), registry.blobs, Refs(DocumentAt(hash, blobs, d).value),
          r.value.0, r.value.1)
    ensures r.Err? && DocumentAt(hash, blobs, d).Ok? &&
            AllReadable(hash, blobs, Refs(DocumentAt(hash, blobs, d).value)) ==>
      Flaky(registry.net)
  {
    hide Flaky, Closed, Kept, Verifies, Grew, PushedSoFar, AllReadable;
    var bytes := ReadBlob(hash, blobs, d);
    if bytes.Err? {
      SafeSelf(hash, blobs, registry.references, registry.blobs, registry.manifests);
      return Err(Local(bytes.error));
    }
    var doc := ParseDocument(bytes.value);
    if doc == None {
      SafeSelf(hash, blobs, registry.references, registry.blobs, registry.manifests);
      return Err(BadDocument);
    }
    hide Safe, Refs;
    ghost var start, manifests := registry.blobs, registry.manifests;
    var sent := PushBlobs(hash, blobs, Refs(doc.value), registry);
    BlobsAreSafe(hash, blobs, registry.references, start, manifests, registry.blobs);
    if sent.Err? { return Err(sent.error); }
    PushedNeeds(hash, blobs, start, registry.blobs, bytes.value, sent.value.0, sent.value.1);
    var failed := registry.PutManifest(d.digest, bytes.value);
    ManifestIsSafe(hash, blobs, registry.references, registry.blobs, manifests, d);
    SafeTwice(hash, blobs, registry.references, start, manifests, registry.blobs, manifests, registry.blobs,
              manifests[d.digest := bytes.value]);
    r := if failed.Some? then Err(failed.value) else sent;
  }

  lemma HeldSnoc(
    hash: string -> string, blobs: Blobs, manifests: seq<Descriptor>, d: Descriptor, stored: map<string, string>)
    requires HoldsManifests(hash, blobs, manifests, stored) && ReadBlob(hash, blobs, d).Ok?
    ensures HoldsManifests(hash, blobs, manifests + [d], stored[d.digest := ReadBlob(hash, blobs, d).value])
  {
    var bytes := ReadBlob(hash, blobs, d).value;
    var all := manifests + [d];
    forall i | 0 <= i < |all|
      ensures ReadBlob(hash, blobs, all[i]).Ok?
      ensures all[i].digest == d.digest ==> ReadBlob(hash, blobs, all[i]).value == bytes
      ensures i < |manifests| ==> all[i] == manifests[i]
    {
      hide Verifies;
    }
    hide ReadBlob;
  }

  lemma OccurrencesSnoc(hash: string -> string, blobs: Blobs, manifests: seq<Descriptor>, d: Descriptor)
    requires DocumentAt(hash, blobs, d).Ok?
    ensures Occurrences(hash, blobs, manifests + [d])
         == Occurrences(hash, blobs, manifests) + Refs(DocumentAt(hash, blobs, d).value)
  {
    hide DocumentAt, Refs;
    assert (manifests + [d])[..|manifests|] == manifests;
  }

  lemma PushedManifestNext(
    hash: string -> string, blobs: Blobs, manifests: seq<Descriptor>, d: Descriptor, start: Blobs,
        startManifests: map<string, string>,
    before: Blobs, beforeManifests: map<string, string>, now: Blobs, u: nat, e: nat, v: nat, f: nat)
    requires PushedManifests(hash, blobs, manifests, start, startManifests, before, beforeManifests, u, e)
    requires DocumentAt(hash, blobs, d).Ok?
    requires PushedSoFar(hash, blobs, before, now, Refs(DocumentAt(hash, blobs, d).value), v, f)
    ensures PushedManifests(hash, blobs, manifests + [d], start, startManifests, now,
        beforeManifests[d.digest := ReadBlob(hash, blobs, d).value], u + v, e + f)
  {
    var bytes := ReadBlob(hash, blobs, d).value;
    OccurrencesSnoc(hash, blobs, manifests, d);
    hide Occurrences, PushedSoFar, Refs, HoldsManifests;
    PushedInTurn(hash, blobs, start, before, now, Occurrences(hash, blobs, manifests),
        Refs(DocumentAt(hash, blobs, d).value), u, e, v, f);
    HeldSnoc(hash, blobs, manifests, d, beforeManifests);
    KeptPut(hash, blobs, beforeManifests, d);
    hide Kept, ReadBlob;
    KeptTwice(hash, blobs, startManifests, beforeManifests, beforeManifests[d.digest := bytes]);
  }

  lemma PushedManifestAt(
    hash: string -> string, blobs: Blobs, manifests: seq<Descriptor>, k: nat, start: Blobs, startManifests: map<string,
        string>,
    before: Blobs, beforeManifests: map<string, string>, now: Blobs, u: nat, e: nat, v: nat, f: nat)
    requires k < |manifests| && DocumentAt(hash, blobs, manifests[k]).Ok?
    requires PushedManifests(hash, blobs, manifests[..k], start, startManifests, before, beforeManifests, u, e)
    requires PushedSoFar(hash, blobs, before, now, Refs(DocumentAt(hash, blobs, manifests[k]).value), v, f)
    ensures PushedManifests(hash, blobs, manifests[..k + 1], start, startManifests, now,
        beforeManifests[manifests[k].digest := ReadBlob(hash, blobs, manifests[k]).value], u + v, e + f)
  {
    hide PushedManifests, PushedSoFar, Refs, ReadBlob;
    assert manifests[..k + 1] == manifests[..k] + [manifests[k]];
    PushedManifestNext(hash, blobs, manifests[..k], manifests[k], start, startManifests, before, beforeManifests, now,
        u, e, v, f);
  }

  /** The manifests of a layout's index, as the registry client reads it. */
  function IndexManifests(index: Option<string>): Option<seq<Descriptor>> {
    if index == None then None
    else
      var doc :- ParseDocument(index.value);
      if doc.mediaType == INDEX_TYPE then Some(doc.manifests) else None
  }

  /** The reference already names these very bytes, going by the hash. */
  predicate AlreadyPushed(hash: string -> string, index: Option<string>, reference: string, references: map<string,
      string>) {
    && IndexManifests(index).Some? && reference in references
    && Digest(hash, references[reference]) == Digest(hash, index.value)
  }

  function Listed(index: Option<string>): seq<Descriptor> {
    IndexManifests(index).GetOr([])
  }

  /** Each digest that was missing was sent once; every other occurrence was found there. */
  predicate Accounted(occurrences: seq<Descriptor>, before: set<string>, now: set<string>, report: PushReport) {
    && report.uploaded == CountNew(occurrences, before)
    && report.uploaded + report.existing == |occurrences|
    && now == before + Digests(occurrences)
  }

  /** Everything an index stands for is in place. */
  ghost predicate Complete(
    hash: string -> string, blobs: Blobs, manifests: seq<Descriptor>, stored: Blobs, storedManifests: map<string,
        string>)
  {
    && HoldsManifests(hash, blobs, manifests, storedManifests)
    && Digests(Occurrences(hash, blobs, manifests)) <= stored.Keys
  }

  /** The manifest loop. */
  method PushManifests(hash: string -> string, blobs: Blobs, manifests: seq<Descriptor>, registry: Registry)
    returns (r: Result<(nat, nat), PushError>)
    modifies registry`clock, registry`blobs, registry`manifests
    ensures Safe(hash, blobs, registry.references, old(registry.blobs), old(registry.manifests), registry.blobs,
        registry.manifests)
    ensures r.Ok? ==> PushedManifests(hash, blobs, manifests, old(registry.blobs), old(registry.manifests),
        registry.blobs, registry.manifests, r.value.0, r.value.1)
    ensures r.Err? && Readable(hash, blobs, manifests) ==> Flaky(registry.net)
  {
    ghost var start, startManifests := registry.blobs, registry.manifests;
    var uploaded, existing, k := 0, 0, 0;
    PushedNothing(hash, blobs, start, startManifests, registry.references);
    assert manifests[..0] == [];
    hide *;
    while k < |manifests|
      invariant k <= |manifests|
      invariant Safe(hash, blobs, registry.references, start, startManifests, registry.blobs, registry.manifests)
      invariant PushedManifests(hash, blobs, manifests[..k], start, startManifests, registry.blobs, registry.manifests,
          uploaded, existing)
    {
      ghost var before, beforeManifests := registry.blobs, registry.manifests;
      var sent := PushManifest(hash, blobs, manifests[k], registry);
      SafeTwice(hash, blobs, registry.references, start, startManifests, before, beforeManifests, registry.blobs,
          registry.manifests);
      if sent.Err? {
        if Readable(hash, blobs, manifests) { ReadablePart(hash, blobs, manifests, k); }
        return Err(sent.error);
      }
      PushedManifestAt(hash, blobs, manifests, k, start, startManifests, before, beforeManifests,
                         registry.blobs, uploaded, existing, sent.value.0, sent.value.1);
      uploaded, existing := uploaded + sent.value.0, existing + sent.value.1;
      k := k + 1;
    }
    assert manifests[..k] == manifests;
    r := Ok((uploaded, existing));
  }

  lemma CountNothing(known: set<string>)
    ensures Digests([]) == {} && CountNew([], known) == 0 && known + Digests([]) == known
  {
  }

  lemma PushedNothing(
    hash: string -> string, blobs: Blobs, start: Blobs, manifests: map<string, string>, references: map<string, string>)
    ensures PushedManifests(hash, blobs, [], start, manifests, start, manifests, 0, 0)
    ensures Safe(hash, blobs, references, start, manifests, start, manifests)
  {
    hide Honest, Agrees, Closed, DocumentAt, Refs, ReadBlob, Digest;
    assert Occurrences(hash, blobs, []) == [];
    CountNothing(start.Keys);
    hide Digests, CountNew;
  }

  lemma {:induction false} ReadablePart(hash: string -> string, blobs: Blobs, manifests: seq<Descriptor>, k: nat)
    requires k < |manifests| && Readable(hash, blobs, manifests)
    ensures DocumentAt(hash, blobs, manifests[k]).Ok?
    ensures AllReadable(hash, blobs, Refs(DocumentAt(hash, blobs, manifests[k]).value))
    decreases |manifests|
  {
    hide DocumentAt, ReadBlob, Refs;
    var n := |manifests| - 1;
    assert manifests == manifests[..n] + [manifests[n]];
    OccurrencesSnoc(hash, blobs, manifests[..n], manifests[n]);
    var a, b := Occurrences(hash, blobs, manifests[..n]), Refs(DocumentAt(hash, blobs, manifests[n]).value);
    assert forall i :: 0 <= i < |a| ==> (a + b)[i] == a[i];
    assert forall i :: 0 <= i < |b| ==> (a + b)[|a| + i] == b[i];
    if k < n {
      ReadablePart(hash, blobs, manifests[..n], k);
    }
  }

  /** The digests of a layout already in place: what a repeated push reports. */
  method CountDigests(hash: string -> string, blobs: Blobs, manifests: seq<Descriptor>)
      returns (r: Result<nat, PushError>)
    ensures r.Ok? ==> r.value == |Digests(Occurrences(hash, blobs, manifests))|
    ensures r.Err? ==> !Readable(hash, blobs, manifests)
  {
    var digests: set<string> := {};
    var k := 0;
    CountNothing({});
    assert Occurrences(hash, blobs, manifests[..0]) == [];
    hide DocumentAt, Refs, Digests, AllReadable, Occurrences;
    while k < |manifests|
      invariant k <= |manifests|
      invariant digests == Digests(Occurrences(hash, blobs, manifests[..k]))
    {
      assert manifests[..k + 1] == manifests[..k] + [manifests[k]];
      var doc := DocumentAt(hash, blobs, manifests[k]);
      if doc.Err? { return Err(doc.error); }
      OccurrencesSnoc(hash, blobs, manifests[..k], manifests[k]);
      DigestsAppend(Occurrences(hash, blobs, manifests[..k]), Refs(doc.value));
      digests := digests + Digests(Refs(doc.value));
      k := k + 1;
    }
    assert manifests[..k] == manifests;
    r := Ok(|digests|);
  }

  /**
   `push_layout`. Whatever requests fail, and whenever: a consistent registry stays consistent, an honest one
   honest, and the reference changes only once everything the index stands for is in place. A push that
   reports success sent each missing digest once and found the other occurrences there; pushing what the
   reference already names writes nothing.
   */
  method PushLayout(hash: string -> string, index: Option<string>, blobs: Blobs, reference: string, registry: Registry)
    returns (r: Result<PushReport, PushError>)
    modifies registry
    ensures Closed(old(registry.blobs), old(registry.manifests), old(registry.references)) ==>
      Closed(registry.blobs, registry.manifests, registry.references)
    ensures Kept(hash, blobs, old(registry.blobs), registry.blobs)
    ensures Kept(hash, blobs, old(registry.manifests), registry.manifests)
    ensures Grew(old(registry.blobs), registry.blobs)
    ensures registry.references == old(registry.references)
         || (&& IndexManifests(index).Some?
             && registry.references == old(registry.references)[reference := index.GetOr("")]
             && Complete(hash, blobs, Listed(index), registry.blobs, registry.manifests))
    ensures AlreadyPushed(hash, index, reference, old(registry.references)) ==>
      && registry.blobs == old(registry.blobs) && registry.manifests == old(registry.manifests)
      && registry.references == old(registry.references)
      && (r.Ok? ==> r.value.uploaded == 0 && r.value.existing == |Digests(Occurrences(hash, blobs, Listed(index)))|)
    ensures r.Ok? ==> IndexManifests(index).Some? && r.value.digest == Digest(hash, index.GetOr(""))
    ensures r.Ok? && !AlreadyPushed(hash, index, reference, old(registry.references)) ==>
      && Accounted(Occurrences(hash, blobs, Listed(index)), old(registry.blobs).Keys, registry.blobs.Keys, r.value)
      && registry.references == old(registry.references)[reference := index.GetOr("")]
      && Complete(hash, blobs, Listed(index), registry.blobs, registry.manifests)
    ensures r.Err? && IndexManifests(index).Some? && Readable(hash, blobs, Listed(index)) ==> Flaky(registry.net)
  {
    hide Closed, Kept, ManifestNeeds, Flaky, Readable, Occurrences, Digest, INDEX_TYPE;
    SafeSelf(hash, blobs, registry.references, registry.blobs, registry.manifests);
    if index == None { return Err(BadIndexFile); }
    var doc := ParseDocument(index.value);
    if doc == None || doc.value.mediaType != INDEX_TYPE { return Err(BadIndexFile); }
    var manifests := doc.value.manifests;
    var there := registry.GetReference(reference);
    if there.Err? { return Err(there.error); }
    if there.value.Some? && Digest(hash, there.value.value) == Digest(hash, index.value) {
      var count := CountDigests(hash, blobs, manifests);
      return if count.Err? then Err(count.error) else Ok(PushReport(Digest(hash, index.value), 0, count.value));
    }
    ghost var start := registry.blobs;
    var sent := PushManifests(hash, blobs, manifests, registry);
    if sent.Err? { return Err(sent.error); }
    PushedIsComplete(hash, blobs, index.value, manifests, start, old(registry.manifests), registry.blobs,
        registry.manifests,
                     sent.value.0, sent.value.1);
    if Closed(registry.blobs, registry.manifests, registry.references) {
      ReferenceKeepsClosed(registry.blobs, registry.manifests, registry.references, reference, index.value);
    }
    var failed := registry.PutReference(reference, index.value);
    hide Complete, Digests, CountNew, Grew;
    r := if failed.Some? then Err(failed.value)
        else Ok(PushReport(Digest(hash, index.value), sent.value.0, sent.value.1));
  }

  lemma PushedIsComplete(
    hash: string -> string, blobs: Blobs, index: string, manifests: seq<Descriptor>, start: Blobs,
        startManifests: map<string, string>,
    now: Blobs, nowManifests: map<string, string>, u: nat, e: nat)
    requires PushedManifests(hash, blobs, manifests, start, startManifests, now, nowManifests, u, e)
    requires ParseDocument(index).Some? && ParseDocument(index).value.manifests == manifests
    ensures Complete(hash, blobs, manifests, now, nowManifests) && ManifestNeeds(index) <= nowManifests.Keys
  {
    hide Occurrences, Kept, ReadBlob, ParseDocument, CountNew, Grew;
  }

  /**
   Pushing the same layout again. Over a network that carries everything out, both pushes succeed; the second
   writes nothing and reports each distinct digest once, however often it occurs.
   */
  method PushTwice(hash: string -> string, index: Option<string>, blobs: Blobs, reference: string, registry: Registry)
    returns (first: Result<PushReport, PushError>, second: Result<PushReport, PushError>,
        ghost between: (Blobs, Blobs, Blobs))
    modifies registry
    ensures first.Ok? ==> (registry.blobs, registry.manifests, registry.references) == between
    ensures first.Ok? && second.Ok? ==>
      second.value == PushReport(first.value.digest, 0, |Digests(Occurrences(hash, blobs, Listed(index)))|)
    ensures IndexManifests(index).Some? && Readable(hash, blobs, Listed(index)) && !Flaky(registry.net) ==>
        first.Ok? && second.Ok?
  {
    hide Closed, Kept, Grew, Complete, Accounted, ParseDocument, Readable, Flaky, Digest, Occurrences, Digests,
        INDEX_TYPE;
    first := PushLayout(hash, index, blobs, reference, registry);
    between := (registry.blobs, registry.manifests, registry.references);
    if first.Err? { return first, first, between; }
    second := PushLayout(hash, index, blobs, reference, registry);
  }
}
