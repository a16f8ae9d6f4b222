/**
 The blob cache and the layout a pull fills from it, down to inodes: an entry of the layout is a hard link
 to the cache entry when that works, and otherwise a copy, which truncates its destination before reading.
 */
module PullDisk {
  import opened Wrappers
  import opened Oci

  /** Inodes hold the data; the two directories name them. `links` says whether hard links work at all. */
  datatype Disk = Disk(data: map<nat, string>, cache: map<string, nat>, layout: map<string, nat>, next: nat,
      links: bool)

  /** Both directories point at data, and no two names in them share an inode unless the name is the same. */
  ghost predicate Separate(d: Disk) {
    && (forall h :: h in d.cache ==> d.cache[h] in d.data && d.cache[h] < d.next)
    && (forall h :: h in d.layout ==> d.layout[h] in d.data && d.layout[h] < d.next)
    && (forall g, h :: g in d.cache && h in d.cache && d.cache[g] == d.cache[h] ==> g == h)
    && (forall g, h :: g in d.layout && h in d.layout && d.layout[g] == d.layout[h] ==> g == h)
    && (forall g, h :: g in d.cache && h in d.layout && d.cache[g] == d.layout[h] ==> g == h)
  }

  function At(d: Disk, inode: nat): string {
    if inode in d.data then d.data[inode] else ""
  }

  /** `materialize`. */
  function Materialize(d: Disk, h: string): Disk
    requires h in d.cache
  {
    var source := d.cache[h];
    if h !in d.layout then
      if d.links then d.(layout := d.layout[h := source])
      else d.(layout := d.layout[h := d.next], data := d.data[d.next := At(d, source)], next := d.next + 1)
    else
      var emptied := d.(data := d.data[d.layout[h] := ""]);
      emptied.(data := emptied.data[d.layout[h] := At(emptied, source)])
  }

  /** A new file under a cache name; an older file of that name is unlinked. */
  function WriteCache(d: Disk, h: string, bytes: string): Disk {
    d.(data := d.data[d.next := bytes], cache := d.cache[h := d.next], next := d.next + 1)
  }

  /** `store_bytes`: what the cache has under the name is taken as it is. */
  function StoreBytes(d: Disk, h: string, bytes: string): Disk {
    Materialize(if h in d.cache then d else WriteCache(d, h, bytes), h)
  }

  predicate Intact(hash: string -> string, h: string, size: nat, bytes: string) {
    |bytes| == size && hash(bytes) == h
  }

  /** `materialize_cached`: a damaged entry is removed, a good one used. */
  function MaterializeCached(hash: string -> string, d: Disk, h: string, size: nat): (Disk, bool) {
    if h !in d.cache then (d, false)
    else if !Intact(hash, h, size, At(d, d.cache[h])) then (d.(cache := d.cache - {h}), false)
    else (Materialize(d, h), true)
  }

  /** A manifest stored, or a blob taken from the cache or else downloaded. */
  datatype Event = Store(h: string, bytes: string) | Fetch(h: string, size: nat, bytes: string)

  function Step(hash: string -> string, d: Disk, e: Event): Disk {
    match e
    case Store(h, bytes) => StoreBytes(d, h, bytes)
    case Fetch(h, size, bytes) =>
      var (after, hit) := MaterializeCached(hash, d, h, size);
      if hit then after else Materialize(WriteCache(after, h, bytes), h)
  }

  function Run(hash: string -> string, d: Disk, events: seq<Event>): Disk {
    if events == [] then d else Step(hash, Run(hash, d, events[..|events| - 1]), events[|events| - 1])
  }

  // ---------------------------------------------------------------- One name at a time

  /** What one name stands for: the two contents, and whether they are one file. */
  datatype Slot = Slot(cached: Option<string>, laid: Option<string>, shared: bool)

  function SlotOf(d: Disk, h: string): Slot {
    Slot(if h in d.cache then Some(At(d, d.cache[h])) else None,
         if h in d.layout then Some(At(d, d.layout[h])) else None,
         h in d.cache && h in d.layout && d.cache[h] == d.layout[h])
  }

  function MaterializeSlot(links: bool, s: Slot): Slot
    requires s.cached.Some?
  {
    if s.laid == None then Slot(s.cached, s.cached, links)
    else if s.shared then Slot(Some(""), Some(""), true)
    else Slot(s.cached, s.cached, false)
  }

  function StepSlot(hash: string -> string, links: bool, s: Slot, e: Event): Slot {
    match e
    case Store(h, bytes) => MaterializeSlot(links, if s.cached.Some? then s else s.(cached := Some(bytes)))
    case Fetch(h, size, bytes) =>
      if s.cached.Some? && Intact(hash, h, size, s.cached.value) then MaterializeSlot(links, s)
      else MaterializeSlot(links, Slot(Some(bytes), s.laid, false))
  }

  /** Two names that share no inode with a rewritten one keep what they stand for. */
  lemma Untouched(d: Disk, r: Disk, inode: nat, g: string)
    requires r.data.Keys >= d.data.Keys && forall n :: n in d.data && n != inode ==> r.data[n] == d.data[n]
    requires (g in r.cache) == (g in d.cache) && (g in r.layout) == (g in d.layout)
    requires g in d.cache ==> r.cache[g] == d.cache[g] && d.cache[g] in d.data && d.cache[g] != inode
    requires g in d.layout ==> r.layout[g] == d.layout[g] && d.layout[g] in d.data && d.layout[g] != inode
    ensures SlotOf(r, g) == SlotOf(d, g)
  {
  }

  lemma LinkExact(d: Disk, h: string, g: string)
    requires Separate(d) && h in d.cache && h !in d.layout && d.links
    ensures Separate(Materialize(d, h))
    ensures SlotOf(Materialize(d, h), h) == MaterializeSlot(d.links, SlotOf(d, h))
    ensures g != h ==> SlotOf(Materialize(d, h), g) == SlotOf(d, g)
  {
  }

  lemma CopyNewExact(d: Disk, h: string, g: string)
    requires Separate(d) && h in d.cache && h !in d.layout && !d.links
    ensures Separate(Materialize(d, h))
    ensures SlotOf(Materialize(d, h), h) == MaterializeSlot(d.links, SlotOf(d, h))
    ensures g != h ==> SlotOf(Materialize(d, h), g) == SlotOf(d, g)
  {
    CopyNewSeparate(d, h);
    if g != h {
      Untouched(d, Materialize(d, h), d.next, g);
      hide SlotOf;
    }
  }

  lemma CopyNewSeparate(d: Disk, h: string)
    requires Separate(d) && h in d.cache && h !in d.layout && !d.links
    ensures Separate(Materialize(d, h))
  {
    hide At;
  }

  lemma CopyOverExact(d: Disk, h: string, g: string)
    requires Separate(d) && h in d.cache && h in d.layout
    ensures Separate(Materialize(d, h))
    ensures SlotOf(Materialize(d, h), h) == MaterializeSlot(d.links, SlotOf(d, h))
    ensures g != h ==> SlotOf(Materialize(d, h), g) == SlotOf(d, g)
  {
    if g != h {
      Untouched(d, Materialize(d, h), d.layout[h], g);
      hide SlotOf;
    }
  }

  lemma MaterializeExact(d: Disk, h: string, g: string)
    requires Separate(d) && h in d.cache
    ensures Separate(Materialize(d, h)) && Materialize(d, h).links == d.links
    ensures SlotOf(Materialize(d, h), h) == MaterializeSlot(d.links, SlotOf(d, h))
    ensures g != h ==> SlotOf(Materialize(d, h), g) == SlotOf(d, g)
  {
    hide Separate, SlotOf, MaterializeSlot, At;
    if h in d.layout { CopyOverExact(d, h, g); }
    else if d.links { LinkExact(d, h, g); }
    else { CopyNewExact(d, h, g); }
  }

  lemma WriteCacheSeparate(d: Disk, h: string, bytes: string)
    requires Separate(d)
    ensures Separate(WriteCache(d, h, bytes))
  {
  }

  lemma WriteCacheExact(d: Disk, h: string, bytes: string, g: string)
    requires Separate(d)
    ensures Separate(WriteCache(d, h, bytes)) && h in WriteCache(d, h, bytes).cache &&
        WriteCache(d, h, bytes).links == d.links
    ensures SlotOf(WriteCache(d, h, bytes), h) == Slot(Some(bytes), SlotOf(d, h).laid, false)
    ensures g != h ==> SlotOf(WriteCache(d, h, bytes), g) == SlotOf(d, g)
  {
    WriteCacheSeparate(d, h, bytes);
    if g != h {
      Untouched(d, WriteCache(d, h, bytes), d.next, g);
    }
  }

  lemma RemoveExact(d: Disk, h: string, g: string)
    requires Separate(d)
    ensures var r := d.(cache := d.cache - {h});
            Separate(r) && SlotOf(r, h) == Slot(None, SlotOf(d, h).laid, false) &&
                (g != h ==> SlotOf(r, g) == SlotOf(d, g))
  {
  }

  /** A step changes one name, as the slot says. */
  lemma StepExact(hash: string -> string, d: Disk, e: Event, g: string)
    requires Separate(d)
    ensures Separate(Step(hash, d, e)) && Step(hash, d, e).links == d.links
    ensures SlotOf(Step(hash, d, e), g) == if g == e.h then StepSlot(hash, d.links, SlotOf(d, g), e) else SlotOf(d, g)
  {
    var h := e.h;
    var s := SlotOf(d, h);
    hide Separate, Intact, Materialize, WriteCache, At, MaterializeSlot;
    var from :=
      if e.Store? then (if h in d.cache then d else WriteCache(d, h, e.bytes))
      else if h in d.cache && Intact(hash, h, e.size, At(d, d.cache[h])) then d
      else WriteCache(if h in d.cache then d.(cache := d.cache - {h}) else d, h, e.bytes);
    if h in d.cache { RemoveExact(d, h, g); }
    WriteCacheExact(d, h, e.bytes, g);
    WriteCacheExact(if h in d.cache then d.(cache := d.cache - {h}) else d, h, e.bytes, g);
    MaterializeExact(from, h, g);
  }

  function SlotAfter(hash: string -> string, links: bool, s: Slot, events: seq<Event>, h: string): Slot {
    if events == [] then s
    else
      var before := SlotAfter(hash, links, s, events[..|events| - 1], h);
      if events[|events| - 1].h == h then StepSlot(hash, links, before, events[|events| - 1]) else before
  }

  lemma {:induction false} RunExact(hash: string -> string, d: Disk, events: seq<Event>, h: string)
    requires Separate(d)
    ensures Separate(Run(hash, d, events)) && Run(hash, d, events).links == d.links
    ensures SlotOf(Run(hash, d, events), h) == SlotAfter(hash, d.links, SlotOf(d, h), events, h)
  {
    if events != [] {
      var n := |events| - 1;
      hide Separate, Step, SlotOf, StepSlot;
      RunExact(hash, d, events[..n], h);
      StepExact(hash, Run(hash, d, events[..n]), events[n], h);
    }
  }

  // ---------------------------------------------------------------- Which repeats do harm

  function Times(events: seq<Event>, h: string): nat {
    if events == [] then 0
    else Times(events[..|events| - 1], h) + if events[|events| - 1].h == h then 1 else 0
  }

  /** The name is fetched after it has already come up twice. */
  predicate Refetched(events: seq<Event>, h: string) {
    if events == [] then false
    else
      var e := events[|events| - 1];
      Refetched(events[..|events| - 1], h) || (e.Fetch? && e.h == h && Times(events[..|events| - 1], h) >= 2)
  }

  /** Every event of a name brings the same bytes, and they are what the name says. */
  predicate Delivers(hash: string -> string, events: seq<Event>, h: string, bytes: string) {
    hash(bytes) == h
    && forall i :: 0 <= i < |events| && events[i].h == h ==>
         events[i].bytes == bytes && (events[i].Fetch? ==> events[i].size == |bytes|)
  }

  /** The bytes at hand do not collide with the ones wanted. */
  predicate NoClash(hash: string -> string, h: string, bytes: string, cached: Option<string>) {
    && (cached.Some? && hash(cached.value) == h ==> cached.value == bytes)
    && (hash("") == h ==> bytes == "")
  }

  /** `store_bytes` never checks the cache, so a name it comes to first must be good or absent there. */
  predicate TrustedFirst(events: seq<Event>, h: string, bytes: string, cached: Option<string>) {
    cached == None || cached == Some(bytes)
    || forall i :: 0 <= i < |events| && events[i].h == h && events[i].Store? ==> Times(events[..i], h) > 0
  }

  /** A name is emptied by its second event, and mended only by a download after that. */
  predicate Emptied(links: bool, events: seq<Event>, h: string, bytes: string) {
    links && bytes != "" && Times(events, h) >= 2 && !Refetched(events, h)
  }

  /** The slot of a name after any number of events. */
  lemma {:induction false} SlotExact(
    hash: string -> string, links: bool, cached: Option<string>, events: seq<Event>, h: string, bytes: string)
    requires Delivers(hash, events, h, bytes) && NoClash(hash, h, bytes, cached) &&
        TrustedFirst(events, h, bytes, cached)
    ensures SlotAfter(hash, links, Slot(cached, None, false), events, h)
         == if Times(events, h) == 0 then Slot(cached, None, false)
            else if Emptied(links, events, h, bytes) then Slot(Some(""), Some(""), true)
            else Slot(Some(bytes), Some(bytes), links && !(bytes != "" && Refetched(events, h)))
  {
    if events != [] {
      var n := |events| - 1;
      var e := events[n];
      assert forall i :: 0 <= i < n ==> events[..n][i] == events[i] && events[..n][..i] == events[..i];
      assert Delivers(hash, events[..n], h, bytes) && TrustedFirst(events[..n], h, bytes, cached);
      SlotExact(hash, links, cached, events[..n], h, bytes);
      FewTimes(events[..n], h);
      assert events[..n][..n] == events[..n];
      if e.h == h && e.Store? && Times(events[..n], h) == 0 {
        assert cached == None || cached == Some(bytes);
      }
    }
  }

  lemma {:induction false} FewTimes(events: seq<Event>, h: string)
    ensures Refetched(events, h) ==> Times(events, h) >= 3
  {
    if events != [] {
      FewTimes(events[..|events| - 1], h);
    }
  }
}
