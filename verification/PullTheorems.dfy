/** What a finished pull leaves in the layout and in the cache. */
module PullTheorems {
  import opened Wrappers
  import opened Oci
  import opened PullDisk
  import opened RegistryPull

  // ---------------------------------------------------------------- Integrity, with no assumption on the hash

  /** Where `store_bytes` trusts the cache, the cache is right. */
  ghost predicate ManifestsTrusted(hash: string -> string, d: Disk, events: seq<Event>) {
    forall i :: 0 <= i < |events| && events[i].Store? && events[i].h in d.cache ==>
        hash(At(d, d.cache[events[i].h])) == events[i].h
  }

  lemma {:induction false} Untouched(hash: string -> string, links: bool, s: Slot, events: seq<Event>, h: string)
    requires Times(events, h) == 0
    ensures SlotAfter(hash, links, s, events, h) == s
  {
    if events != [] {
      Untouched(hash, links, s, events[..|events| - 1], h);
    }
  }

  lemma {:induction false} OnceIntact(hash: string -> string, d: Disk, events: seq<Event>, h: string)
    requires Separate(d) && d.layout == map[] && Checked(hash, d, events) && ManifestsTrusted(hash, d, events)
    requires Times(events, h) == 1
    ensures var s := SlotAfter(hash, d.links, SlotOf(d, h), events, h);
            s.laid.Some? && s.laid == s.cached && hash(s.laid.value) == h
  {
    hide Separate;
    var n := |events| - 1;
    var e := events[n];
    assert forall i :: 0 <= i < n ==> events[..n][i] == events[i] && events[..n][..i] == events[..i];
    if e.h == h {
      Untouched(hash, d.links, SlotOf(d, h), events[..n], h);
      RunExact(hash, d, events[..n], h);
    } else {
      assert Checked(hash, d, events[..n]) by {
        hide Run, Intact, InCache;
        forall i | 0 <= i < n ensures events[..n][i] == events[i] && events[..n][..i] == events[..i] {}
      }
      OnceIntact(hash, d, events[..n], h);
    }
  }

  /**
   For any registry, any cache and any hash: a name that came up once ends, in the layout and in the cache,
   as a file whose hash is that name.
   */
  lemma PullIntegrity(hash: string -> string, d: Disk, events: seq<Event>, h: string)
    requires Separate(d) && d.layout == map[] && Checked(hash, d, events) && ManifestsTrusted(hash, d, events)
    requires Times(events, h) == 1
    ensures var r := Run(hash, d, events);
            && h in r.layout && hash(At(r, r.layout[h])) == h
            && h in r.cache && At(r, r.cache[h]) == At(r, r.layout[h])
  {
    OnceIntact(hash, d, events, h);
    RunExact(hash, d, events, h);
    hide Separate, Checked, ManifestsTrusted, Run, SlotAfter;
  }

  // ---------------------------------------------------------------- The exact result

  /** The registry's bodies are what their names and sizes say. */
  predicate Genuine(hash: string -> string, events: seq<Event>) {
    forall i :: 0 <= i < |events| ==>
      hash(events[i].bytes) == events[i].h && (events[i].Fetch? ==> events[i].size == |events[i].bytes|)
  }

  /** No two of the byte strings at hand collide: the bodies, the cached files, and the empty string. */
  ghost predicate Clean(hash: string -> string, d: Disk, events: seq<Event>) {
    && (forall i, j :: 0 <= i < |events| && 0 <= j < |events| && hash(events[i].bytes) == hash(events[j].bytes) ==>
          events[i].bytes == events[j].bytes)
    && (forall i, h :: 0 <= i < |events| && h in d.cache && hash(At(d, d.cache[h])) == hash(events[i].bytes) ==>
          At(d, d.cache[h]) == events[i].bytes)
    && (forall i :: 0 <= i < |events| && hash("") == hash(events[i].bytes) ==> events[i].bytes == "")
  }

  /** What the pull starts from: a cache of its own, whose entries are honest where they are trusted. */
  ghost predicate Prepared(hash: string -> string, d: Disk, events: seq<Event>) {
    Separate(d) && d.layout == map[] && Clean(hash, d, events) && ManifestsTrusted(hash, d, events)
  }

  ghost predicate Ready(hash: string -> string, d: Disk, events: seq<Event>) {
    Prepared(hash, d, events) && Genuine(hash, events)
  }

  predicate EmptiedAt(links: bool, events: seq<Event>, i: nat)
    requires i < |events|
  {
    Emptied(links, events, events[i].h, events[i].bytes)
  }

  predicate NoneEmptied(links: bool, events: seq<Event>) {
    forall i :: 0 <= i < |events| ==> !EmptiedAt(links, events, i)
  }

  lemma {:induction false} SomeTimes(events: seq<Event>, h: string)
    ensures Times(events, h) > 0 <==> exists i :: 0 <= i < |events| && events[i].h == h
  {
    if events != [] {
      var n := |events| - 1;
      SomeTimes(events[..n], h);
      assert forall i :: 0 <= i < n ==> events[..n][i] == events[i];
      if i :| 0 <= i < |events| && events[i].h == h && i < n { assert events[..n][i].h == h; }
    }
  }

  /** Every name that came up ends as its bytes, or is emptied in the layout and the cache alike. */
  lemma PullExact(hash: string -> string, d: Disk, events: seq<Event>, i: nat)
    requires Ready(hash, d, events) && i < |events|
    ensures var r := Run(hash, d, events);
            var h, bytes := events[i].h, events[i].bytes;
            var left := if EmptiedAt(d.links, events, i) then "" else bytes;
            && h in r.layout && At(r, r.layout[h]) == left
            && h in r.cache && At(r, r.cache[h]) == left
  {
    var h, bytes := events[i].h, events[i].bytes;
    var cached := SlotOf(d, h).cached;
    assert Delivers(hash, events, h, bytes) && NoClash(hash, h, bytes, cached);
    if j :| 0 <= j < |events| && events[j].h == h && events[j].Store? {
      assert TrustedFirst(events, h, bytes, cached);
    }
    SomeTimes(events, h);
    assert SlotOf(d, h) == Slot(cached, None, false);
    hide Delivers, NoClash, TrustedFirst, Genuine, Clean, ManifestsTrusted, Emptied, Times, Refetched;
    SlotExact(hash, d.links, cached, events, h, bytes);
    RunExact(hash, d, events, h);
    hide Separate, Run, SlotAfter;
  }

  function Files(d: Disk): Blobs {
    map h | h in d.layout :: At(d, d.layout[h])
  }

  /** The layout a pull with no cache and no links would write. */
  function Uncached(events: seq<Event>): Blobs {
    if events == [] then map[]
    else Uncached(events[..|events| - 1])[events[|events| - 1].h := events[|events| - 1].bytes]
  }

  lemma {:induction false} UncachedExact(hash: string -> string, d: Disk, events: seq<Event>)
    requires Genuine(hash, events) && Clean(hash, d, events)
    ensures forall h :: h in Uncached(events) <==> Times(events, h) > 0
    ensures forall i :: 0 <= i < |events| ==>
        events[i].h in Uncached(events) && Uncached(events)[events[i].h] == events[i].bytes
  {
    if events != [] {
      var n := |events| - 1;
      assert forall i :: 0 <= i < n ==> events[..n][i] == events[i];
      UncachedExact(hash, d, events[..n]);
    }
  }

  lemma LaidNames(hash: string -> string, d: Disk, events: seq<Event>, h: string)
    requires Ready(hash, d, events)
    ensures h in Run(hash, d, events).layout <==> Times(events, h) > 0
  {
    SomeTimes(events, h);
    if Times(events, h) > 0 {
      var i :| 0 <= i < |events| && events[i].h == h;
      hide Times, Ready;
      PullExact(hash, d, events, i);
    } else {
      Untouched(hash, d.links, SlotOf(d, h), events, h);
      RunExact(hash, d, events, h);
      hide Times, Separate, Run, Genuine, Clean, ManifestsTrusted, SlotAfter;
    }
  }

  /**
   A pull through any cache is a pull without one exactly when no name is emptied: hard links work, and a
   name with a non-empty body comes up at least twice but is not fetched again after its second time.
   */
  lemma RefinesUncached(hash: string -> string, d: Disk, events: seq<Event>)
    requires Ready(hash, d, events)
    ensures Files(Run(hash, d, events)) == Uncached(events) <==> NoneEmptied(d.links, events)
  {
    var r := Run(hash, d, events);
    UncachedExact(hash, d, events);
    forall h ensures h in r.layout <==> h in Uncached(events) {
      LaidNames(hash, d, events, h);
    }
    hide Ready, Times, Uncached, Run;
    if NoneEmptied(d.links, events) {
      forall h | h in r.layout ensures At(r, r.layout[h]) == Uncached(events)[h] {
        SomeTimes(events, h);
        var i :| 0 <= i < |events| && events[i].h == h;
        PullExact(hash, d, events, i);
        hide EmptiedAt, At;
      }
      assert Files(r) == Uncached(events);
    } else {
      var i :| 0 <= i < |events| && EmptiedAt(d.links, events, i);
      PullExact(hash, d, events, i);
      assert Files(r)[events[i].h] == "";
    }
  }

  /** In particular a non-empty blob that comes up exactly twice is lost where hard links work. */
  lemma SharedTwice(hash: string -> string, d: Disk, events: seq<Event>, i: nat)
    requires Ready(hash, d, events) && i < |events|
    requires d.links && events[i].bytes != "" && Times(events, events[i].h) == 2
    ensures events[i].h in Files(Run(hash, d, events)) && Files(Run(hash, d, events))[events[i].h] == ""
  {
    FewTimes(events, events[i].h);
    hide Ready, Times, Refetched;
    PullExact(hash, d, events, i);
    hide Run;
  }

  /** Six events, the third of which comes again as the sixth. */
  lemma ThirdAgain(m1: Event, c1: Event, m2: Event, c2: Event, script: Event)
    requires script.Fetch? && script.bytes != ""
    requires m1.h != script.h && c1.h != script.h && m2.h != script.h && c2.h != script.h
    ensures !NoneEmptied(true, [m1, c1, script, m2, c2, script])
  {
    var e := [m1, c1, script, m2, c2, script];
    assert e[..5][..4] == e[..4] && e[..4][..3] == e[..3] && e[..3][..2] == e[..2] && e[..2][..1] == e[..1] &&
        e[..1][..0] == [];
    assert Times(e[..1], script.h) == 0 && !Refetched(e[..1], script.h);
    assert Times(e[..2], script.h) == 0 && !Refetched(e[..2], script.h);
    assert Times(e[..3], script.h) == 1 && !Refetched(e[..3], script.h);
    assert Times(e[..4], script.h) == 1 && !Refetched(e[..4], script.h);
    assert Times(e[..5], script.h) == 1 && !Refetched(e[..5], script.h);
    assert EmptiedAt(true, e, 2);
  }
}
