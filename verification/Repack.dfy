/** A toolbox that has arrived packs, where it arrived, to the image it came from, byte for byte. */
module Repack {
  import opened Wrappers
  import opened Json
  import opened OciDocs
  import opened Oci
  import opened FileTree
  import opened ToolPaths
  import opened OciRoundTrip
  import opened ToolboxLock
  import opened OciSettle
  import opened OciArrival
  import opened OciDisk

  lemma {:induction false} ToolsForAppend(a: seq<LockedTool>, b: seq<LockedTool>, p: Platform)
    ensures ToolsFor(a + b, p) == ToolsFor(a, p) + ToolsFor(b, p)
  {
    hide Name;
    if a == [] {
      assert a + b == b;
    } else {
      assert (a + b)[1..] == a[1..] + b;
      ToolsForAppend(a[1..], b, p);
    }
  }

  lemma {:induction false} ToolsForAll(a: seq<LockedTool>, p: Platform)
    requires forall i :: 0 <= i < |a| ==> a[i].platform == Name(p)
    ensures ToolsFor(a, p) == a
  {
    hide Name;
    if a != [] {
      ToolsForAll(a[1..], p);
      assert [a[0]] + a[1..] == a;
    }
  }

  lemma {:induction false} ToolsForNone(a: seq<LockedTool>, p: Platform)
    requires forall i :: 0 <= i < |a| ==> a[i].platform != Name(p)
    ensures ToolsFor(a, p) == []
  {
    hide Name;
    if a != [] { ToolsForNone(a[1..], p); }
  }

  /** The arrived lock file, taken apart by platform again. */
  lemma GroupedTools(box: Toolbox, p: Platform)
    ensures ToolsFor(Grouped(box), p) == MovedAll(p, ToolsFor(box.tools, p))
  {
    var amd, arm := MovedAll(LinuxAmd64, ToolsFor(box.tools, LinuxAmd64)),
        MovedAll(LinuxArm64, ToolsFor(box.tools, LinuxArm64));
    PlatformNames(LinuxAmd64, LinuxArm64);
    hide ToolsFor, Name, ToolPath;
    ToolsForAppend(amd, arm, p);
    if p == LinuxAmd64 {
      ToolsForAll(amd, p);
      ToolsForNone(arm, p);
      assert amd + [] == amd;
    } else {
      ToolsForNone(amd, p);
      ToolsForAll(arm, p);
      assert [] + arm == arm;
    }
  }

  /** The same tools with the same contents, wherever they are kept, and the same project lock. */
  predicate SameBox(box: Toolbox, other: Toolbox) {
    && other.tools == Grouped(box) && other.projectLock == box.projectLock
    && (forall p: Platform, t: LockedTool :: t in ToolsFor(box.tools, p) ==>
          Moved(p, t).path in other.files && other.files[Moved(p, t).path] == Content(box, t))
  }

  lemma SameLayers(hash: string -> string, box: Toolbox, other: Toolbox, p: Platform)
    requires SameBox(box, other)
    ensures Contents(other, ToolsFor(other.tools, p)) == Contents(box, ToolsFor(box.tools, p))
    ensures LayersOf(hash, other, ToolsFor(other.tools, p)) == LayersOf(hash, box, ToolsFor(box.tools, p))
    ensures ToolsFor(other.tools, p) == [] <==> ToolsFor(box.tools, p) == []
  {
    GroupedTools(box, p);
    var tools := ToolsFor(box.tools, p);
    hide ToolsFor, Grouped, ToolPath, TOOL_TYPE, NAME_KEY, VERSION_KEY, Digest;
    forall i | 0 <= i < |tools|
      ensures Content(other, Moved(p, tools[i])) == Content(box, tools[i])
      ensures Layer(hash, Moved(p, tools[i]), Content(box, tools[i])) == Layer(hash, tools[i], Content(box, tools[i]))
    {
      assert tools[i] in tools;
    }
    hide Layer, Content, Moved;
  }

  /** So they pack to the same blobs and the same index. */
  lemma SameImage(hash: string -> string, box: Toolbox, other: Toolbox)
    requires SameBox(box, other)
    ensures Written(hash, other) == Written(hash, box) && IndexOf(hash, other) == IndexOf(hash, box)
  {
    SameLayers(hash, box, other, LinuxAmd64);
    SameLayers(hash, box, other, LinuxArm64);
    hide ToolsFor, Contents, LayersOf, ManifestBytes, ConfigBytes, Grouped, BlobDescriptor, Moved, Name;
  }

  lemma SamePacks(hash: string -> string, box: Toolbox, other: Toolbox)
    requires SameBox(box, other) && Packs(hash, box)
    ensures Packs(hash, other)
  {
    forall p: Platform ensures AllPackable(hash, other.files, ToolsFor(other.tools, p)) {
      GroupedTools(box, p);
      var tools := ToolsFor(box.tools, p);
      hide ToolsFor, Grouped, Content, ToolPath;
      forall t | t in MovedAll(p, tools) ensures Packable(hash, other.files, t) {
        var i :| 0 <= i < |tools| && MovedAll(p, tools)[i] == t;
        PackedTool(hash, box, p, tools[i]);
        assert AllPackable(hash, box.files, tools) && tools[i] in tools;
        assert Packable(hash, box.files, tools[i]);
      }
    }
  }

  /** What has arrived is the same box. */
  lemma ArrivedIsSame(hash: string -> string, box: Toolbox, target: Root)
    requires Packs(hash, box) && Arrived(hash, box, target.home, target.tree)
    requires target.Lock() == Some(Grouped(box)) && target.ProjectLock() == box.projectLock
    ensures SameBox(box, target.Box())
  {
    hide ReadAt, ToolPath, ParseLock, ParseProjectLock, Name;
    forall p: Platform, t: LockedTool | t in ToolsFor(box.tools, p)
      ensures var other := target.Box();
              Moved(p, t).path in other.files && other.files[Moved(p, t).path] == Content(box, t)
    {
      PackedTool(hash, box, p, t);
      MovedIsGrouped(box, p, t);
      hide ToolsFor, Grouped, Content, Packs;
      assert Moved(p, t) in Grouped(box);
    }
  }

  lemma MovedIsGrouped(box: Toolbox, p: Platform, t: LockedTool)
    requires t in ToolsFor(box.tools, p)
    ensures Moved(p, t) in Grouped(box)
  {
    var tools := ToolsFor(box.tools, p);
    hide ToolsFor, Moved;
    var i :| 0 <= i < |tools| && tools[i] == t;
    assert MovedAll(p, tools)[i] in MovedAll(p, tools);
  }

  lemma SamePacking(hash: string -> string, box: Toolbox, target: Root)
    requires Packs(hash, box) && Arrived(hash, box, target.home, target.tree)
    requires target.Lock() == Some(Grouped(box)) && target.ProjectLock() == box.projectLock
    ensures Packs(hash, target.Box()) && Written(hash, target.Box()) == Written(hash, box) &&
        IndexOf(hash, target.Box()) == IndexOf(hash, box)
    ensures PackPlatforms(hash, target.Box(), ALL).failed.None?
  {
    hide Packs, Arrived, SameBox, Written, IndexOf, PackPlatforms, ParseLock, ParseProjectLock, FilesOf, Grouped;
    ArrivedIsSame(hash, box, target);
    SameImage(hash, box, target.Box());
    SamePacks(hash, box, target.Box());
    PackExact(hash, target.Box());
  }

  /** Packing a project that a toolbox has arrived in. */
  method PackAgain(hash: string -> string, ghost box: Toolbox, target: Root, again: Layout)
    requires Packs(hash, box) && Arrived(hash, box, target.home, target.tree) && !again.present
    requires target.Lock() == Some(Grouped(box)) && target.ProjectLock() == box.projectLock
    modifies again
    ensures again.marker == Some(MARKER) && again.index == Some(IndexBytes(IndexOf(hash, box)))
    ensures again.blobs == PutAll(hash, map[], Written(hash, box))
  {
    hide Written, PutAll, IndexBytes, IndexOf, MARKER, Packs, Arrived, PackPlatforms, ParseLock, ParseProjectLock,
        FilesOf, Grouped;
    SamePacking(hash, box, target);
    var failed := target.Pack(hash, again);
  }

  /**
   Unpacking loses nothing that packing looks at. Unpack a toolbox into another project, its names below the
   toolbox directory and its contents agreeing. If the project ends with the toolbox's project lock, which it
   does whenever one travels with it, then packing it gives the very same layout, byte for byte.
   */
  method RoundTrip(hash: string -> string, source: Root, target: Root, pid: nat, again: Layout)
      returns (r: Result<seq<LockedTool>, Error>)
    requires source != target && source.Lock().Some? && !again.present
    requires ValidHash(hash) && TextBox(source.Box()) && Packs(hash, source.Box())
    requires CollisionFree(hash, Written(hash, source.Box()))
    requires AllBelow(BoxAttempts(source.Box())) && Agreeing(BoxAttempts(source.Box()))
    modifies target, again
    ensures r.Ok? <==> UniqueTools(source.Box()) && Compatible(BoxAttempts(source.Box()))
                       && ProjectReady(old(target.tree), target.home, pid, RestoredLock(source.Box()))
    ensures r.Ok? && RestoredLock(source.Box()).Some? ==> target.ProjectLock() == source.Box().projectLock
    ensures r.Ok? && target.ProjectLock() == source.Box().projectLock ==>
      && again.marker == Some(MARKER) && again.index == Some(IndexBytes(IndexOf(hash, source.Box())))
      && again.blobs == PutAll(hash, map[], Written(hash, source.Box()))
  {
    var box := source.Box();
    assert RestoredLock(box).Some? ==> RestoredLock(box) == box.projectLock;
    hide RestoredLock, Root.Box, Root.Lock, Root.ProjectLock;
    hide ValidHash, TextBox, CollisionFree, Written, PutAll, IndexBytes, IndexOf, MARKER, Packs, Arrived, Receives,
        AllBelow, Agreeing, BoxAttempts,
      PackPlatforms, ParseLock, ParseProjectLock, FilesOf, Compatible, ProjectReady, UniqueTools, Grouped, SameBox,
          Holds, UnpackOutcome;
    r := PackThenUnpack(hash, source, target, pid);
    if r.Ok? && target.ProjectLock() == box.projectLock { PackAgain(hash, box, target, again); }
  }
}
