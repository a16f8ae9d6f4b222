/** Toolboxes that pack and yet cannot be unpacked, or not safely: inputs that meet the conditions proved elsewhere. */
module OciExamples {
  import opened Wrappers
  import opened Text
  import opened Json
  import opened OciDocs
  import opened Oci
  import opened FileTree
  import opened ToolPaths
  import opened OciRoundTrip
  import opened OciSettle
  import opened OciContainment
  import opened OciArrival
  import Shell

  function Tool(hash: string -> string, name: string, path: string, bytes: string): LockedTool {
    LockedTool(name, "1", Name(LinuxAmd64), hash(bytes), path)
  }

  /** Two tools for one platform, as a build records them. */
  function TwoTools(hash: string -> string, a: string, x: string, b: string, y: string): Toolbox {
    Toolbox([Tool(hash, a, "first", x), Tool(hash, b, "second", y)], map["first" := x, "second" := y], None)
  }

  lemma TwoToolsFor(hash: string -> string, a: string, x: string, b: string, y: string)
    ensures var box := TwoTools(hash, a, x, b, y);
            ToolsFor(box.tools, LinuxAmd64) == box.tools && ToolsFor(box.tools, LinuxArm64) == []
  {
    PlatformNames(LinuxAmd64, LinuxArm64);
    hide Name;
    var tools := TwoTools(hash, a, x, b, y).tools;
    assert tools[1..] == [tools[1]] && tools[1..][1..] == [] && [tools[0]] + [tools[1]] == tools;
    assert ToolsFor([], LinuxAmd64) == [] && ToolsFor([], LinuxArm64) == [];
    assert ToolsFor([tools[1]], LinuxAmd64) == [tools[1]] && ToolsFor([tools[1]], LinuxArm64) == [];
  }

  /** They pack when their names pass the check, and no name repeats when the texts differ. */
  lemma TwoToolsPack(hash: string -> string, a: string, x: string, b: string, y: string)
    requires Shell.ToolName(a).Some? && Shell.ToolName(b).Some?
    ensures Packs(hash, TwoTools(hash, a, x, b, y))
    ensures a != b ==> UniqueTools(TwoTools(hash, a, x, b, y))
    ensures BoxAttempts(TwoTools(hash, a, x, b, y))
        == [Attempt(LinuxAmd64, a, Some(x)), Attempt(LinuxAmd64, b, Some(y))]
  {
    TwoToolsFor(hash, a, x, b, y);
    hide ToolsFor, Name, Shell.ToolName;
    var box := TwoTools(hash, a, x, b, y);
    assert "first" != "second" && box.files["first"] == x && box.files["second"] == y;
    forall p: Platform ensures AllPackable(hash, box.files, ToolsFor(box.tools, p)) {
      assert p == LinuxAmd64 || p == LinuxArm64;
    }
  }

  // ---------------------------------------------------------------- Names that pass the check and fail

  /** `rg/` and any other tool: packs, repeats no name, and unpacks nowhere. */
  lemma SlashedPacks(hash: string -> string, x: string, other: string, y: string, home: Path, pid: nat, t: Tree)
    requires Shell.ToolName(other).Some? && other != "rg/"
    ensures var box := TwoTools(hash, "rg/", x, other, y);
            Packs(hash, box) && UniqueTools(box) && !Receives(t, home, pid, box)
  {
    hide Packs, UniqueTools, Receives, BoxAttempts, Shell.ToolName, TwoTools;
    var box := TwoTools(hash, "rg/", x, other, y);
    var a := Attempt(LinuxAmd64, "rg/", Some(x));
    SlashedName();
    TwoToolsPack(hash, "rg/", x, other, y);
    assert BoxAttempts(box)[0] == a;
    SlashedTool(t, home, pid, box, a);
  }

  /** So do `rg` and `rg/x`. */
  lemma FolderPacks(hash: string -> string, x: string, y: string, home: Path, pid: nat, t: Tree)
    ensures var box := TwoTools(hash, "rg", x, "rg/x", y);
            Packs(hash, box) && UniqueTools(box) && !Receives(t, home, pid, box)
  {
    hide Packs, UniqueTools, Receives, BoxAttempts, Shell.ToolName, TwoTools, KeepsBelow, BoxGoal, BoxPlaces;
    var box := TwoTools(hash, "rg", x, "rg/x", y);
    var a, b := Attempt(LinuxAmd64, "rg", Some(x)), Attempt(LinuxAmd64, "rg/x", Some(y));
    PlainKeeps(a);
    FolderName(b);
    RgIsSafe();
    TwoToolsPack(hash, "rg", x, "rg/x", y);
    assert BoxAttempts(box)[0] == a && BoxAttempts(box)[1] == b;
    FileAndFolder(t, home, pid, box, a, b);
  }

  lemma RgIsSafe()
    ensures Shell.ToolName("rg") == Some("rg")
  {
    Shell.BareToolName("rg");
  }

  lemma XIsSafe()
    ensures Shell.SafeToolName("x")
  {
  }

  lemma FolderParts()
    ensures Parts("rg/x") == ["rg", "x"] && Openable("rg/x")
  {
    hide Parts, Openable;
    PlainParts("x");
    PrefixParts("rg", "x");
    assert "rg" + "/" + "x" == "rg/x";
  }

  lemma FolderName(b: Attempt)
    requires b.name == "rg/x" && b.bytes.Some?
    ensures KeepsBelow(b) && Shell.ToolName("rg/x") == Some("x")
  {
    hide Parts, Openable, Shell.FileName, Shell.SafeToolName;
    FolderParts();
    FileNameIsLast("rg/x");
    XIsSafe();
    assert ["rg", "x"][1..] == ["x"] && ["x"][1..] == [];
  }

  /**
     `rg` and `a/../rg` pack, repeat no name, unpack wherever a project is ready, and arrive only if they are
     the same.
   */
  lemma OverwritingPacks(hash: string -> string, x: string, y: string, home: Path, pid: nat, t: Tree)
    ensures var box := TwoTools(hash, "rg", x, "a/../rg", y);
            && Packs(hash, box) && UniqueTools(box)
            && (Receives(t, home, pid, box) <==> ProjectReady(t, home, pid, RestoredLock(box)))
            && (Agreeing(BoxAttempts(box)) <==> x == y)
  {
    hide Packs, UniqueTools, Receives, BoxAttempts, Shell.ToolName, TwoTools, AllBelow, Compatible, Agreeing,
        ProjectReady, RestoredLock;
    ClimbingName();
    RgIsSafe();
    TwoToolsPack(hash, "rg", x, "a/../rg", y);
    WrittenOver(LinuxAmd64, x, y);
    BelowReceives(t, home, pid, TwoTools(hash, "rg", x, "a/../rg", y));
  }

  lemma TwoGrouped(hash: string -> string, a: string, x: string, b: string, y: string)
    ensures Grouped(TwoTools(hash, a, x, b, y)) == [
              Tool(hash, a, ToolPath(LinuxAmd64, a), x), Tool(hash, b, ToolPath(LinuxAmd64, b), y)]
  {
    TwoToolsFor(hash, a, x, b, y);
    hide ToolsFor, Name, ToolPath;
  }

  /** Once they are installed, the lock file has the first one's hash, and its path the second one's bytes. */
  lemma OverwritingLock(hash: string -> string, x: string, y: string, after: Tree, t: Tree, home: Path, pid: nat)
    requires Receives(t, home, pid, TwoTools(hash, "rg", x, "a/../rg", y))
    requires IsInstalled(after, t, home, pid, TwoTools(hash, "rg", x, "a/../rg", y))
    ensures var first := Grouped(TwoTools(hash, "rg", x, "a/../rg", y))[0];
            first.sha256 == hash(x) && ReadAt(after, home, first.path) == Some(y)
  {
    hide Receives, IsInstalled, BoxAttempts, Shell.ToolName, AllBelow, Compatible, Agreeing, Grouped, ReadAt, ToolPath;
    var box := TwoTools(hash, "rg", x, "a/../rg", y);
    ClimbingName();
    RgIsSafe();
    TwoToolsPack(hash, "rg", x, "a/../rg", y);
    TwoGrouped(hash, "rg", x, "a/../rg", y);
    WrittenOver(LinuxAmd64, x, y);
    var first, second := Attempt(LinuxAmd64, "rg", Some(x)), Attempt(LinuxAmd64, "a/../rg", Some(y));
    assert first == BoxAttempts(box)[0];
    ToolRead(after, t, home, pid, box, first);
    SameGoal(first, second);
    assert [first, second][1] == second;
  }

  lemma SameGoal(a: Attempt, b: Attempt)
    requires a.name == "rg" && b.name == "a/../rg" && a.platform == b.platform && a.bytes.Some?
    ensures BoxGoal(a) == BoxGoal(b)
  {
    PlainKeeps(a);
    BarePlaces(a);
    ClimbingPlaces(b);
  }

  /** Two tools `rg` for one platform pack, and the layout unpacks nowhere. */
  lemma RepeatedPacks(hash: string -> string, x: string, y: string, blobs: Blobs, home: Path, pid: nat, t: Tree)
    requires var box := TwoTools(hash, "rg", x, "rg", y); ValidHash(hash) && Holds(hash, blobs, Written(hash, box))
    ensures var box := TwoTools(hash, "rg", x, "rg", y);
            Packs(hash, box) && UnpackOutcome(hash, Some(MARKER), blobs, Some(IndexBytes(IndexOf(hash, box))), home,
                pid, t).result.Err?
  {
    hide MARKER, IndexBytes, IndexOf, Packs, ValidHash, Holds, Written, UnpackOutcome, UniqueTools, Receives, TextBox,
        TwoTools;
    RepeatedBox(hash, x, y);
    PackedOutcome(hash, TwoTools(hash, "rg", x, "rg", y), blobs, home, pid, t);
  }

  lemma RepeatedBox(hash: string -> string, x: string, y: string)
    ensures var box := TwoTools(hash, "rg", x, "rg", y); TextBox(box) && Packs(hash, box) && !UniqueTools(box)
  {
    hide Packs, ToolsFor, ValidUtf8, Name, Shell.ToolName, BoxAttempts;
    var box := TwoTools(hash, "rg", x, "rg", y);
    TwoToolsFor(hash, "rg", x, "rg", y);
    RgIsText();
    RgIsSafe();
    TwoToolsPack(hash, "rg", x, "rg", y);
    assert box.tools[0].name == box.tools[1].name;
  }

  lemma RgIsText()
    ensures ValidUtf8("rg") && ValidUtf8("1")
  {
    assert Ascii("rg") && Ascii("1");
    AsciiIsUtf8("rg");
    AsciiIsUtf8("1");
  }

  /** Nothing unpacks into a project path that is a plain file. */
  lemma FileProject(hash: string -> string, box: Toolbox, blobs: Blobs, home: Path, pid: nat, bytes: string)
    requires ValidHash(hash) && TextBox(box) && Packs(hash, box) && Holds(hash, blobs, Written(hash, box))
    ensures UnpackOutcome(hash, Some(MARKER), blobs, Some(IndexBytes(IndexOf(hash, box))), home, pid,
        map[home := File(bytes)]).result.Err?
  {
    hide MARKER, IndexBytes, IndexOf, Packs, ValidHash, Holds, Written, UnpackOutcome, UniqueTools, TextBox,
        FreshStaging, Staging;
    PackedOutcome(hash, box, blobs, home, pid, map[home := File(bytes)]);
  }

  // ---------------------------------------------------------------- A blob missing behind a name that climbs out

  /** A packed layout less one blob. */
  function Without(hash: string -> string, box: Toolbox, bytes: string): Blobs {
    PutAll(hash, map[], Written(hash, box)) - {hash(bytes)}
  }

  /** Take the second tool's blob out of the layout and it is a case of `EscapingTool`. */
  lemma EscapingPacks(hash: string -> string, x: string, other: string, y: string)
    requires Shell.ToolName(other).Some? && Ascii(other)
    requires var box := TwoTools(hash, ESCAPING, x, other, y);
             CollisionFree(hash, Written(hash, box)) && y != x && y != ConfigFor(box, LinuxAmd64) &&
                 y != ManifestBytes(ManifestOf(hash, box, LinuxAmd64))
    ensures var box := TwoTools(hash, ESCAPING, x, other, y);
            TextBox(box) && Packs(hash, box) && EscapingBox(hash, box) && SecondGone(hash, box, Without(hash, box, y))
  {
    var box := TwoTools(hash, ESCAPING, x, other, y);
    hide ESCAPING, Shell.ToolName, ToolsFor, ValidUtf8, Packs, ConfigFor, ManifestBytes, ManifestOf, PutAll,
        CollisionFree, Written, Without, UniqueTools,
      TextBox, SecondGone, BoxAttempts, Shell.FileName, Parts, Ascii, Name;
    TwoToolsText(hash, x, other, y);
    EscapingName();
    TwoToolsFor(hash, ESCAPING, x, other, y);
    TwoToolsPack(hash, ESCAPING, x, other, y);
    assert Content(box, box.tools[0]) == x && Content(box, box.tools[1]) == y;
    WithoutHolds(hash, box, y);
  }

  lemma TwoToolsText(hash: string -> string, x: string, other: string, y: string)
    requires Ascii(other)
    ensures TextBox(TwoTools(hash, ESCAPING, x, other, y))
  {
    EscapingText();
    AsciiIsUtf8(other);
    assert Ascii("1");
    AsciiIsUtf8("1");
    hide ESCAPING, ValidUtf8, Name;
  }

  lemma EscapingText()
    ensures ValidUtf8(ESCAPING)
  {
    assert Ascii(ESCAPING);
    hide ESCAPING;
    AsciiIsUtf8(ESCAPING);
  }

  lemma WithoutHolds(hash: string -> string, box: Toolbox, bytes: string)
    requires CollisionFree(hash, Written(hash, box)) && ToolsFor(box.tools, LinuxArm64) == [] &&
        |ToolsFor(box.tools, LinuxAmd64)| == 2
    requires var tools := ToolsFor(box.tools, LinuxAmd64);
             bytes == Content(box, tools[1]) != Content(box, tools[0])
    requires bytes != ConfigFor(box, LinuxAmd64) && bytes != ManifestBytes(ManifestOf(hash, box, LinuxAmd64))
    ensures SecondGone(hash, box, Without(hash, box, bytes))
  {
    var tools := ToolsFor(box.tools, LinuxAmd64);
    var config, manifest := ConfigFor(box, LinuxAmd64), ManifestBytes(ManifestOf(hash, box, LinuxAmd64));
    hide ToolsFor, ConfigFor, ManifestBytes, ManifestOf, PutAll, Content, CollisionFree;
    assert Written(hash, box) == [config, Content(box, tools[0]), bytes, manifest];
    hide Written;
    AllButOne(hash, config, Content(box, tools[0]), bytes, manifest);
  }

  lemma AllButOne(hash: string -> string, a: string, b: string, c: string, d: string)
    requires CollisionFree(hash, [a, b, c, d]) && c != a && c != b && c != d
    ensures var blobs := PutAll(hash, map[], [a, b, c, d]) - {hash(c)};
            Holds(hash, blobs, [a, d]) && Holds(hash, blobs, [b]) && hash(c) !in blobs
  {
    var w := [a, b, c, d];
    PutAllExact(hash, w);
    hide PutAll;
    assert w[0] == a && w[1] == b && w[2] == c && w[3] == d;
    assert hash(c) != hash(a) && hash(c) != hash(b) && hash(c) != hash(d);
  }
}
