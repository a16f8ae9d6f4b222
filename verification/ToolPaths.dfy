/**
 Where the text of a path leads: `Path::components`, the walk over `..`, the directories
 `create_dir_all` makes on the way, and the file `fs::write` opens at the end.
 */
module ToolPaths {
  import opened Wrappers
  import opened FileTree
  import Shell

  predicate Absolute(text: string) {
    text != "" && text[0] == '/'
  }

  /** `Path::components`: what stands between slashes, empty pieces and single dots passed over. */
  function Parts(text: string): seq<string>
    decreases |text|
  {
    var cut := Shell.LastComponent(text);
    var piece := text[cut..];
    var before := if cut == 0 then [] else Parts(text[..cut - 1]);
    if piece == "" || piece == "." then before else before + [piece]
  }

  /** A path that ends in a slash or a dot asks for a directory, which cannot be opened for writing. */
  predicate Openable(text: string) {
    var piece := text[Shell.LastComponent(text)..];
    piece != "" && piece != "."
  }

  /** `Path::file_name` is the last component, unless that leads upwards. */
  lemma {:induction false} FileNameIsLast(text: string)
    ensures Shell.FileName(text)
         == var parts := Parts(text); if parts == [] || parts[|parts| - 1] == ".." then None
             else Some(parts[|parts| - 1])
    decreases |text|
  {
    var cut := Shell.LastComponent(text);
    if cut > 0 { FileNameIsLast(text[..cut - 1]); }
  }

  lemma {:induction false} LastComponentAppend(a: string, b: string)
    ensures Shell.LastComponent(a + "/" + b) == |a| + 1 + Shell.LastComponent(b)
    decreases |b|
  {
    var all := a + "/" + b;
    if b == "" {
      assert all[|all| - 1] == '/';
    } else {
      assert all[|all| - 1] == b[|b| - 1];
      assert all[..|all| - 1] == a + "/" + b[..|b| - 1];
      LastComponentAppend(a, b[..|b| - 1]);
    }
  }

  lemma {:induction false} PartsAppend(a: string, b: string)
    ensures Parts(a + "/" + b) == Parts(a) + Parts(b)
    ensures Openable(a + "/" + b) == Openable(b)
    decreases |b|
  {
    var all := a + "/" + b;
    var cut := Shell.LastComponent(b);
    LastComponentAppend(a, b);
    PartsLast(all);
    PartsLast(b);
    hide Shell.LastComponent, Parts;
    assert all[|a| + 1 + cut..] == b[cut..];
    if cut == 0 {
      assert all[..|a|] == a;
      assert Parts(a) + [] == Parts(a);
    } else {
      assert all[..|a| + cut] == a + "/" + b[..cut - 1];
      PartsAppend(a, b[..cut - 1]);
    }
  }

  lemma PartsLast(text: string)
    ensures var cut := Shell.LastComponent(text);
            Parts(text) == (if cut == 0 then [] else Parts(text[..cut - 1])) + if Openable(text) then [text[cut..]]
                else []
  {
    hide Shell.LastComponent;
  }

  // ---------------------------------------------------------------- Walking

  /** One component further; above the root is the root. */
  function Step(q: Path, piece: string): Path {
    if piece != ".." then q + [piece] else if q == [] then [] else q[..|q| - 1]
  }

  /** The directories passed through, the last one included. */
  function Walk(from: Path, pieces: seq<string>): (r: seq<Path>)
    ensures |r| == |pieces|
    decreases |pieces|
  {
    if pieces == [] then [] else [Step(from, pieces[0])] + Walk(Step(from, pieces[0]), pieces[1..])
  }

  function End(from: Path, pieces: seq<string>): Path
    decreases |pieces|
  {
    if pieces == [] then from else End(Step(from, pieces[0]), pieces[1..])
  }

  lemma {:induction false} WalkAppend(from: Path, a: seq<string>, b: seq<string>)
    ensures Walk(from, a + b) == Walk(from, a) + Walk(End(from, a), b)
    ensures End(from, a + b) == End(End(from, a), b)
    decreases |a|
  {
    if a == [] {
      assert a + b == b;
    } else {
      assert (a + b)[1..] == a[1..] + b;
      WalkAppend(Step(from, a[0]), a[1..], b);
    }
  }

  lemma WalkCons(from: Path, piece: string, rest: seq<string>)
    ensures Walk(from, [piece] + rest) == [Step(from, piece)] + Walk(Step(from, piece), rest)
    ensures End(from, [piece] + rest) == End(Step(from, piece), rest)
  {
    assert ([piece] + rest)[1..] == rest;
  }

  /** Down from a place, one component at a time. */
  lemma {:induction false} EndPlain(from: Path, pieces: seq<string>)
    requires ".." !in pieces
    ensures End(from, pieces) == from + pieces
    decreases |pieces|
  {
    if pieces != [] { EndPlain(Step(from, pieces[0]), pieces[1..]); }
  }

  lemma {:induction false} WalkPlain(from: Path, pieces: seq<string>, i: nat)
    requires i < |pieces| && ".." !in pieces
    ensures Walk(from, pieces)[i] == from + pieces[..i + 1]
    decreases i
  {
    if i > 0 {
      var next := Step(from, pieces[0]);
      WalkPlain(next, pieces[1..], i - 1);
      assert next + pieces[1..][..i] == from + pieces[..i + 1];
    }
  }

  /** A walk that never climbs above the place it started `depth` components below. */
  predicate Below(depth: nat, pieces: seq<string>)
    decreases |pieces|
  {
    pieces == [] || if pieces[0] == ".." then depth > 0 && Below(depth - 1, pieces[1..])
        else Below(depth + 1, pieces[1..])
  }

  lemma StepBelow(base: Path, from: Path, pieces: seq<string>)
    requires pieces != [] && Below(|from|, pieces)
    ensures Step(base + from, pieces[0]) == base + Step(from, pieces[0])
    ensures Below(|Step(from, pieces[0])|, pieces[1..])
  {
  }

  /** Such a walk is the same from anywhere. */
  lemma {:induction false} EndBelow(base: Path, from: Path, pieces: seq<string>)
    requires Below(|from|, pieces)
    ensures End(base + from, pieces) == base + End(from, pieces)
    decreases |pieces|
  {
    if pieces != [] {
      StepBelow(base, from, pieces);
      hide Below, Step;
      EndBelow(base, Step(from, pieces[0]), pieces[1..]);
    }
  }

  lemma {:induction false} WalkBelow(base: Path, from: Path, pieces: seq<string>, i: nat)
    requires i < |pieces| && Below(|from|, pieces)
    ensures Walk(base + from, pieces)[i] == base + Walk(from, pieces)[i]
    decreases i
  {
    StepBelow(base, from, pieces);
    hide Below, Step;
    if i > 0 { WalkBelow(base, Step(from, pieces[0]), pieces[1..], i - 1); }
  }

  lemma {:induction false} BelowFront(depth: nat, pieces: seq<string>, k: nat)
    requires k <= |pieces| && Below(depth, pieces)
    ensures Below(depth, pieces[..k])
    decreases |pieces|
  {
    if k > 0 {
      assert pieces[..k][1..] == pieces[1..][..k - 1];
      BelowFront(if pieces[0] == ".." then depth - 1 else depth + 1, pieces[1..], k - 1);
    }
  }

  function Front(pieces: seq<string>): seq<string> {
    if pieces == [] then [] else pieces[..|pieces| - 1]
  }

  /** `Path::join`: an absolute name starts at the root, any other below `base`, in `folder`. */
  function Start(base: Path, name: string): Path {
    if Absolute(name) then [] else base
  }

  function Route(folder: seq<string>, name: string): seq<string> {
    if Absolute(name) then Parts(name) else folder + Parts(name)
  }

  function Places(base: Path, folder: seq<string>, name: string): seq<Path> {
    Walk(Start(base, name), Front(Route(folder, name)))
  }

  function Target(base: Path, folder: seq<string>, name: string): Path {
    End(Start(base, name), Route(folder, name))
  }

  // ---------------------------------------------------------------- Writing and reading

  function MakeAll(places: seq<Path>): (r: seq<Op>)
    ensures |r| == |places| && forall i :: 0 <= i < |places| ==> r[i] == MakeDir(places[i])
  {
    seq(|places|, i requires 0 <= i < |places| => MakeDir(places[i]))
  }

  /** `create_dir_all` of the parent; no call takes a path with a NUL in it. */
  function MakeOps(base: Path, folder: seq<string>, name: string): seq<Op> {
    if '\0' in name then [Refuse] else MakeAll(Places(base, folder, name))
  }

  /** `fs::write`. */
  function WriteOp(base: Path, folder: seq<string>, name: string, bytes: string): Op {
    if Openable(name) then WriteFile(Target(base, folder, name), bytes) else Refuse
  }

  /** Both, where there are bytes to write. */
  function FileOps(base: Path, folder: seq<string>, name: string, bytes: Option<string>): seq<Op> {
    MakeOps(base, folder, name) + [if bytes.Some? then WriteOp(base, folder, name, bytes.value) else Refuse]
  }

  /** `fs::read` of a path below `home`. */
  function ReadAt(t: Tree, home: Path, text: string): Option<string> {
    var target := Target(home, [], text);
    if '\0' in text || !Openable(text) || !IsFile(t, target) then None
    else if forall q :: q in Places(home, [], text) ==> IsDir(t, q) then Some(t[target].bytes)
    else None
  }

  // ---------------------------------------------------------------- Names

  /** A name whose path never climbs out of the directory that holds its folder. */
  predicate StaysBelow(name: string) {
    !Absolute(name) && Below(1, Parts(name))
  }

  /** A name that can be written at all. */
  predicate Usable(name: string) {
    '\0' !in name && Openable(name)
  }

  lemma BareParts(name: string)
    requires Shell.BareName(name)
    ensures Parts(name) == [name] && StaysBelow(name) && Usable(name)
  {
    assert Shell.LastComponent(name) == 0;
    assert name[0..] == name;
  }

  /** A name that stays below leads to the same place under any base. */
  lemma BelowBase(base: Path, folder: string, name: string)
    requires folder != ".." && StaysBelow(name)
    ensures Target(base, [folder], name) == base + Target([], [folder], name)
    ensures var places := Places([], [folder], name);
            && |Places(base, [folder], name)| == |places|
            && forall i :: 0 <= i < |places| ==> Places(base, [folder], name)[i] == base + places[i]
  {
    var route := [folder] + Parts(name);
    assert route[1..] == Parts(name);
    assert Below(0, route);
    BelowFront(0, route, |route| - 1);
    hide Parts, Below;
    assert base + [] == base;
    EndBelow(base, [], route);
    forall i | 0 <= i < |Front(route)| ensures Walk(base, Front(route))[i] == base + Walk([], Front(route))[i] {
      WalkBelow(base, [], Front(route), i);
    }
  }
}
