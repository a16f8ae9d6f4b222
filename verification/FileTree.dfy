/**
 A directory tree as `mkdir` and `open` see it, links aside: every path is a list of components from the
 root. A list of requests is carried out in order and stops at the first one that cannot be met.
 */
module FileTree {
  import opened Wrappers

  type Path = seq<string>

  datatype Node = Dir | File(bytes: string)

  type Tree = map<Path, Node>

  function At(t: Tree, q: Path): Option<Node> {
    if q in t then Some(t[q]) else None
  }

  predicate IsDir(t: Tree, q: Path) {
    At(t, q) == Some(Dir)
  }

  predicate IsFile(t: Tree, q: Path) {
    q in t && t[q].File?
  }

  /** A directory that has to be there, a file to be written, or something no system call accepts. */
  datatype Op = MakeDir(path: Path) | WriteFile(path: Path, bytes: string) | Refuse

  datatype Performed = Performed(tree: Tree, ok: bool)

  function Do(t: Tree, op: Op): Performed {
    match op
    case MakeDir(q) => if q in t then Performed(t, t[q].Dir?) else Performed(t[q := Dir], true)
    case WriteFile(q, bytes) => if IsDir(t, q) then Performed(t, false) else Performed(t[q := File(bytes)], true)
    case Refuse => Performed(t, false)
  }

  function Perform(t: Tree, ops: seq<Op>): Performed {
    if ops == [] then Performed(t, true)
    else
      var before := Perform(t, ops[..|ops| - 1]);
      if before.ok then Do(before.tree, ops[|ops| - 1]) else before
  }

  lemma {:induction false} PerformAppend(t: Tree, a: seq<Op>, b: seq<Op>)
    ensures Perform(t, a + b) == if Perform(t, a).ok then Perform(Perform(t, a).tree, b) else Perform(t, a)
    decreases |b|
  {
    if b == [] {
      assert a + b == a;
    } else {
      var n := |b| - 1;
      PerformAppend(t, a, b[..n]);
      assert (a + b)[..|a + b| - 1] == a + b[..n];
    }
  }

  lemma PerformOne(t: Tree, op: Op)
    ensures Perform(t, [op]) == Do(t, op)
  {
    assert [op][..0] == [];
  }

  // ---------------------------------------------------------------- What a list of requests comes to

  /** The bytes of the last write to a path. */
  function LastWrite(ops: seq<Op>, q: Path): Option<string> {
    if ops == [] then None
    else
      var last := ops[|ops| - 1];
      if last.WriteFile? && last.path == q then Some(last.bytes) else LastWrite(ops[..|ops| - 1], q)
  }

  predicate Writes(ops: seq<Op>, q: Path) {
    LastWrite(ops, q).Some?
  }

  /** What one of the requests needs of the tree and of the others. */
  predicate Fits(t: Tree, ops: seq<Op>, op: Op) {
    match op
    case MakeDir(q) => !IsFile(t, q) && !Writes(ops, q)
    case WriteFile(q, _) => !IsDir(t, q)
    case Refuse => false
  }

  /** No path is wanted both as a directory and as a file, by two requests or by one and the tree. */
  predicate Consistent(t: Tree, ops: seq<Op>) {
    forall op :: op in ops ==> Fits(t, ops, op)
  }

  /** What is at a path once the requests are met. */
  function After(t: Tree, ops: seq<Op>, q: Path): Option<Node> {
    if Writes(ops, q) then Some(File(LastWrite(ops, q).value))
    else if MakeDir(q) in ops then Some(Dir)
    else At(t, q)
  }

  lemma {:induction false} WritesMember(ops: seq<Op>, q: Path)
    ensures Writes(ops, q) <==> exists op :: op in ops && op.WriteFile? && op.path == q
  {
    if ops != [] {
      var n := |ops| - 1;
      WritesMember(ops[..n], q);
      assert ops == ops[..n] + [ops[n]];
    }
  }

  lemma ConsistentSnoc(t: Tree, ops: seq<Op>, op: Op)
    ensures Consistent(t, ops + [op]) <==>
      && Consistent(t, ops) && Fits(t, ops, op) && (op.WriteFile? ==> MakeDir(op.path) !in ops)
  {
    var all := ops + [op];
    assert all[..|all| - 1] == ops;
    forall o | o in ops && o.MakeDir?
      ensures Writes(all, o.path) <==> Writes(ops, o.path) || (op.WriteFile? && op.path == o.path) {}
    assert op in all && forall o :: o in ops ==> o in all;
    assert op.WriteFile? ==> !Fits(t, all, MakeDir(op.path));
    if Consistent(t, all) {
      forall o | o in ops ensures Fits(t, ops, o) { assert Fits(t, all, o); }
      assert Fits(t, all, op);
    }
    if Consistent(t, ops) && Fits(t, ops, op) && (op.WriteFile? ==> MakeDir(op.path) !in ops) {
      forall o | o in all ensures Fits(t, all, o) {
        if o in ops { assert Fits(t, ops, o); }
      }
    }
  }

  /** Whether one more request can be met, and what it changes. */
  lemma LastFits(t: Tree, ops: seq<Op>, s: Tree, op: Op)
    requires Consistent(t, ops) && !op.Refuse? && forall q :: At(s, q) == After(t, ops, q)
    ensures Do(s, op).ok <==> Fits(t, ops, op) && (op.WriteFile? ==> MakeDir(op.path) !in ops)
    ensures Do(s, op).ok ==> forall q :: At(Do(s, op).tree, q) == After(t, ops + [op], q)
  {
    var all := ops + [op];
    assert all[..|all| - 1] == ops;
    assert At(s, op.path) == After(t, ops, op.path);
    if MakeDir(op.path) in ops { assert Fits(t, ops, MakeDir(op.path)); }
    WritesMember(ops, op.path);
    if Writes(ops, op.path) {
      var w :| w in ops && w.WriteFile? && w.path == op.path;
      assert Fits(t, ops, w);
    }
    hide Consistent;
    if Do(s, op).ok {
      forall q ensures At(Do(s, op).tree, q) == After(t, all, q) {
        assert At(s, q) == After(t, ops, q);
        assert MakeDir(q) in all <==> MakeDir(q) in ops || op == MakeDir(q);
      }
    }
  }

  /** The requests are all met exactly when they are consistent, and then every path is as they leave it. */
  lemma {:induction false} PerformExact(t: Tree, ops: seq<Op>)
    ensures Perform(t, ops).ok <==> Consistent(t, ops)
    ensures Perform(t, ops).ok ==> forall q :: At(Perform(t, ops).tree, q) == After(t, ops, q)
  {
    if ops != [] {
      var n := |ops| - 1;
      PerformExact(t, ops[..n]);
      ConsistentSnoc(t, ops[..n], ops[n]);
      assert ops == ops[..n] + [ops[n]];
      if Perform(t, ops[..n]).ok && !ops[n].Refuse? {
        LastFits(t, ops[..n], Perform(t, ops[..n]).tree, ops[n]);
      }
      hide Consistent;
    }
  }

  /** The requests met before the first that is not. */
  function Met(t: Tree, ops: seq<Op>): (m: seq<Op>)
    ensures m <= ops
  {
    if Perform(t, ops).ok then ops else Met(t, ops[..|ops| - 1])
  }

  lemma {:induction false} MetExact(t: Tree, ops: seq<Op>)
    ensures Perform(t, Met(t, ops)).ok && Perform(t, Met(t, ops)).tree == Perform(t, ops).tree
    ensures Perform(t, ops).ok <==> Met(t, ops) == ops
  {
    if !Perform(t, ops).ok { MetExact(t, ops[..|ops| - 1]); }
  }

  // ---------------------------------------------------------------- Subtrees

  /** What lies outside a directory. */
  function Outside(t: Tree, at: Path): Tree {
    map q | q in t && !(at <= q) :: t[q]
  }

  predicate Inside(at: Path, op: Op) {
    op.Refuse? || at <= op.path
  }

  /** A request that changes nothing in the end: the directory was there, or the file with the bytes last written. */
  predicate Idle(t: Tree, ops: seq<Op>, op: Op) {
    !op.Refuse? && At(t, op.path) == After(t, ops, op.path)
  }

  /** Whatever stops the requests: nothing outside `at` changes exactly when those met stay inside or are idle. */
  lemma OutsideExact(t: Tree, ops: seq<Op>, at: Path)
    ensures Outside(Perform(t, ops).tree, at) == Outside(t, at)
       <==> forall op :: op in Met(t, ops) ==> Inside(at, op) || Idle(t, Met(t, ops), op)
  {
    var met := Met(t, ops);
    var s := Perform(t, ops).tree;
    MetExact(t, ops);
    PerformExact(t, met);
    hide Perform, Met, Consistent;
    if forall op :: op in met ==> Inside(at, op) || Idle(t, met, op) {
      forall q | !(at <= q) ensures At(s, q) == At(t, q) {
        WritesMember(met, q);
        if Writes(met, q) {
          var op :| op in met && op.WriteFile? && op.path == q;
          assert Idle(t, met, op);
        } else if MakeDir(q) in met {
          assert Idle(t, met, MakeDir(q));
        }
      }
      SameOutside(s, t, at);
    }
    if Outside(s, at) == Outside(t, at) {
      forall op | op in met && !Inside(at, op) ensures Idle(t, met, op) {
        assert At(Outside(s, at), op.path) == At(s, op.path) && At(Outside(t, at), op.path) == At(t, op.path);
      }
    }
  }

  lemma SameOutside(s: Tree, t: Tree, at: Path)
    requires forall q :: !(at <= q) ==> At(s, q) == At(t, q)
    ensures Outside(s, at) == Outside(t, at)
  {
    var a, b := Outside(s, at), Outside(t, at);
    forall q ensures At(a, q) == At(b, q) {
      if !(at <= q) { assert At(s, q) == At(t, q); }
    }
    SameTree(a, b);
  }

  lemma SameTree(s: Tree, t: Tree)
    requires forall q :: At(s, q) == At(t, q)
    ensures s == t
  {
    forall q | q in s ensures q in t && t[q] == s[q] { assert At(s, q) == At(t, q); }
    forall q | q in t ensures q in s { assert At(s, q) == At(t, q); }
  }
}
