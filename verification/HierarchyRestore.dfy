/** Rebuilding znodes from a backup (process_znode_hierarchy.py: restore,
    get_znodes_list_from_archive, extract_znode_from_archive, visit_nodes_while_restoring).
    The order in which a directory lists its entries is arbitrary. */
module HierarchyRestore {
  import opened Bytes
  import opened Znodes
  import opened HierarchyBackup

  /** What the client asked ZooKeeper to change, and how that went. */
  datatype Call = Deleted(path: Path) | Created(path: Path) | Refused(path: Path)

  class ZkClient {
    var tree: Tree
    ghost var calls: seq<Call>

    constructor (t: Tree)
      ensures tree == t && calls == []
    {
      tree, calls := t, [];
    }

    /** delete(path, recursive=True) of an existing znode. */
    method Delete(p: Path)
      requires p in tree
      modifies this
      ensures forall x :: Lookup(tree, x) == if p <= x then None else Lookup(old(tree), x)
      ensures calls == old(calls) + [Deleted(p)]
    {
      tree := map x | x in tree && !(p <= x) :: tree[x];
      calls := calls + [Deleted(p)];
    }

    predicate CanCreate(p: Path)
      reads this
    {
      p != [] && p !in tree && Parent(p) in tree && !tree[Parent(p)].ephemeral
    }

    /** create(path, value): refused when the znode exists or has no parent to live under. */
    method Create(p: Path, value: seq<Byte>) returns (ok: bool)
      modifies this
      ensures ok == old(CanCreate(p))
      ensures tree == if ok then old(tree)[p := Znode(value, false)] else old(tree)
      ensures calls == old(calls) + [if ok then Created(p) else Refused(p)]
    {
      ok := CanCreate(p);
      if ok {
        tree := tree[p := Znode(value, false)];
      }
      calls := calls + [if ok then Created(p) else Refused(p)];
    }
  }

  // ---------- the walk ----------

  function Subdirs(f: Files, p: Path): set<Name> {
    set q | q in f && |q| == |p| + 1 && p <= q && f[q].Dir? :: q[|p|]
  }

  lemma SubdirsAre(f: Files, p: Path, n: Name)
    ensures n in Subdirs(f, p) <==> Lookup(f, p + [n]) == Some(Dir)
  {
    if Lookup(f, p + [n]) == Some(Dir) {
      assert (p + [n])[|p|] == n;
    }
    if n in Subdirs(f, p) {
      var q :| q in f && |q| == |p| + 1 && p <= q && f[q].Dir? && q[|p|] == n;
      assert q == p + [n];
    }
  }

  /** The part below `dir` is what the directories say; nothing else has changed. */
  ghost predicate SubtreeRestored(f: Files, t: Tree, u: Tree, dir: Path) {
    forall x :: Lookup(u, x) == if dir <= x then Restored(f, x) else Lookup(t, x)
  }

  /** As SubtreeRestored, with nothing yet below the subdirectories in `todo`. */
  ghost predicate PartlyRestored(f: Files, t: Tree, u: Tree, dir: Path, todo: set<Name>) {
    forall x :: Lookup(u, x) == if Beside(dir, todo, x) then Restored(f, x)
                                else if dir <= x then None
                                else Lookup(t, x)
  }

  ghost function Creates(paths: seq<Path>): (calls: seq<Call>)
    ensures |calls| == |paths|
    ensures forall i :: 0 <= i < |paths| ==> calls[i] == Created(paths[i])
  {
    if paths == [] then [] else Creates(paths[..|paths| - 1]) + [Created(LastPath(paths))]
  }

  ghost function LastPath(paths: seq<Path>): Path
    requires paths != []
  {
    paths[|paths| - 1]
  }

  lemma CreatesConcat(a: seq<Path>, b: seq<Path>)
    ensures Creates(a + b) == Creates(a) + Creates(b)
  {}

  ghost predicate Distinct(made: seq<Path>) {
    forall i, j :: 0 <= i < j < |made| ==> made[i] != made[j]
  }

  ghost predicate Lists(f: Files, dir: Path, todo: set<Name>, made: seq<Path>) {
    forall x :: x in made <==> Beside(dir, todo, x) && Lookup(f, x) == Some(Dir)
  }

  ghost predicate ParentsFirst(dir: Path, made: seq<Path>) {
    forall i :: 0 <= i < |made| ==> made[i] == dir || ParentMade(made, i)
  }

  ghost predicate ParentMade(made: seq<Path>, i: nat)
    requires i < |made|
  {
    made[i] != [] && Parent(made[i]) in made[..i]
  }

  /** `made` lists `dir` and every directory below it (except below `todo`) once, each after
      its parent. */
  ghost predicate TopDown(f: Files, dir: Path, todo: set<Name>, made: seq<Path>) {
    Distinct(made) && Lists(f, dir, todo, made) && ParentsFirst(dir, made)
  }

  /** Below a directory but below no subdirectory there is no directory. */
  lemma {:induction false} BelowASubdir(f: Files, dir: Path, x: Path)
    requires Nested(f) && dir != [] && dir <= x && x != dir && Lookup(f, x) == Some(Dir)
    ensures !Beside(dir, Subdirs(f, dir), x)
    decreases |x|
  {
    if |x| == |dir| + 1 {
      assert x == dir + [x[|dir|]];
      SubdirsAre(f, dir, x[|dir|]);
    } else {
      BelowASubdir(f, dir, Parent(x));
    }
  }

  lemma WalkStarts(f: Files, t: Tree, u: Tree, dir: Path)
    requires Nested(f) && dir != [] && Lookup(f, dir) == Some(Dir)
    requires forall x :: Lookup(u, x) == if x == dir then Restored(f, dir)
                                         else if dir <= x then None else Lookup(t, x)
    ensures PartlyRestored(f, t, u, dir, Subdirs(f, dir))
    ensures TopDown(f, dir, Subdirs(f, dir), [dir])
  {
    forall x | Beside(dir, Subdirs(f, dir), x) && x != dir ensures Lookup(f, x) != Some(Dir) {
      if Lookup(f, x) == Some(Dir) { BelowASubdir(f, dir, x); }
    }
  }

  lemma ChildRestored(f: Files, t: Tree, u: Tree, v: Tree, dir: Path, todo: set<Name>, n: Name)
    requires PartlyRestored(f, t, u, dir, todo) && n in todo
    requires SubtreeRestored(f, u, v, dir + [n])
    ensures PartlyRestored(f, t, v, dir, todo - {n})
  {
    forall x
      ensures Lookup(v, x) == if Beside(dir, todo - {n}, x) then Restored(f, x)
                              else if dir <= x then None
                              else Lookup(t, x)
    {
      BelowChild(dir, n, x);
    }
  }

  lemma ListsStep(f: Files, dir: Path, todo: set<Name>, made: seq<Path>, n: Name, more: seq<Path>)
    requires Lists(f, dir, todo, made) && n in todo && Lists(f, dir + [n], {}, more)
    ensures Lists(f, dir, todo - {n}, made + more)
    ensures forall x :: x in more ==> x !in made
  {
    forall x
      ensures x in made + more <==> Beside(dir, todo - {n}, x) && Lookup(f, x) == Some(Dir)
      ensures x in more ==> x !in made
    {
      BelowChild(dir, n, x);
      assert x in made + more <==> x in made || x in more;
    }
  }

  lemma ParentsFirstStep(dir: Path, made: seq<Path>, n: Name, more: seq<Path>)
    requires ParentsFirst(dir, made) && dir in made && ParentsFirst(dir + [n], more)
    ensures ParentsFirst(dir, made + more)
  {
    var all := made + more;
    forall i | 0 <= i < |all| ensures all[i] == dir || ParentMade(all, i) {
      if i < |made| {
        assert made[i] == dir || ParentMade(made, i);
        assert all[..i] == made[..i];
      } else {
        var k := i - |made|;
        assert more[k] == dir + [n] || ParentMade(more, k);
        assert all[..i] == made + more[..k];
        assert Parent(dir + [n]) == dir;
      }
    }
  }

  lemma TopDownStep(f: Files, dir: Path, todo: set<Name>, made: seq<Path>, n: Name, more: seq<Path>)
    requires TopDown(f, dir, todo, made) && n in todo && Lookup(f, dir) == Some(Dir)
    requires TopDown(f, dir + [n], {}, more)
    ensures TopDown(f, dir, todo - {n}, made + more)
  {
    ListsStep(f, dir, todo, made, n, more);
    assert Beside(dir, todo, dir);
    ParentsFirstStep(dir, made, n, more);
    hide Lists, ParentsFirst;
    var all := made + more;
    forall i, j | 0 <= i < j < |all| ensures all[i] != all[j] {
      if i < |made| <= j {
        assert more[j - |made|] in more;
      }
    }
  }

  /** The body of the loop for one directory: replace whatever is at its znode. */
  method RestoreNode(zk: ZkClient, f: Files, dir: Path) returns (ok: bool)
    requires dir != [] && Lookup(f, dir) == Some(Dir)
    requires Parent(dir) in zk.tree && !zk.tree[Parent(dir)].ephemeral
    requires dir !in zk.tree ==> forall x :: dir <= x ==> x !in zk.tree
    modifies zk
    ensures ok
    ensures forall x :: Lookup(zk.tree, x) == if x == dir then Restored(f, dir)
                                              else if dir <= x then None
                                              else Lookup(old(zk.tree), x)
    ensures zk.calls == old(zk.calls) + (if dir in old(zk.tree) then [Deleted(dir)] else []) + [Created(dir)]
  {
    hide StoredValue;
    assert !(dir <= Parent(dir));
    if dir in zk.tree {
      zk.Delete(dir);
      assert Lookup(zk.tree, Parent(dir)) == Lookup(old(zk.tree), Parent(dir));
      assert Lookup(zk.tree, dir).None?;
    }
    ghost var t := zk.tree;
    assert forall x :: Lookup(t, x) == if dir <= x then None else Lookup(old(zk.tree), x);
    ok := zk.Create(dir, StoredValue(f, dir));
    assert forall x :: Lookup(zk.tree, x) == if x == dir then Restored(f, dir) else Lookup(t, x);
  }

  /** os.walk from `dir`: the first directory may replace what is there, all others are
      created below it. */
  method Walk(zk: ZkClient, f: Files, dir: Path) returns (restored: nat, ghost made: seq<Path>)
    requires Nested(f) && dir != [] && Lookup(f, dir) == Some(Dir)
    requires Parent(dir) in zk.tree && !zk.tree[Parent(dir)].ephemeral
    requires dir !in zk.tree ==> forall x :: dir <= x ==> x !in zk.tree
    modifies zk
    ensures SubtreeRestored(f, old(zk.tree), zk.tree, dir)
    ensures zk.calls == old(zk.calls) + (if dir in old(zk.tree) then [Deleted(dir)] else []) + Creates(made)
    ensures TopDown(f, dir, {}, made) && restored == |made|
    decreases Below(f, dir)
  {
    hide Restored, TopDown, Creates;
    ghost var t := zk.tree;
    ghost var before := zk.calls + if dir in zk.tree then [Deleted(dir)] else [];
    var ok := RestoreNode(zk, f, dir);
    restored, made := 0, [dir];
    if ok {
      restored := restored + 1;
    }
    WalkFirst(f, t, zk.tree, dir, before);
    var todo := Subdirs(f, dir);
    while todo != {}
      invariant todo <= Subdirs(f, dir)
      invariant PartlyRestored(f, t, zk.tree, dir, todo)
      invariant TopDown(f, dir, todo, made) && restored == |made|
      invariant zk.calls == before + Creates(made)
      decreases todo
    {
      var n :| n in todo;
      ghost var u, calls := zk.tree, zk.calls;
      SubdirsAre(f, dir, n);
      ChildIsBelow(f, dir, n);
      ChildFree(f, t, u, dir, todo, n);
      var k, more := Walk(zk, f, dir + [n]);
      ChildRestored(f, t, u, zk.tree, dir, todo, n);
      TopDownStep(f, dir, todo, made, n, more);
      CreatesConcat(made, more);
      assert calls + [] + Creates(more) == before + (Creates(made) + Creates(more));
      restored, made := restored + k, made + more;
      todo := todo - {n};
    }
    assert forall x :: dir <= x ==> Beside(dir, {}, x);
  }

  lemma WalkFirst(f: Files, t: Tree, u: Tree, dir: Path, before: seq<Call>)
    requires Nested(f) && dir != [] && Lookup(f, dir) == Some(Dir)
    requires forall x :: Lookup(u, x) == if x == dir then Restored(f, dir)
                                         else if dir <= x then None else Lookup(t, x)
    ensures PartlyRestored(f, t, u, dir, Subdirs(f, dir))
    ensures TopDown(f, dir, Subdirs(f, dir), [dir])
    ensures before + [Created(dir)] == before + Creates([dir])
  {
    WalkStarts(f, t, u, dir);
    assert Creates([dir]) == [Created(dir)];
  }

  lemma ChildFree(f: Files, t: Tree, u: Tree, dir: Path, todo: set<Name>, n: Name)
    requires PartlyRestored(f, t, u, dir, todo) && n in todo && Lookup(f, dir) == Some(Dir)
    ensures Parent(dir + [n]) in u && !u[Parent(dir + [n])].ephemeral
    ensures forall x :: dir + [n] <= x ==> x !in u
  {
    assert Parent(dir + [n]) == dir && Beside(dir, todo, dir);
    assert Lookup(u, dir) == Restored(f, dir);
    forall x | dir + [n] <= x ensures x !in u {
      BelowChild(dir, n, x);
      assert Lookup(u, x).None?;
    }
  }

  /** visit_nodes_while_restoring of a top-level znode: nothing happens unless its directory
      is there. */
  method VisitNodesWhileRestoring(zk: ZkClient, f: Files, node: Name)
    returns (restored: nat, ghost made: seq<Path>)
    requires Nested(f) && ValidTree(zk.tree)
    modifies zk
    ensures if Lookup(f, [node]) == Some(Dir)
            then SubtreeRestored(f, old(zk.tree), zk.tree, [node]) && TopDown(f, [node], {}, made)
            else zk.tree == old(zk.tree) && made == []
    ensures restored == |made|
    ensures zk.calls == old(zk.calls) +
                        (if made != [] && [node] in old(zk.tree) then [Deleted([node])] else []) +
                        Creates(made)
  {
    made := [];
    if Lookup(f, [node]) == Some(Dir) {
      assert Parent([node]) == [];
      forall x | [node] <= x && x in zk.tree ensures [node] in zk.tree {
        AboveInTree(zk.tree, x, 1);
        assert x[..1] == [node];
      }
      restored, made := Walk(zk, f, [node]);
      assert Beside([node], {}, [node]);
      assert [node] in made;
    } else {
      assert zk.calls == zk.calls + [] + [];
      return 0, [];
    }
  }

  // ---------- extraction ----------

  /** What is in the folder after extracting the znodes in `done`. */
  ghost predicate Unpacked(archive: Files, f: Files, done: set<Name>) {
    forall x :: x != [] ==> Lookup(f, x) == if x[0] in done then Lookup(Extracted(archive), x) else None
  }

  /** All entries below `z`, except those in `left`, have been extracted: they are in place
      with their parents, and nothing is there that the archive does not hold. */
  ghost predicate Extracting(archive: Files, f: Files, g: Files, z: Name, left: set<Path>) {
    && (forall x :: x != [] && x[0] != z ==> Lookup(g, x) == Lookup(f, x))
    && (forall x :: x != [] && x[0] == z ==> Lookup(g, x).None? || Lookup(g, x) == Lookup(archive, x))
    && (forall x :: x in archive && |x| > 1 && x[0] == z && x !in left ==> x in g && [z] in g)
    && ([z] in g ==> HasBelow(archive, z))
  }

  lemma {:induction false} DirAbove(f: Files, p: Path, i: nat)
    requires Nested(f) && p in f && 0 < i < |p|
    ensures Lookup(f, p[..i]) == Some(Dir)
    decreases |p|
  {
    if i < |p| - 1 {
      DirAbove(f, Parent(p), i);
      assert Parent(p)[..i] == p[..i];
    }
  }

  /** archive.extract of one entry makes the missing directories above it. */
  function ExtractEntry(archive: Files, g: Files, p: Path): Files
    requires p in archive && p != []
  {
    MakeDirs(g, Parent(p))[p := archive[p]]
  }

  lemma ExtractAt(archive: Files, g: Files, p: Path, x: Path)
    requires Nested(archive) && p in archive && |p| > 1 && x != []
    ensures var h := ExtractEntry(archive, g, p);
            && (x[0] != p[0] ==> Lookup(h, x) == Lookup(g, x))
            && (Lookup(h, x) == Lookup(g, x) || Lookup(h, x) == Lookup(archive, x))
            && (x in g || x == p || x == [p[0]] ==> x in h)
            && Lookup(h, p) == Lookup(archive, p)
  {
    if x in Prefixes(Parent(p)) {
      var i :| 0 <= i <= |Parent(p)| && x == Parent(p)[..i];
      assert x == p[..i];
      DirAbove(archive, p, i);
    }
    if x == [p[0]] {
      assert Parent(p)[..1] == x && Parent(p)[..1] in Prefixes(Parent(p));
    }
  }

  lemma ExtractOne(archive: Files, f: Files, g: Files, z: Name, left: set<Path>, p: Path)
    requires Nested(archive) && Extracting(archive, f, g, z, left)
    requires p in archive && |p| > 1 && p[0] == z
    ensures Extracting(archive, f, ExtractEntry(archive, g, p), z, left - {p})
  {
    hide ExtractEntry;
    var h := ExtractEntry(archive, g, p);
    ExtractAt(archive, g, p, [z]);
    forall x | x != []
      ensures x[0] != z ==> Lookup(h, x) == Lookup(f, x)
      ensures x[0] == z ==> Lookup(h, x).None? || Lookup(h, x) == Lookup(archive, x)
      ensures x in archive && |x| > 1 && x[0] == z && x !in left - {p} ==> x in h
    {
      ExtractAt(archive, g, p, x);
    }
  }

  /** extract_znode_from_archive */
  method ExtractZnode(archive: Files, f: Files, z: Name, ghost done: set<Name>) returns (g: Files)
    requires Nested(archive) && Unpacked(archive, f, done)
    ensures Unpacked(archive, g, done + {z})
  {
    g := f;
    var todo := set p | p in archive && |p| > 1 && p[0] == z;
    ghost var all := todo;
    ExtractStarts(archive, f, z, done);
    while todo != {}
      invariant todo <= all
      invariant Extracting(archive, f, g, z, todo)
      decreases todo
    {
      var p :| p in todo;
      ExtractOne(archive, f, g, z, todo, p);
      g := ExtractEntry(archive, g, p);
      todo := todo - {p};
    }
    ExtractDone(archive, f, g, z, done);
  }

  ghost function EntriesBelow(archive: Files, z: Name): set<Path> {
    set p | p in archive && |p| > 1 && p[0] == z
  }

  lemma ExtractStarts(archive: Files, f: Files, z: Name, done: set<Name>)
    requires Unpacked(archive, f, done)
    ensures Extracting(archive, f, f, z, EntriesBelow(archive, z))
  {
    forall x | x != [] && x[0] == z
      ensures Lookup(f, x).None? || Lookup(f, x) == Lookup(archive, x)
    {
      assert Lookup(f, x) == if x[0] in done then Lookup(Extracted(archive), x) else None;
    }
    assert Lookup(f, [z]) == if z in done then Lookup(Extracted(archive), [z]) else None;
  }

  lemma ExtractDone(archive: Files, f: Files, g: Files, z: Name, done: set<Name>)
    requires Unpacked(archive, f, done) && Extracting(archive, f, g, z, {})
    ensures Unpacked(archive, g, done + {z})
  {
    forall x | x != []
      ensures Lookup(g, x) == if x[0] in done + {z} then Lookup(Extracted(archive), x) else None
    {
      if x[0] == z {
        if HasBelow(archive, z) {
          var p :| p in archive && |p| > 1 && p[0] == z;
          assert [z] in g;
        }
        if |x| == 1 { assert x == [z]; }
        assert Lookup(g, x).None? || Lookup(g, x) == Lookup(archive, x);
      }
    }
  }

  // ---------- restore ----------

  /** A backup folder: the archive, or the directories themselves in old backups. */
  datatype Saved = Zip(archive: Files) | Plain(files: Files)

  /** get_znodes_list_from_archive: removing an absent "zookeeper" raises. */
  method GetZnodesList(archive: Files) returns (names: Option<seq<Name>>)
    ensures names.None? <==> ZOOKEEPER !in Tops(archive)
    ensures names.Some? ==> NamesOf(names.value) == Tops(archive) - {ZOOKEEPER}
  {
    var todo := set p | p in archive && |p| == 1 && archive[p].Dir?;
    ghost var all := todo;
    var list: seq<Name>, found := [], false;
    while todo != {}
      invariant todo <= all
      invariant found <==> [ZOOKEEPER] in all - todo
      invariant forall n :: n in NamesOf(list) <==> n != ZOOKEEPER && [n] in all - todo
      decreases todo
    {
      var p :| p in todo;
      assert p == [p[0]];
      todo := todo - {p};
      if p[0] == ZOOKEEPER {
        found := true;
      } else {
        assert (list + [p[0]])[..|list|] == list;
        assert (list + [p[0]])[..|list| + 1] == list + [p[0]];
        NamesOfNext(list + [p[0]], |list|);
        list := list + [p[0]];
      }
    }
    assert forall n :: [n] in all <==> n in Tops(archive);
    if !found {
      return None;
    }
    return Some(list);
  }

  /** The live tree after the walks of `done`. */
  lemma WalkedStep(live: Tree, f: Files, view: Files, t: Tree, u: Tree, done: set<Name>, n: Name)
    requires t == RestoreTree(live, view, done)
    requires forall x :: x != [] && x[0] == n ==> Lookup(f, x) == Lookup(view, x)
    requires if Lookup(f, [n]) == Some(Dir) then SubtreeRestored(f, t, u, [n]) else u == t
    ensures u == RestoreTree(live, view, done + {n})
  {
    var v := RestoreTree(live, view, done + {n});
    forall x ensures Lookup(u, x) == Lookup(v, x) {
      RestoreLookup(live, view, done, x);
      RestoreLookup(live, view, done + {n}, x);
      BelowChild([], n, x);
      assert [] + [n] == [n];
      if x != [] && x[0] == n {
        assert (x + [CONTENT])[0] == n;
        assert Lookup(f, x + [CONTENT]) == Lookup(view, x + [CONTENT]);
        assert [n][0] == n;
        assert Lookup(f, [n]) == Lookup(view, [n]);
        assert Restored(f, x) == Restored(view, x);
      }
    }
    SameLookups(u, v);
  }

  lemma RestoredIsValid(live: Tree, f: Files, nodes: set<Name>)
    requires ValidTree(live) && Nested(f)
    ensures ValidTree(RestoreTree(live, f, nodes))
  {
    var t := RestoreTree(live, f, nodes);
    RestoreLookup(live, f, nodes, []);
    assert Lookup(t, []) == Lookup(live, []);
    forall p | p in t && p != [] ensures Parent(p) in t && !t[Parent(p)].ephemeral {
      RestoreLookup(live, f, nodes, p);
      RestoreLookup(live, f, nodes, Parent(p));
      if |p| == 1 {
        assert Parent(p) == [];
      } else {
        assert Parent(p)[0] == p[0];
        assert Rebuilt(f, nodes, p) == Rebuilt(f, nodes, Parent(p));
      }
      assert Lookup(t, Parent(p)).Some?;
    }
  }

  ghost function ViewOf(saved: Saved): Files {
    if saved.Zip? then Extracted(saved.archive) else saved.files
  }

  lemma ExtractedNested(archive: Files)
    requires Nested(archive)
    ensures Nested(Extracted(archive))
  {
    var e := Extracted(archive);
    forall p | p in e && |p| > 1 ensures Lookup(e, Parent(p)) == Some(Dir) {
      assert Parent(p)[0] == p[0];
    }
  }

  /** What is extracted so far answers a walk as the whole extraction would. */
  lemma UnpackedNested(archive: Files, f: Files, done: set<Name>)
    requires Nested(archive) && Unpacked(archive, f, done)
    ensures Nested(f)
  {
    ExtractedNested(archive);
    forall p | p in f && |p| > 1 ensures Lookup(f, Parent(p)) == Some(Dir) {
      assert Parent(p)[0] == p[0];
      assert Lookup(f, p) == Lookup(Extracted(archive), p);
      assert Lookup(f, Parent(p)) == Lookup(Extracted(archive), Parent(p));
    }
  }

  /** The znodes a restore is asked for, or None when it raises. */
  ghost function Selected(saved: Saved, nodes: seq<Name>): Option<set<Name>> {
    if nodes != [] then Some(NamesOf(nodes))
    else if saved.Plain? || ZOOKEEPER !in Tops(saved.archive) then None
    else Some(Tops(saved.archive) - {ZOOKEEPER})
  }

  /** restore */
  method Restore(zk: ZkClient, saved: Saved, nodes: seq<Name>) returns (ok: bool)
    requires ValidTree(zk.tree) && Nested(if saved.Zip? then saved.archive else saved.files)
    modifies zk
    ensures ok <==> Selected(saved, nodes).Some?
    ensures nodes != [] ==> ok
    ensures nodes == [] ==> (ok <==> saved.Zip? && Lookup(saved.archive, ["zookeeper"]) == Some(Dir))
    ensures zk.tree == if ok then RestoreTree(old(zk.tree), ViewOf(saved), Selected(saved, nodes).value)
                       else old(zk.tree)
  {
    hide RestoreTree, Extracted, SubtreeRestored, Nested, TopDown;
    var list := nodes;
    if nodes == [] {
      if saved.Plain? {
        return false;
      }
      var names := GetZnodesList(saved.archive);
      if names.None? {
        return false;
      }
      list := names.value;
    }
    ghost var live, view, done := zk.tree, ViewOf(saved), {};
    ViewNested(saved);
    RestoreNothing(live, view);
    var folder: Files := map[];
    for k := 0 to |list|
      invariant done == NamesOf(list[..k])
      invariant saved.Zip? ==> Unpacked(saved.archive, folder, done)
      invariant zk.tree == RestoreTree(live, view, done)
    {
      var n := list[k];
      RestoredIsValid(live, view, done);
      ghost var t := zk.tree;
      if saved.Zip? {
        folder := ExtractZnode(saved.archive, folder, n, done);
        UnpackedNested(saved.archive, folder, done + {n});
        var count, made := VisitNodesWhileRestoring(zk, folder, n);
        WalkedStep(live, folder, view, t, zk.tree, done, n);
      } else {
        var count, made := VisitNodesWhileRestoring(zk, saved.files, n);
        WalkedStep(live, saved.files, view, t, zk.tree, done, n);
      }
      NamesOfNext(list, k);
      done := done + {n};
    }
    assert list[..|list|] == list;
    return true;
  }

  lemma ViewNested(saved: Saved)
    requires Nested(if saved.Zip? then saved.archive else saved.files)
    ensures Nested(ViewOf(saved))
  {
    if saved.Zip? { ExtractedNested(saved.archive); }
  }

  lemma RestoreNothing(live: Tree, f: Files)
    ensures RestoreTree(live, f, {}) == live
  {
    forall x ensures Lookup(RestoreTree(live, f, {}), x) == Lookup(live, x) {
      RestoreLookup(live, f, {}, x);
    }
    SameLookups(RestoreTree(live, f, {}), live);
  }
}
