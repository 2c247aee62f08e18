/** What a hierarchical backup followed by a restore does to the live tree. */
module HierarchyRoundTrip {
  import opened Bytes
  import opened TextLines
  import opened Znodes
  import opened HierarchyBackup
  import opened HierarchyRestore

  /** The persistent part of a tree, with line ends normalised. */
  ghost function Normalised(t: Tree, p: Path): Option<Znode> {
    if Persistent(t, p) then Some(Znode(Normalise(t[p].value), false)) else None
  }

  ghost function Exact(t: Tree, p: Path): Option<Znode> {
    if Persistent(t, p) then Some(t[p]) else None
  }

  /** A backup leaves something to extract for `n`: a value or a persistent child. */
  ghost predicate Worth(t: Tree, n: Name) {
    HasValue(t, [n]) || exists c :: Persistent(t, [n, c])
  }

  /** Below the top-level znodes in `nodes`, no persistent znode named "content" has a parent
      with a value. */
  ghost predicate NoClash(t: Tree, from: nat, nodes: set<Name>) {
    forall p :: Persistent(t, p) && p != [] && p[0] in nodes ==> !Shadowed(t, from, p)
  }

  // ---------- archives ----------

  /** An archive is a directory tree: what Restore asks of it. */
  lemma ArchiveNested(t: Tree, requested: set<Name>)
    requires ValidTree(t)
    ensures Nested(ArchiveOf(t, requested))
  {
    var a, from := ArchiveOf(t, requested), Start(requested);
    forall p | p in a && |p| > 1 ensures Lookup(a, Parent(p)) == Some(Dir) {
      ArchiveLookup(t, requested, p);
      ArchiveLookup(t, requested, Parent(p));
      assert Lookup(a, p).Some?;
      if Stored(t, from, p) {
        BlockedStep(t, from, p);
      }
    }
  }

  lemma UnblockedBelow(t: Tree, from: nat, nodes: set<Name>, p: Path)
    requires ValidTree(t) && NoClash(t, from, nodes)
    requires p != [] && p[0] in nodes && Persistent(t, p)
    ensures !Blocked(t, from, p)
  {
    forall i | from < i <= |p| ensures !Shadowed(t, from, p[..i]) {
      AboveInTree(t, p, i);
      assert p[..|p|] == p;
      assert Persistent(t, p[..i]) && p[..i][0] == p[0];
    }
  }

  /** A directory's value file gives back its znode's value, up to line ends. */
  lemma ValueComesBack(t: Tree, from: nat, f: Files, p: Path)
    requires Stored(t, from, p) && |p| >= from
    requires Lookup(f, p + [CONTENT]) == Image(t, from, p + [CONTENT])
    ensures StoredValue(f, p) == Normalise(t[p].value)
  {
    var c := p + [CONTENT];
    assert Parent(c) == p && Last(c) == CONTENT;
    BlockedStep(t, from, c);
  }

  lemma ComesBack(t: Tree, from: nat, f: Files, nodes: set<Name>, p: Path)
    requires ValidTree(t) && NoClash(t, from, nodes) && from <= 1
    requires p != [] && p[0] in nodes
    requires Lookup(f, p) == Image(t, from, p)
    requires Lookup(f, p + [CONTENT]) == Image(t, from, p + [CONTENT])
    ensures Restored(f, p) == Normalised(t, p)
  {
    hide StoredValue, Normalise, Blocked;
    if Persistent(t, p) {
      UnblockedBelow(t, from, nodes, p);
      ValueComesBack(t, from, f, p);
    }
  }

  /** Something is extracted for a persistent top-level znode exactly when it is worth it. */
  lemma ExtractedIffWorth(t: Tree, requested: set<Name>, n: Name)
    requires ValidTree(t) && Covered(requested, [n]) && Persistent(t, [n])
    requires NoClash(t, Start(requested), {n})
    ensures HasBelow(ArchiveOf(t, requested), n) <==> Worth(t, n)
  {
    var a, from := ArchiveOf(t, requested), Start(requested);
    if HasValue(t, [n]) {
      var c := [n, CONTENT];
      assert Parent(c) == [n];
      UnblockedBelow(t, from, {n}, [n]);
      ArchiveLookup(t, requested, c);
      assert IsValueFile(t, from, c) && c[0] == n;
    }
    forall c | Persistent(t, [n, c]) ensures HasBelow(a, n) {
      UnblockedBelow(t, from, {n}, [n, c]);
      ArchiveLookup(t, requested, [n, c]);
      assert [n, c][0] == n;
    }
    if HasBelow(a, n) {
      var p :| p in a && |p| > 1 && p[0] == n;
      ArchiveLookup(t, requested, p);
      WorthOfEntry(t, from, p);
    }
  }

  lemma WorthOfEntry(t: Tree, from: nat, p: Path)
    requires ValidTree(t) && |p| > 1 && Image(t, from, p).Some?
    ensures Worth(t, p[0])
  {
    var q := if Stored(t, from, p) then p else Parent(p);
    if |q| == 1 {
      assert q == [p[0]];
    } else {
      AboveInTree(t, q, 2);
      assert q[..|q|] == q;
      assert q[..2] == [p[0], p[1]] && Persistent(t, q[..2]);
    }
  }

  // ---------- the round trip ----------

  /** The lookup a walk makes in what was extracted. */
  lemma ExtractedLookup(t: Tree, requested: set<Name>, n: Name, p: Path)
    requires ValidTree(t) && Covered(requested, [n]) && Persistent(t, [n])
    requires NoClash(t, Start(requested), {n}) && p != [] && p[0] == n
    ensures Lookup(Extracted(ArchiveOf(t, requested)), p) ==
            if Worth(t, n) then Image(t, Start(requested), p) else None
  {
    hide ArchiveOf, Worth;
    ExtractedIffWorth(t, requested, n);
    ArchiveLookup(t, requested, p);
    assert Covered(requested, p);
  }

  /** A requested znode, restored: its persistent subtree exactly, if it was worth storing;
      else as it was. */
  lemma RestoredSubtree(t: Tree, requested: set<Name>, live: Tree, nodes: set<Name>, p: Path)
    requires ValidTree(t) && p != [] && p[0] in nodes
    requires Covered(requested, [p[0]]) && Persistent(t, [p[0]])
    requires NoClash(t, Start(requested), {p[0]})
    ensures Lookup(RestoreTree(live, Extracted(ArchiveOf(t, requested)), nodes), p) ==
            if Worth(t, p[0]) then Normalised(t, p) else Lookup(live, p)
  {
    hide ArchiveOf, Worth, RestoreTree, Extracted, Normalise, StoredValue;
    var n, from := p[0], Start(requested);
    var f := Extracted(ArchiveOf(t, requested));
    RestoreLookup(live, f, nodes, p);
    ExtractedLookup(t, requested, n, [n]);
    ExtractedLookup(t, requested, n, p);
    assert (p + [CONTENT])[0] == n;
    ExtractedLookup(t, requested, n, p + [CONTENT]);
    UnblockedBelow(t, from, {n}, [n]);
    if Worth(t, n) {
      ComesBack(t, from, f, {n}, p);
    }
  }

  /** Round trip: a backup then a restore of persistent top-level znodes, each with a value or
      a persistent child, rebuilds exactly their persistent subtrees, with CR and CR LF read
      as LF, and leaves every other live znode as it was. */
  lemma RoundTrip(t: Tree, requested: set<Name>, live: Tree, nodes: set<Name>)
    requires ValidTree(t)
    requires forall n :: n in nodes ==> Persistent(t, [n]) && Worth(t, n) && Covered(requested, [n])
    requires NoClash(t, Start(requested), nodes)
    ensures var after := RestoreTree(live, Extracted(ArchiveOf(t, requested)), nodes);
            forall p :: Lookup(after, p) ==
                        if p != [] && p[0] in nodes then Normalised(t, p) else Lookup(live, p)
  {
    var f := Extracted(ArchiveOf(t, requested));
    forall p ensures Lookup(RestoreTree(live, f, nodes), p) ==
                     if p != [] && p[0] in nodes then Normalised(t, p) else Lookup(live, p)
    {
      RestoreLookup(live, f, nodes, p);
      if p != [] && p[0] in nodes {
        RestoredSubtree(t, requested, live, nodes, p);
      }
    }
  }

  /** The same for one znode, byte by byte: it comes back persistent, with its lines, however they
      were ended, each ended by LF. */
  lemma RoundTripLines(t: Tree, requested: set<Name>, live: Tree, nodes: set<Name>, p: Path, lines: seq<Line>,
                       last: seq<Byte>)
    requires ValidTree(t)
    requires forall n :: n in nodes ==> Persistent(t, [n]) && Worth(t, n) && Covered(requested, [n])
    requires NoClash(t, Start(requested), nodes) && p != [] && p[0] in nodes && Persistent(t, p)
    requires AreLines(lines) && IsText(last) && t[p].value == Spelled(lines) + last
    ensures Lookup(RestoreTree(live, Extracted(ArchiveOf(t, requested)), nodes), p) ==
            Some(Znode(SpelledWithLF(lines) + last, false))
  {
    hide RestoreTree, Extracted, ArchiveOf, Normalise;
    RoundTrip(t, requested, live, nodes);
    NormaliseLines(lines, last);
  }

  /** With the same naming condition on all of the tree a full backup does not fail. */
  lemma NoClashNoFailure(t: Tree)
    requires forall p :: Persistent(t, p) ==> !Shadowed(t, 0, p)
    ensures !BackupFails(t, {})
  {}

  // ---------- when it is exact ----------

  ghost predicate ComesBackExactly(t: Tree, live: Tree, nodes: set<Name>) {
    !BackupFails(t, {}) &&
    forall p :: p != [] && p[0] in nodes ==>
                  Lookup(RestoreTree(live, Extracted(ArchiveOf(t, {})), nodes), p) == Exact(t, p)
  }

  /** A znode with a value that is named content below a parent with a value, and none above
      it is. */
  ghost predicate TopClash(t: Tree, p: Path) {
    HasValue(t, p) && Shadowed(t, 0, p) && forall i :: 0 < i < |p| ==> !Shadowed(t, 0, p[..i])
  }

  /** Such a znode is where a backup fails. */
  lemma TopClashFails(t: Tree, p: Path)
    ensures TopClash(t, p) <==> Fails(t, 0, p)
  {
    if p != [] {
      var q := Parent(p);
      assert forall i :: 0 <= i <= |q| ==> q[..i] == p[..i];
      assert Blocked(t, 0, q) <==> exists i :: 0 < i < |p| && Shadowed(t, 0, p[..i]);
    }
  }

  /** What a caller can check of the names and values of a tree before backing it up. */
  ghost predicate Faithful(t: Tree, nodes: set<Name>) {
    && (forall p :: p in t ==> !TopClash(t, p))
    && NoClash(t, 0, nodes)
    && (forall n :: n in nodes ==> Worth(t, n))
    && (forall p :: Persistent(t, p) && p != [] && p[0] in nodes ==> CR !in t[p].value)
  }

  /** Lost top-level znodes come back byte for byte exactly when the tree is faithful. */
  lemma ExactIff(t: Tree, live: Tree, nodes: set<Name>)
    requires ValidTree(t) && ValidTree(live)
    requires forall n :: n in nodes ==> Persistent(t, [n]) && [n] !in live
    ensures ComesBackExactly(t, live, nodes) <==> Faithful(t, nodes)
  {
    if Faithful(t, nodes) {
      FaithfulIsExact(t, live, nodes);
    }
    if ComesBackExactly(t, live, nodes) {
      ExactIsFaithful(t, live, nodes);
    }
  }

  lemma FaithfulIsExact(t: Tree, live: Tree, nodes: set<Name>)
    requires ValidTree(t) && Faithful(t, nodes)
    requires forall n :: n in nodes ==> Persistent(t, [n])
    ensures ComesBackExactly(t, live, nodes)
  {
    RoundTrip(t, {}, live, nodes);
    forall p | p in t ensures !Fails(t, 0, p) {
      TopClashFails(t, p);
    }
    forall p | p != [] && p[0] in nodes ensures Normalised(t, p) == Exact(t, p) {
      if Persistent(t, p) { NormaliseIdentity(t[p].value); }
    }
  }

  lemma ExactIsFaithful(t: Tree, live: Tree, nodes: set<Name>)
    requires ValidTree(t) && ValidTree(live) && ComesBackExactly(t, live, nodes)
    requires forall n :: n in nodes ==> Persistent(t, [n]) && [n] !in live
    ensures Faithful(t, nodes)
  {
    forall p | p in t ensures !TopClash(t, p) {
      TopClashFails(t, p);
    }
    forall p | Persistent(t, p) && p != [] && p[0] in nodes
      ensures !Shadowed(t, 0, p) && CR !in t[p].value && Worth(t, p[0])
    {
      ExactPath(t, live, nodes, p);
    }
    forall n | n in nodes ensures Worth(t, n) {
      assert [n][0] == n;
    }
  }

  lemma ExactPath(t: Tree, live: Tree, nodes: set<Name>, p: Path)
    requires ValidTree(t) && ValidTree(live) && ComesBackExactly(t, live, nodes)
    requires p != [] && p[0] in nodes && [p[0]] !in live && Persistent(t, p)
    ensures !Shadowed(t, 0, p) && CR !in t[p].value && Worth(t, p[0])
  {
    var f := Extracted(ArchiveOf(t, {}));
    ExactIsRebuilt(t, live, nodes, p);
    RebuiltIsWorth(t, p);
    ValueComesBack(t, 0, f, p);
    NormaliseIdentity(t[p].value);
    BlockedStep(t, 0, p);
  }

  /** A znode that was lost and is back must have been stored. */
  lemma ExactIsRebuilt(t: Tree, live: Tree, nodes: set<Name>, p: Path)
    requires ValidTree(live) && ComesBackExactly(t, live, nodes)
    requires p != [] && p[0] in nodes && [p[0]] !in live && Persistent(t, p)
    ensures Restored(Extracted(ArchiveOf(t, {})), p) == Some(t[p])
  {
    hide ArchiveOf, Extracted, RestoreTree, Restored;
    var f := Extracted(ArchiveOf(t, {}));
    RestoreLookup(live, f, nodes, p);
    assert Lookup(RestoreTree(live, f, nodes), p) == Exact(t, p);
    assert p[..1] == [p[0]];
    if p in live {
      AboveInTree(live, p, 1);
    }
  }

  lemma RebuiltIsWorth(t: Tree, p: Path)
    requires ValidTree(t) && p != [] && Restored(Extracted(ArchiveOf(t, {})), p).Some?
    ensures Stored(t, 0, p) && Worth(t, p[0])
    ensures Lookup(Extracted(ArchiveOf(t, {})), p + [CONTENT]) == Image(t, 0, p + [CONTENT])
  {
    hide ArchiveOf, Worth, StoredValue;
    var a := ArchiveOf(t, {});
    ArchiveLookup(t, {}, p);
    ArchiveLookup(t, {}, p + [CONTENT]);
    assert (p + [CONTENT])[0] == p[0];
    var q :| q in a && |q| > 1 && q[0] == p[0];
    ArchiveLookup(t, {}, q);
    WorthOfEntry(t, 0, q);
  }

  // ---------- the second pass ----------

  /** A full backup and, nobody else writing, a restore of all it holds. */
  ghost function FullPass(t: Tree): Option<Tree> {
    var a := ArchiveOf(t, {});
    if BackupFails(t, {}) || ZOOKEEPER !in Tops(a) then None
    else Some(RestoreTree(t, Extracted(a), Tops(a) - {ZOOKEEPER}))
  }

  ghost predicate NeverShadowed(t: Tree) {
    forall p :: Persistent(t, p) ==> !Shadowed(t, 0, p)
  }

  lemma TopsArePersistent(t: Tree, n: Name)
    requires ValidTree(t) && NeverShadowed(t)
    ensures n in Tops(ArchiveOf(t, {})) <==> Persistent(t, [n])
  {
    ArchiveLookup(t, {}, [n]);
    if Persistent(t, [n]) {
      assert NoClash(t, 0, {n}) && [n][0] == n;
      UnblockedBelow(t, 0, {n}, [n]);
    }
  }

  /** One pass normalises what it restores and changes nothing else. */
  lemma PassLookup(t: Tree, p: Path)
    requires ValidTree(t) && NeverShadowed(t) && Persistent(t, [ZOOKEEPER])
    ensures FullPass(t).Some?
    ensures Lookup(FullPass(t).value, p) ==
            if p != [] && p[0] != ZOOKEEPER && Persistent(t, [p[0]]) && Worth(t, p[0])
            then Normalised(t, p) else Lookup(t, p)
  {
    var a := ArchiveOf(t, {});
    var nodes := Tops(a) - {ZOOKEEPER};
    TopsArePersistent(t, ZOOKEEPER);
    NoClashNoFailure(t);
    RestoreLookup(t, Extracted(a), nodes, p);
    if p != [] {
      TopsArePersistent(t, p[0]);
      if p[0] in nodes {
        assert NoClash(t, 0, {p[0]});
        RestoredSubtree(t, {}, t, nodes, p);
      }
    }
  }

  /** A pass neither adds nor removes persistent znodes, nor empties a value. */
  lemma PassKeeps(t: Tree, p: Path)
    requires ValidTree(t) && NeverShadowed(t) && Persistent(t, [ZOOKEEPER])
    ensures FullPass(t).Some?
    ensures Persistent(FullPass(t).value, p) == Persistent(t, p)
    ensures HasValue(FullPass(t).value, p) == HasValue(t, p)
  {
    PassLookup(t, p);
  }

  lemma PassKeepsWorth(t: Tree, n: Name)
    requires ValidTree(t) && NeverShadowed(t) && Persistent(t, [ZOOKEEPER])
    ensures FullPass(t).Some? && Worth(FullPass(t).value, n) == Worth(t, n)
  {
    hide FullPass;
    PassKeeps(t, [n]);
    var u := FullPass(t).value;
    forall c ensures Persistent(u, [n, c]) == Persistent(t, [n, c]) {
      PassKeeps(t, [n, c]);
    }
  }

  lemma PassValid(t: Tree)
    requires ValidTree(t) && NeverShadowed(t) && Persistent(t, [ZOOKEEPER])
    ensures FullPass(t).Some?
    ensures ValidTree(FullPass(t).value) && NeverShadowed(FullPass(t).value)
    ensures Persistent(FullPass(t).value, [ZOOKEEPER])
  {
    PassKeeps(t, [ZOOKEEPER]);
    ArchiveNested(t, {});
    ExtractedNested(ArchiveOf(t, {}));
    RestoredIsValid(t, Extracted(ArchiveOf(t, {})), Tops(ArchiveOf(t, {})) - {ZOOKEEPER});
    var u := FullPass(t).value;
    hide FullPass;
    forall p | Persistent(u, p) ensures !Shadowed(u, 0, p) {
      PassKeeps(t, p);
      if p != [] { PassKeeps(t, Parent(p)); }
    }
  }

  lemma SecondPassLookup(t: Tree, p: Path)
    requires ValidTree(t) && NeverShadowed(t) && Persistent(t, [ZOOKEEPER])
    ensures FullPass(t).Some? && FullPass(FullPass(t).value).Some?
    ensures Lookup(FullPass(FullPass(t).value).value, p) == Lookup(FullPass(t).value, p)
  {
    hide FullPass, ValidTree, NeverShadowed, Worth, Normalise;
    PassValid(t);
    var u := FullPass(t).value;
    PassLookup(t, p);
    PassLookup(u, p);
    if p != [] {
      PassKeeps(t, [p[0]]);
      PassKeepsWorth(t, p[0]);
    }
    if Persistent(t, p) {
      NormaliseIdentity(Normalise(t[p].value));
    }
  }

  /** The second pass leaves the live tree as it is, whatever bytes the values held. */
  lemma SecondPassIsFixpoint(t: Tree)
    requires ValidTree(t) && NeverShadowed(t) && Persistent(t, [ZOOKEEPER])
    ensures FullPass(t).Some? && FullPass(FullPass(t).value) == FullPass(t)
  {
    hide FullPass, ValidTree, NeverShadowed;
    SecondPassLookup(t, []);
    var u := FullPass(t).value;
    var v := FullPass(u).value;
    forall p ensures Lookup(v, p) == Lookup(u, p) {
      SecondPassLookup(t, p);
    }
    SameLookups(v, u);
  }

  // ---------- the walk ----------

  /** The restored count is the number of directories walked. */
  lemma WalkCounts(f: Files, dir: Path, made: seq<Path>)
    requires TopDown(f, dir, {}, made)
    ensures |made| == |set p | p in f && dir <= p && f[p].Dir?|
  {
    var dirs := set p | p in f && dir <= p && f[p].Dir?;
    DistinctCount(made);
    assert dirs == set p | p in made by {
      forall p ensures p in dirs <==> p in made {
        assert dir <= p ==> Beside(dir, {}, p);
      }
    }
  }

  lemma {:induction false} DistinctCount(made: seq<Path>)
    requires Distinct(made)
    ensures |set p | p in made| == |made|
  {
    if made != [] {
      var most := made[..|made| - 1];
      DistinctCount(most);
      assert (set p | p in made) == (set p | p in most) + {made[|made| - 1]};
    }
  }

  // ---------- the pass as it runs ----------

  /** A full backup and a full restore, one after the other. */
  method RunFullPass(zk: ZkClient) returns (ok: bool)
    requires ValidTree(zk.tree)
    modifies zk
    ensures ok <==> FullPass(old(zk.tree)).Some?
    ensures zk.tree == if ok then FullPass(old(zk.tree)).value else old(zk.tree)
  {
    hide ArchiveOf, RestoreTree, Extracted;
    assert NamesOf([]) == {};
    ArchiveNested(zk.tree, {});
    var archive := Backup(zk.tree, []);
    if archive.None? {
      return false;
    }
    ok := Restore(zk, Zip(archive.value), []);
  }

  // ---------- inputs on which it is not exact ----------

  /** A clash of names, a carriage return, and a bare znode. */
  const PLAIN := Znode([], false)
  const CLASH: Tree := map[[] := PLAIN, ["a"] := Znode([65], false), ["a", "content"] := PLAIN]
  const CRLF: Tree := map[[] := PLAIN, ["a"] := Znode([65, 13, 10], false)]
  const BARE: Tree := map[[] := PLAIN, ["a"] := PLAIN]

  /** Lost from an otherwise empty tree, "/a" does not come back as it was. */
  lemma UnfaithfulTrees()
    ensures ValidTree(CLASH) && !ComesBackExactly(CLASH, map[[] := PLAIN], {"a"})
    ensures ValidTree(CRLF) && !ComesBackExactly(CRLF, map[[] := PLAIN], {"a"})
    ensures ValidTree(BARE) && !ComesBackExactly(BARE, map[[] := PLAIN], {"a"})
  {
    UnfaithfulAre();
    LostIsLost(CLASH);
    LostIsLost(CRLF);
    LostIsLost(BARE);
  }

  lemma LostIsLost(t: Tree)
    requires t in {CLASH, CRLF, BARE} && !Faithful(t, {"a"})
    ensures ValidTree(t) && !ComesBackExactly(t, map[[] := PLAIN], {"a"})
  {
    var live: Tree := map[[] := PLAIN];
    var a: Path := ["a"];
    assert Parent(a) == [] && Parent(["a", CONTENT]) == a;
    assert ValidTree(t);
    assert ValidTree(live);
    assert Persistent(t, a) && a !in live;
    hide Faithful, ComesBackExactly, ValidTree;
    ExactIff(t, live, {"a"});
  }

  lemma UnfaithfulAre()
    ensures !Faithful(CLASH, {"a"}) && !Faithful(CRLF, {"a"}) && !Faithful(BARE, {"a"})
  {
    var p: Path := ["a", CONTENT];
    assert Parent(p) == ["a"] && p[0] == "a";
    assert Persistent(CLASH, p) && Shadowed(CLASH, 0, p);
    var q: Path := ["a"];
    assert Persistent(CRLF, q) && q[0] == "a" && CRLF[q].value[1] == CR;
    forall c ensures !Persistent(BARE, ["a", c]) {
      assert |["a", c]| == 2;
    }
    assert !Worth(BARE, "a");
  }
}
