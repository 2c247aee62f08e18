/** The live znode tree, the directory tree a hierarchical backup is written to, and what one
    is made of the other (backup-daemon/scripts/process_znode_hierarchy.py). */
module Znodes {
  import opened Bytes

  type Name = string
  type Path = seq<Name>

  /** The file that holds a znode's value, beside the directories of its children. */
  const CONTENT: Name := "content"

  const ZOOKEEPER: Name := "zookeeper"

  datatype Znode = Znode(value: seq<Byte>, ephemeral: bool)

  type Tree = map<Path, Znode>

  /** A value file is text decoded from cp437, a bijection on bytes: it is kept as its bytes. */
  datatype FileEntry = Dir | File(text: seq<Byte>)

  type Files = map<Path, FileEntry>

  function Parent(p: Path): Path
    requires p != []
  {
    p[..|p| - 1]
  }

  function Last(p: Path): Name
    requires p != []
  {
    p[|p| - 1]
  }

  function Lookup<V>(m: map<Path, V>, p: Path): Option<V> {
    if p in m then Some(m[p]) else None
  }

  /** ZooKeeper keeps its tree closed under parents, and ephemeral znodes have no children. */
  ghost predicate ValidTree(t: Tree) {
    && [] in t && !t[[]].ephemeral
    && forall p :: p in t && p != [] ==> Parent(p) in t && !t[Parent(p)].ephemeral
  }

  /** Every entry of a directory tree sits in a directory; the folder that holds the
      top-level ones need not be an entry. */
  ghost predicate Nested(f: Files) {
    forall p :: p in f && |p| > 1 ==> Lookup(f, Parent(p)) == Some(Dir)
  }

  function Children(t: Tree, p: Path): set<Name> {
    set q | q in t && |q| == |p| + 1 && p <= q :: q[|p|]
  }

  lemma ChildrenAre(t: Tree, p: Path, n: Name)
    ensures n in Children(t, p) <==> p + [n] in t
  {
    if p + [n] in t {
      assert (p + [n])[|p|] == n;
    }
    if n in Children(t, p) {
      var q :| q in t && |q| == |p| + 1 && p <= q && q[|p|] == n;
      assert q == p + [n];
    }
  }

  // ---------- what a backup stores ----------

  predicate Persistent(t: Tree, p: Path) {
    p in t && !t[p].ephemeral
  }

  predicate HasValue(t: Tree, p: Path) {
    Persistent(t, p) && t[p].value != []
  }

  /** The value file of `p`'s parent has taken the name of `p`'s directory. The traversal
      starts at depth `from`: 0 for a full backup, 1 for one of chosen top-level znodes. */
  predicate Shadowed(t: Tree, from: nat, p: Path) {
    |p| > from && Last(p) == CONTENT && HasValue(t, Parent(p))
  }

  /** `p` or a znode above it is shadowed, so there is no directory for `p`. */
  predicate Blocked(t: Tree, from: nat, p: Path) {
    exists i :: from < i <= |p| && Shadowed(t, from, p[..i])
  }

  predicate Stored(t: Tree, from: nat, p: Path) {
    Persistent(t, p) && !Blocked(t, from, p)
  }

  predicate IsValueFile(t: Tree, from: nat, p: Path) {
    |p| > from && Last(p) == CONTENT && Stored(t, from, Parent(p)) && HasValue(t, Parent(p))
  }

  /** What is at `p` in the directory tree once `p`'s subtree has been visited. */
  function Image(t: Tree, from: nat, p: Path): Option<FileEntry> {
    if Stored(t, from, p) then Some(Dir)
    else if IsValueFile(t, from, p) then Some(File(t[Parent(p)].value))
    else None
  }

  /** Writing `p`'s value fails: its directory is the value file of its parent. */
  predicate Fails(t: Tree, from: nat, p: Path) {
    HasValue(t, p) && IsValueFile(t, from, p)
  }

  /** Blocked is Shadowed here or Blocked above. */
  lemma BlockedStep(t: Tree, from: nat, p: Path)
    requires |p| > from
    ensures Blocked(t, from, p) <==> Shadowed(t, from, p) || Blocked(t, from, Parent(p))
  {
    if Blocked(t, from, p) && !Shadowed(t, from, p) {
      var i :| from < i <= |p| && Shadowed(t, from, p[..i]);
      assert p[..|p|] == p;
      assert Parent(p)[..i] == p[..i];
    }
    if Blocked(t, from, Parent(p)) {
      var i :| from < i <= |Parent(p)| && Shadowed(t, from, Parent(p)[..i]);
      assert Parent(p)[..i] == p[..i];
    }
    if Shadowed(t, from, p) {
      assert p[..|p|] == p;
    }
  }

  lemma BlockedDown(t: Tree, from: nat, p: Path, q: Path)
    requires p <= q && Blocked(t, from, p)
    ensures Blocked(t, from, q)
  {
    var i :| from < i <= |p| && Shadowed(t, from, p[..i]);
    assert p[..i] == q[..i];
  }

  lemma NothingBlockedAtStart(t: Tree, from: nat, p: Path)
    requires |p| <= from
    ensures !Blocked(t, from, p)
  {}

  lemma SameLookups<V>(a: map<Path, V>, b: map<Path, V>)
    requires forall x :: Lookup(a, x) == Lookup(b, x)
    ensures a == b
  {
    assert forall x :: x in a <==> Lookup(a, x).Some?;
    assert forall x :: x in b <==> Lookup(b, x).Some?;
    assert forall x | x in a :: a[x] == Lookup(a, x).value == b[x];
  }

  ghost function NamesOf(names: seq<Name>): set<Name> {
    set i | 0 <= i < |names| :: names[i]
  }

  lemma NamesOfNext(names: seq<Name>, k: nat)
    requires k < |names|
    ensures NamesOf(names[..k + 1]) == NamesOf(names[..k]) + {names[k]}
  {
    forall x | x in NamesOf(names[..k]) ensures x in NamesOf(names[..k + 1]) {
      var i :| 0 <= i < k && names[..k][i] == x;
      assert names[..k + 1][i] == x;
    }
    forall x | x in NamesOf(names[..k + 1]) ensures x in NamesOf(names[..k]) + {names[k]} {
      var i :| 0 <= i < k + 1 && names[..k + 1][i] == x;
      if i < k { assert names[..k][i] == x; }
    }
    assert names[..k + 1][k] == names[k];
  }

  // ---------- where a traversal is ----------

  ghost function Below<V>(m: map<Path, V>, p: Path): set<Path> {
    set q | q in m && p <= q
  }

  lemma ChildIsBelow<V>(m: map<Path, V>, p: Path, n: Name)
    requires p in m
    ensures Below(m, p + [n]) < Below(m, p)
  {
    assert p in Below(m, p) && p !in Below(m, p + [n]);
    forall q | q in Below(m, p + [n]) ensures q in Below(m, p) {
      assert p + [n] <= q && p <= q;
    }
  }

  /** Below `p`, but below none of its children in `names`. */
  ghost predicate Beside(p: Path, names: set<Name>, x: Path) {
    p <= x && !(|x| > |p| && x[|p|] in names)
  }

  lemma BelowChild(p: Path, n: Name, x: Path)
    ensures p + [n] <= x <==> p <= x && |x| > |p| && x[|p|] == n
  {
    if p <= x && |x| > |p| {
      assert x[..|p| + 1] == p + [x[|p|]];
    }
    if p + [n] <= x {
      assert x[|p|] == (p + [n])[|p|];
    }
  }

  // ---------- the extent of a backup ----------

  /** The znodes a backup covers: all, or those below the requested top-level ones. */
  predicate Covered(requested: set<Name>, p: Path) {
    requested == {} || (p != [] && p[0] in requested)
  }

  function Start(requested: set<Name>): nat {
    if requested == {} then 0 else 1
  }

  /** A backup fails when a requested znode is missing or some value cannot be written. */
  ghost predicate BackupFails(t: Tree, requested: set<Name>) {
    (exists n :: n in requested && [n] !in t) ||
    (exists p :: p in t && Covered(requested, p) && Fails(t, Start(requested), p))
  }

  /** The entries of the archive, the storage folder itself not being one. */
  ghost function ArchiveOf(t: Tree, requested: set<Name>): Files {
    (map p | p in t && p != [] && Covered(requested, p) && Stored(t, Start(requested), p) :: Dir) +
    (map p | p in ValueFiles(t, requested) :: File(t[Parent(p)].value))
  }

  ghost function ValueFiles(t: Tree, requested: set<Name>): (s: set<Path>)
    ensures forall p :: p in s <==>
              p != [] && Covered(requested, p) && IsValueFile(t, Start(requested), p)
  {
    var s := set q | q in t && Covered(requested, q + [CONTENT]) &&
                     IsValueFile(t, Start(requested), q + [CONTENT]) :: q + [CONTENT];
    assert forall p :: p != [] && Covered(requested, p) && IsValueFile(t, Start(requested), p) ==>
                         p == Parent(p) + [CONTENT];
    s
  }

  lemma ArchiveLookup(t: Tree, requested: set<Name>, p: Path)
    ensures Lookup(ArchiveOf(t, requested), p) ==
            if p != [] && Covered(requested, p) then Image(t, Start(requested), p) else None
  {
    var from := Start(requested);
    if IsValueFile(t, from, p) {
      BlockedStep(t, from, p);
    }
  }

  // ---------- what a restore rebuilds ----------

  const CR: Byte := 13
  const LF: Byte := 10

  /** Reading in text mode: CR LF and CR become LF. */
  function Normalise(v: seq<Byte>): (r: seq<Byte>)
    ensures CR !in r && (r == [] <==> v == [])
  {
    if v == [] then []
    else if v[0] == CR then
      [LF] + (if |v| > 1 && v[1] == LF then Normalise(v[2..]) else Normalise(v[1..]))
    else [v[0]] + Normalise(v[1..])
  }

  lemma {:induction false} NormaliseIdentity(v: seq<Byte>)
    ensures Normalise(v) == v <==> CR !in v
  {
    if v != [] && CR !in v {
      assert CR !in v[1..];
      NormaliseIdentity(v[1..]);
    }
  }

  /** The value a walked directory gives its znode. */
  function StoredValue(f: Files, p: Path): seq<Byte> {
    var c := p + [CONTENT];
    if c in f && f[c].File? then Normalise(f[c].text) else []
  }

  function Restored(f: Files, p: Path): Option<Znode> {
    if p in f && f[p].Dir? then Some(Znode(StoredValue(f, p), false)) else None
  }

  /** Something is stored strictly below the top-level directory of `n`. */
  ghost predicate HasBelow(f: Files, n: Name) {
    exists p :: p in f && |p| > 1 && p[0] == n
  }

  /** What extracting top-level znodes one by one can make of an archive: a top-level
      directory alone is no reason to extract anything. */
  ghost function Extracted(archive: Files): Files {
    map p | p in archive && p != [] && HasBelow(archive, p[0]) :: archive[p]
  }

  /** The walk of a requested top-level znode finds its directory. */
  ghost predicate Rebuilt(f: Files, nodes: set<Name>, p: Path) {
    p != [] && p[0] in nodes && Lookup(f, [p[0]]) == Some(Dir)
  }

  /** The live tree after the walks of `nodes` over `f`. */
  ghost function RestoreTree(live: Tree, f: Files, nodes: set<Name>): Tree {
    (map p | p in live && !Rebuilt(f, nodes, p) :: live[p]) +
    (map p | p in f && Rebuilt(f, nodes, p) && f[p].Dir? :: Znode(StoredValue(f, p), false))
  }

  lemma RestoreLookup(live: Tree, f: Files, nodes: set<Name>, p: Path)
    ensures Lookup(RestoreTree(live, f, nodes), p) ==
            if Rebuilt(f, nodes, p) then Restored(f, p) else Lookup(live, p)
  {}

  /** The top-level directories of an archive. */
  ghost function Tops(f: Files): (s: set<Name>)
    ensures forall n :: n in s <==> [n] in f && f[[n]].Dir?
  {
    var s := set p | p in f && |p| == 1 && f[p].Dir? :: p[0];
    assert forall p: Path :: |p| == 1 ==> p == [p[0]];
    s
  }
}
