/** Writing the znode tree to a directory tree (process_znode_hierarchy.py: backup,
    visit_nodes, store_data). The order in which ZooKeeper lists children is arbitrary. */
module HierarchyBackup {
  import opened Bytes
  import opened Znodes

  class Storage {
    var files: Files

    constructor ()
      ensures files == map[[] := Dir]
    {
      files := map[[] := Dir];
    }
  }

  // ---------- one znode ----------

  function Prefixes(p: Path): set<Path> {
    set i | 0 <= i <= |p| :: p[..i]
  }

  /** os.makedirs, where nothing above is a file. */
  function MakeDirs(f: Files, p: Path): Files {
    f + map q | q in Prefixes(p) && q !in f :: Dir
  }

  predicate UnderFile(f: Files, p: Path) {
    exists i :: 0 <= i < |p| && Lookup(f, p[..i]).Some? && f[p[..i]].File?
  }

  /** None when opening the value file raises an error that is not caught; a directory that
      cannot be made is only logged. */
  function StoreResult(f: Files, p: Path, value: seq<Byte>): Option<Files> {
    if p !in f && UnderFile(f, p) then Some(f)
    else
      var g := if p in f then f else MakeDirs(f, p);
      var c := p + [CONTENT];
      if value == [] then Some(g)
      else if Lookup(g, p) == Some(Dir) && Lookup(g, c) != Some(Dir) then Some(g[c := File(value)])
      else None
  }

  method StoreData(storage: Storage, p: Path, value: seq<Byte>) returns (ok: bool)
    modifies storage
    ensures ok == StoreResult(old(storage.files), p, value).Some?
    ensures ok ==> Some(storage.files) == StoreResult(old(storage.files), p, value)
  {
    if p !in storage.files {
      if UnderFile(storage.files, p) {
        return true;
      }
      storage.files := MakeDirs(storage.files, p);
    }
    if value != [] {
      var c := p + [CONTENT];
      if Lookup(storage.files, p) != Some(Dir) || Lookup(storage.files, c) == Some(Dir) {
        return false;
      }
      storage.files := storage.files[c := File(value)];
    }
    return true;
  }

  // ---------- what a visit relies on ----------

  lemma {:induction false} AboveInTree(t: Tree, p: Path, i: nat)
    requires ValidTree(t) && p in t && i <= |p|
    ensures p[..i] in t && (i < |p| ==> !t[p[..i]].ephemeral)
    decreases |p| - i
  {
    if i < |p| {
      AboveInTree(t, p, i + 1);
      assert Parent(p[..i + 1]) == p[..i];
    } else {
      assert p[..i] == p;
    }
  }

  /** Everything above `p` is as it will stay, and below `p` nothing is wrong yet. */
  ghost predicate Ready(t: Tree, from: nat, f: Files, p: Path) {
    && ValidTree(t) && p in t && |p| >= from
    && (forall i :: 0 <= i < from ==> Lookup(f, p[..i]) == Some(Dir))
    && (forall i :: from <= i < |p| ==> Lookup(f, p[..i]) == Image(t, from, p[..i]))
    && (IsValueFile(t, from, p) ==> Lookup(f, p) == Image(t, from, p))
    && (forall x :: p <= x ==> Lookup(f, x).None? || Lookup(f, x) == Image(t, from, x))
  }

  /** `p` and its value file are now final; nothing else has changed. */
  ghost predicate NodeStored(t: Tree, from: nat, f: Files, g: Files, p: Path) {
    forall x :: Lookup(g, x) ==
                if x == p || (x == p + [CONTENT] && IsValueFile(t, from, x)) then Image(t, from, x)
                else Lookup(f, x)
  }

  lemma StoreUnblocked(t: Tree, from: nat, f: Files, p: Path)
    requires Ready(t, from, f, p) && Stored(t, from, p)
    ensures var r := StoreResult(f, p, t[p].value);
            r.Some? && !Fails(t, from, p) && NodeStored(t, from, f, r.value, p)
  {
    forall i | 0 <= i < |p| ensures Lookup(f, p[..i]) == Some(Dir) {
      if i >= from {
        AboveInTree(t, p, i);
        if Blocked(t, from, p[..i]) { BlockedDown(t, from, p[..i], p); }
      }
    }
    assert !UnderFile(f, p);
    var g := if p in f then f else MakeDirs(f, p);
    assert p[..|p|] == p;
    assert Lookup(f, p).None? || Lookup(f, p) == Image(t, from, p);
    assert forall x :: Lookup(g, x) == if x == p then Some(Dir) else Lookup(f, x) by {
      forall x | x in Prefixes(p) && x != p ensures x in f {
        var i :| 0 <= i <= |p| && x == p[..i];
        assert Lookup(f, p[..i]) == Some(Dir);
      }
    }
    var c := p + [CONTENT];
    assert Parent(c) == p && Last(c) == CONTENT;
    BlockedStep(t, from, c);
    assert Lookup(f, c).None? || Lookup(f, c) == Image(t, from, c);
  }

  lemma StoreBlocked(t: Tree, from: nat, f: Files, p: Path)
    requires Ready(t, from, f, p) && Persistent(t, p) && Blocked(t, from, p)
    ensures var r := StoreResult(f, p, t[p].value);
            r.None? == Fails(t, from, p) && (r.Some? ==> NodeStored(t, from, f, r.value, p))
  {
    BlockedStep(t, from, p);
    var c := p + [CONTENT];
    assert Parent(c) == p;
    if IsValueFile(t, from, p) {
      assert Lookup(f, p) == Some(File(t[Parent(p)].value));
    } else {
      assert Lookup(f, p).None?;
      AboveInTree(t, p, |p| - 1);
      assert Blocked(t, from, Parent(p));
      FileAbove(t, from, f, p);
    }
  }

  /** Above a blocked znode that is no value file itself there is a value file. */
  lemma FileAbove(t: Tree, from: nat, f: Files, p: Path)
    requires Ready(t, from, f, p) && |p| > from && Blocked(t, from, Parent(p))
    ensures UnderFile(f, p)
  {
    var i := FirstShadowed(t, from, Parent(p));
    var q := Parent(p)[..i];
    assert q == p[..i];
    BlockedStep(t, from, q);
    AboveInTree(t, p, i - 1);
    assert Parent(q) == p[..i - 1];
    assert Lookup(f, p[..i]) == Image(t, from, p[..i]);
  }

  lemma FirstShadowed(t: Tree, from: nat, p: Path) returns (i: nat)
    requires Blocked(t, from, p)
    ensures from < i <= |p| && Shadowed(t, from, p[..i]) && !Blocked(t, from, Parent(p[..i]))
    decreases |p|
  {
    BlockedStep(t, from, p);
    if Blocked(t, from, Parent(p)) {
      i := FirstShadowed(t, from, Parent(p));
      assert Parent(p)[..i] == p[..i];
    } else {
      i := |p|;
      assert p[..i] == p;
    }
  }

  lemma StoreStep(t: Tree, from: nat, f: Files, p: Path)
    requires Ready(t, from, f, p) && Persistent(t, p)
    ensures var r := StoreResult(f, p, t[p].value);
            r.None? == Fails(t, from, p) && (r.Some? ==> NodeStored(t, from, f, r.value, p))
  {
    if Blocked(t, from, p) {
      StoreBlocked(t, from, f, p);
    } else {
      StoreUnblocked(t, from, f, p);
    }
  }

  // ---------- a whole subtree ----------

  /** The subtree of `p` is stored; nothing else has changed. */
  ghost predicate SubtreeStored(t: Tree, from: nat, f: Files, g: Files, p: Path) {
    forall x :: Lookup(g, x) == if p <= x then Image(t, from, x) else Lookup(f, x)
  }

  ghost predicate SubtreeFails(t: Tree, from: nat, p: Path) {
    exists q :: p <= q && Fails(t, from, q)
  }

  /** The children still to visit leave their part as the store of `p` left it (in `g`). */
  ghost predicate Partial(t: Tree, from: nat, f: Files, g: Files, h: Files, p: Path, todo: set<Name>) {
    forall x :: Lookup(h, x) ==
                if Beside(p, todo, x) then Image(t, from, x)
                else if p <= x then Lookup(g, x)
                else Lookup(f, x)
  }

  /** Every znode below `p` is below one of its children. */
  lemma BelowAChild(t: Tree, p: Path, x: Path)
    requires ValidTree(t) && x in t && p <= x && x != p
    ensures !Beside(p, Children(t, p), x)
  {
    AboveInTree(t, x, |p| + 1);
    assert x[..|p| + 1] == p + [x[|p|]];
    ChildrenAre(t, p, x[|p|]);
  }

  /** Below `p` but below no child there is only the value file of `p`. */
  lemma NothingBeside(t: Tree, from: nat, p: Path, x: Path)
    requires ValidTree(t) && Beside(p, Children(t, p), x) && x != p
    ensures x !in t && (IsValueFile(t, from, x) ==> x == p + [CONTENT])
  {
    hide Stored, Blocked;
    if x in t {
      BelowAChild(t, p, x);
    }
    if IsValueFile(t, from, x) {
      assert p <= Parent(x) && Beside(p, Children(t, p), Parent(x));
      if Parent(x) != p {
        BelowAChild(t, p, Parent(x));
      }
    }
  }

  lemma VisitStarts(t: Tree, from: nat, f: Files, g: Files, p: Path)
    requires Ready(t, from, f, p) && NodeStored(t, from, f, g, p)
    ensures Partial(t, from, f, g, g, p, Children(t, p))
    ensures forall q :: Fails(t, from, q) && Beside(p, Children(t, p), q) ==> q == p
  {
    hide Blocked, IsValueFile;
    forall x | Beside(p, Children(t, p), x) && x != p
      ensures Lookup(g, x) == Image(t, from, x) && !Fails(t, from, x)
    {
      NothingBeside(t, from, p, x);
      assert Lookup(f, x).None? || Lookup(f, x) == Image(t, from, x);
    }
  }

  /** A child can be visited, whatever its siblings have done. */
  lemma ChildReady(t: Tree, from: nat, f: Files, g: Files, h: Files, p: Path, todo: set<Name>, n: Name)
    requires Ready(t, from, f, p) && NodeStored(t, from, f, g, p)
    requires Partial(t, from, f, g, h, p, todo) && n in todo && p + [n] in t
    ensures Ready(t, from, h, p + [n])
  {
    var c := p + [n];
    forall i | 0 <= i < |c|
      ensures Lookup(h, c[..i]) == if i < from then Some(Dir) else Image(t, from, c[..i])
    {
      if i < |p| {
        assert c[..i] == p[..i] && !(p <= p[..i]);
      } else {
        assert c[..i] == p && Beside(p, todo, p);
      }
    }
    forall x | c <= x
      ensures Lookup(h, x) == Lookup(g, x)
      ensures Lookup(h, x).None? || Lookup(h, x) == Image(t, from, x)
    {
      assert x[|p|] == c[|p|] == n && p <= x;
      assert Lookup(f, x).None? || Lookup(f, x) == Image(t, from, x);
    }
    assert c[|p|] == n;
  }

  lemma ChildStored(t: Tree, from: nat, f: Files, g: Files, h: Files, k: Files,
                    p: Path, todo: set<Name>, n: Name)
    requires Partial(t, from, f, g, h, p, todo) && n in todo
    requires SubtreeStored(t, from, h, k, p + [n])
    ensures Partial(t, from, f, g, k, p, todo - {n})
  {
    var c := p + [n];
    forall x
      ensures Lookup(k, x) ==
              if Beside(p, todo - {n}, x) then Image(t, from, x)
              else if p <= x then Lookup(g, x)
              else Lookup(f, x)
    {
      BelowChild(p, n, x);
    }
  }

  lemma EphemeralVisit(t: Tree, from: nat, f: Files, p: Path)
    requires Ready(t, from, f, p) && t[p].ephemeral
    ensures SubtreeStored(t, from, f, f, p) && !SubtreeFails(t, from, p)
  {
    forall x | p <= x ensures Lookup(f, x) == Image(t, from, x) && !Fails(t, from, x) {
      EphemeralAlone(t, p, x);
      if x != p {
        EphemeralAlone(t, p, Parent(x));
      }
      assert Lookup(f, x).None? || Lookup(f, x) == Image(t, from, x);
    }
  }

  lemma EphemeralAlone(t: Tree, p: Path, x: Path)
    requires ValidTree(t) && p in t && t[p].ephemeral && p <= x
    ensures x in t ==> x == p
  {
    if x in t {
      AboveInTree(t, x, |p|);
      assert x[..|p|] == p;
    }
  }

  /** visit_nodes: `ok` is false when an error was not caught. */
  method VisitNodes(t: Tree, from: nat, p: Path, storage: Storage) returns (ok: bool)
    requires Ready(t, from, storage.files, p)
    modifies storage
    ensures ok <==> !SubtreeFails(t, from, p)
    ensures ok ==> SubtreeStored(t, from, old(storage.files), storage.files, p)
    decreases Below(t, p)
  {
    hide Image, Fails, IsValueFile, Stored, Ready;
    ghost var f := storage.files;
    assert p in t by { ReadyAt(t, from, f, p); }
    var children := Children(t, p);
    if t[p].ephemeral {
      EphemeralVisit(t, from, f, p);
      return true;
    }
    StoreStep(t, from, f, p);
    ok := StoreData(storage, p, t[p].value);
    if !ok {
      assert p <= p;
      return false;
    }
    ghost var g := storage.files;
    VisitStarts(t, from, f, g, p);
    var todo := children;
    while todo != {}
      invariant todo <= children
      invariant Partial(t, from, f, g, storage.files, p, todo)
      invariant forall q :: Fails(t, from, q) && p <= q ==> !Beside(p, todo, q)
      decreases todo
    {
      var n :| n in todo;
      ChildrenAre(t, p, n);
      ghost var h := storage.files;
      ChildReady(t, from, f, g, h, p, todo, n);
      ChildIsBelow(t, p, n);
      ok := VisitNodes(t, from, p + [n], storage);
      if !ok {
        var q :| p + [n] <= q && Fails(t, from, q);
        assert p <= q;
        return false;
      }
      ChildStored(t, from, f, g, h, storage.files, p, todo, n);
      ChildCannotFail(t, from, p, todo, n);
      todo := todo - {n};
    }
    assert forall x :: p <= x ==> Beside(p, {}, x);
    return true;
  }

  lemma ReadyAt(t: Tree, from: nat, f: Files, p: Path)
    requires Ready(t, from, f, p)
    ensures p in t
  {}

  lemma ChildCannotFail(t: Tree, from: nat, p: Path, todo: set<Name>, n: Name)
    requires forall q :: Fails(t, from, q) && p <= q ==> !Beside(p, todo, q)
    requires !SubtreeFails(t, from, p + [n])
    ensures forall q :: Fails(t, from, q) && p <= q ==> !Beside(p, todo - {n}, q)
  {
    forall q | Fails(t, from, q) && p <= q ensures !Beside(p, todo - {n}, q) {
      assert !Beside(p, todo, q);
      BelowChild(p, n, q);
    }
  }

  // ---------- backup ----------

  lemma SubtreeStoredIsArchive(t: Tree, f: Files)
    requires ValidTree(t) && SubtreeStored(t, 0, map[[] := Dir], f, [])
    ensures f - {[]} == ArchiveOf(t, {})
  {
    var a := ArchiveOf(t, {});
    forall x ensures Lookup(f - {[]}, x) == Lookup(a, x) {
      ArchiveLookup(t, {}, x);
      assert [] <= x;
      assert Lookup(f, x) == Image(t, 0, x);
    }
    SameLookups(f - {[]}, a);
  }

  /** The chosen top-level znodes visited so far are stored. */
  ghost predicate ChosenStored(t: Tree, f: Files, done: set<Name>) {
    forall x :: Lookup(f, x) ==
                if x == [] then Some(Dir)
                else if x[0] in done then Image(t, 1, x)
                else None
  }

  lemma ChosenReady(t: Tree, f: Files, done: set<Name>, n: Name)
    requires ValidTree(t) && ChosenStored(t, f, done) && [n] in t
    ensures Ready(t, 1, f, [n])
  {
    assert [n][..0] == [];
    forall x | [n] <= x ensures Lookup(f, x).None? || Lookup(f, x) == Image(t, 1, x) {
      assert x[0] == n;
    }
  }

  lemma ChosenStep(t: Tree, f: Files, g: Files, done: set<Name>, n: Name)
    requires ChosenStored(t, f, done) && SubtreeStored(t, 1, f, g, [n])
    ensures ChosenStored(t, g, done + {n})
  {
    forall x
      ensures Lookup(g, x) == if x == [] then Some(Dir)
                              else if x[0] in done + {n} then Image(t, 1, x)
                              else None
    {
      if x != [] {
        assert x[..1] == [x[0]];
      }
      assert [n] <= x <==> x != [] && x[0] == n;
    }
  }

  lemma ChosenIsArchive(t: Tree, f: Files, chosen: set<Name>)
    requires ChosenStored(t, f, chosen) && chosen != {}
    ensures f - {[]} == ArchiveOf(t, chosen)
  {
    var a := ArchiveOf(t, chosen);
    forall x ensures Lookup(f - {[]}, x) == Lookup(a, x) {
      ArchiveLookup(t, chosen, x);
    }
    SameLookups(f - {[]}, a);
  }

  /** backup: all znodes, or the requested top-level ones; None when it raises. */
  method Backup(t: Tree, requested: seq<Name>) returns (archive: Option<Files>)
    requires ValidTree(t)
    ensures archive == if BackupFails(t, NamesOf(requested)) then None
                       else Some(ArchiveOf(t, NamesOf(requested)))
    ensures (exists n :: n in requested && [n] !in t) ==> archive.None?
  {
    hide Image, Fails, ArchiveOf, Stored, IsValueFile;
    var storage := new Storage();
    if requested == [] {
      assert NamesOf(requested) == {};
      FullReady(t);
      var ok := VisitNodes(t, 0, [], storage);
      FullFails(t);
      if !ok {
        return None;
      }
      SubtreeStoredIsArchive(t, storage.files);
    } else {
      ghost var done: set<Name> := {};
      ghost var names := NamesOf(requested);
      assert requested[0] in names;
      for k := 0 to |requested|
        invariant ChosenStored(t, storage.files, done)
        invariant done == NamesOf(requested[..k])
        invariant forall n :: n in done ==> [n] in t && !SubtreeFails(t, 1, [n])
      {
        var n := requested[k];
        assert n in names;
        if [n] !in t {
          return None;
        }
        ChosenReady(t, storage.files, done, n);
        ghost var f := storage.files;
        var ok := VisitNodes(t, 1, [n], storage);
        if !ok {
          ChosenFails(t, names, n);
          return None;
        }
        ChosenStep(t, f, storage.files, done, n);
        NamesOfNext(requested, k);
        done := done + {n};
      }
      assert requested[..|requested|] == requested;
      NoneFails(t, names);
      ChosenIsArchive(t, storage.files, names);
    }
    return Some(storage.files - {[]});
  }

  lemma FullReady(t: Tree)
    requires ValidTree(t)
    ensures Ready(t, 0, map[[] := Dir], [])
  {
    NothingBlockedAtStart(t, 0, []);
    assert Image(t, 0, []) == Some(Dir);
  }

  lemma FullFails(t: Tree)
    ensures SubtreeFails(t, 0, []) <==> BackupFails(t, {})
  {
    assert forall q: Path {:trigger Fails(t, 0, q)} :: [] <= q;
  }

  lemma ChosenFails(t: Tree, names: set<Name>, n: Name)
    requires n in names && SubtreeFails(t, 1, [n])
    ensures BackupFails(t, names)
  {
    var q :| [n] <= q && Fails(t, 1, q);
    assert q[0] == n && q in t;
  }

  lemma NoneFails(t: Tree, names: set<Name>)
    requires names != {}
    requires forall n :: n in names ==> [n] in t && !SubtreeFails(t, 1, [n])
    ensures !BackupFails(t, names)
  {
    forall p | p in t && Covered(names, p) ensures !Fails(t, 1, p) {
      assert p[..1] == [p[0]] && [p[0]] <= p;
    }
  }
}
