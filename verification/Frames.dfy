/** The identity checks around every mutation of a virtual environment: the
    transaction lock, `pyvenv.cfg`, the frozen directories, and the directories
    that have to stay absent. */
module Frames {
  import opened Wrappers
  import opened FileSystem
  import opened Ownership

  /** What a transaction has frozen. */
  datatype Frame = Frame(
    root: Path, guard: Object, config: Object,
    directories: Names, absent: set<Path>)

  function LockPath(root: Path): Path { root + [".heliopause-pypi-transaction.lock"] }
  function ConfigPath(root: Path): Path { root + ["pyvenv.cfg"] }
  function MetadataDir(root: Path): Path { root + [".heliopause"] }

  /** The roots that every check looks at. */
  function FixedPaths(root: Path): set<Path> {
    {root, SchemeRoot(root, "site").value, SchemeRoot(root, "scripts").value,
     SchemeRoot(root, "data").value, SchemeRoot(root, "headers").value, MetadataDir(root)}
  }

  predicate GuardHeld(names: Names, f: Frame) {
    var p := LockPath(f.root);
    SingleLinkFile(names, p) && names[p].inode == f.guard.inode
  }

  predicate SameDirectory(names: Names, directories: Names, q: Path)
    requires q in directories
  {
    q in names && names[q].Dir? && names[q] == directories[q]
  }

  /** `verifyIdentity`. */
  predicate Identity(names: Names, f: Frame) {
    && GuardHeld(names, f)
    && Matches(names, ConfigPath(f.root), f.config)
    && (forall q :: q in f.directories ==> SameDirectory(names, f.directories, q))
    && (forall q :: q in f.absent ==> q !in names)
  }

  predicate PlannedAt(names: Names, f: Frame, q: Path) {
    if q in f.directories then SameDirectory(names, f.directories, q)
    else q in f.absent && q !in names
  }

  /** `verifyPathIdentity`: the fixed roots and the ancestry of one path. */
  predicate PathIdentity(names: Names, f: Frame, p: Path) {
    && GuardHeld(names, f)
    && Matches(names, ConfigPath(f.root), f.config)
    && (forall q :: q in FixedPaths(f.root) ==> PlannedAt(names, f, q))
    && (forall k :: 0 <= k <= |p| ==> PlannedAt(names, f, p[..k]))
  }

  /** `openParent` succeeds: the parent is a frozen directory and still itself. */
  predicate ParentOpens(names: Names, f: Frame, p: Path) {
    |p| > 0 && Parent(p) in f.directories && PathIdentity(names, f, Parent(p))
  }

  predicate Known(f: Frame, q: Path) {
    q in f.directories || q in f.absent
  }

  /** `freezeParents` has been here. */
  ghost predicate Covers(f: Frame, p: Path) {
    forall k :: 0 <= k <= |p| ==> Known(f, p[..k])
  }

  ghost predicate CoversFixed(f: Frame) {
    forall q :: q in FixedPaths(f.root) ==> Known(f, q)
  }

  lemma IdentityGivesPath(names: Names, f: Frame, p: Path)
    requires Identity(names, f) && CoversFixed(f) && Covers(f, p)
    ensures PathIdentity(names, f, p)
  {
    forall q | Known(f, q) ensures PlannedAt(names, f, q) {
      if q in f.directories {
        assert SameDirectory(names, f.directories, q);
      }
    }
    forall k | 0 <= k <= |p| ensures PlannedAt(names, f, p[..k]) {
      assert Known(f, p[..k]);
    }
  }

  /** The places a transaction changes are neither the lock nor the
      configuration. */
  predicate Ordinary(root: Path, p: Path) {
    p != LockPath(root) && p != ConfigPath(root)
  }

  lemma IdentityAfterRename(names: Names, f: Frame, from: Path, to: Path)
    requires Identity(names, f) && CanRename(names, from, to) && names[from].File?
    requires Ordinary(f.root, from) && to !in f.absent
    ensures Identity(Moved(names, from, to), f)
  {
    forall q | q in f.directories
      ensures SameDirectory(Moved(names, from, to), f.directories, q)
    {
      assert SameDirectory(names, f.directories, q);
    }
  }

  lemma IdentityAfterRemove(names: Names, f: Frame, p: Path)
    requires Identity(names, f) && p in names && names[p].File? && Ordinary(f.root, p)
    ensures Identity(names - {p}, f)
  {
    forall q | q in f.directories
      ensures SameDirectory(names - {p}, f.directories, q)
    {
      assert SameDirectory(names, f.directories, q);
    }
  }

  lemma IdentityAfterCreate(names: Names, f: Frame, p: Path, made: Object)
    requires Identity(names, f) && p !in names && p !in f.absent
    ensures Identity(names[p := made], f)
  {
    forall q | q in f.directories
      ensures SameDirectory(names[p := made], f.directories, q)
    {
      assert SameDirectory(names, f.directories, q);
    }
  }

  lemma IdentityAfterWrite(names: Names, f: Frame, p: Path, made: Object)
    requires Identity(names, f) && p in names && names[p].File? && Ordinary(f.root, p)
    ensures Identity(names[p := made], f)
  {
    forall q | q in f.directories
      ensures SameDirectory(names[p := made], f.directories, q)
    {
      assert SameDirectory(names, f.directories, q);
    }
  }

  lemma IdentityAfterMkdir(names: Names, f: Frame, p: Path, made: Object)
    requires Identity(names, f) && p !in names && made.Dir?
    ensures Identity(names[p := made], f.(directories := f.directories[p := made], absent := f.absent - {p}))
  {
    var g := f.(directories := f.directories[p := made], absent := f.absent - {p});
    forall q | q in g.directories
      ensures SameDirectory(names[p := made], g.directories, q)
    {
      if q != p {
        assert SameDirectory(names, f.directories, q);
      }
    }
  }

  lemma IdentityAfterRmdir(names: Names, f: Frame, p: Path)
    requires Identity(names, f) && p in f.directories
    ensures Identity(names - {p}, f.(directories := f.directories - {p}, absent := f.absent + {p}))
  {
    var g := f.(directories := f.directories - {p}, absent := f.absent + {p});
    assert SameDirectory(names, f.directories, p);
    forall q | q in g.directories
      ensures SameDirectory(names - {p}, g.directories, q)
    {
      assert SameDirectory(names, f.directories, q);
    }
  }

  lemma CoversGrow(f: Frame, g: Frame, p: Path)
    requires Covers(f, p)
    requires forall q :: Known(f, q) ==> Known(g, q)
    ensures Covers(g, p)
  {
  }
}
