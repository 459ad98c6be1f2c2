/** The file system a transaction works on.  An object is what `Lstat` and a
    content hash can tell apart: its inode, its content, its permission bits
    and, for a file, its link count.  A rename carries the object along. */
module FileSystem {
  import Records

  type Path = seq<string>

  datatype Object =
    | File(inode: nat, content: Records.Content, mode: nat, links: nat)
    | Dir(inode: nat, mode: nat)

  type Names = map<Path, Object>

  function Parent(p: Path): Path
    requires |p| > 0
  {
    p[..|p| - 1]
  }

  /** `filepath.Dir` of an absolute path: the root is its own parent. */
  function Up(p: Path): Path {
    if |p| == 0 then p else Parent(p)
  }

  predicate Prefix(a: Path, b: Path) {
    |a| <= |b| && b[..|a|] == a
  }

  /** `pathWithin`: strictly below. */
  predicate Within(root: Path, p: Path) {
    |root| < |p| && p[..|root|] == root
  }

  predicate IsDir(names: Names, p: Path) {
    p in names && names[p].Dir?
  }

  /** Every name has a directory for parent. */
  ghost predicate Tree(names: Names) {
    && IsDir(names, [])
    && forall p :: p in names && |p| > 0 ==> IsDir(names, Parent(p))
  }

  /** `snapshotPyPIFile(...)` followed by `matches`: a single-link regular file
      that is still the recorded object. */
  predicate Matches(names: Names, p: Path, snapshot: Object) {
    p in names && names[p] == snapshot && snapshot.File? && snapshot.links == 1
  }

  predicate SingleLinkFile(names: Names, p: Path) {
    p in names && names[p].File? && names[p].links == 1
  }

  predicate HasChild(names: Names, p: Path) {
    exists q :: q in names && |q| > 0 && Parent(q) == p
  }

  function Children(names: Names, p: Path): set<Path> {
    set q | q in names && |q| > 0 && Parent(q) == p
  }

  predicate CanRename(names: Names, from: Path, to: Path) {
    from in names && to !in names && |to| > 0 && IsDir(names, Parent(to))
  }

  predicate CanRemove(names: Names, p: Path) {
    p in names && |p| > 0 && (names[p].Dir? ==> !HasChild(names, p))
  }

  predicate CanCreate(names: Names, p: Path) {
    p !in names && |p| > 0 && IsDir(names, Parent(p))
  }

  function Moved(names: Names, from: Path, to: Path): Names
    requires from in names
  {
    (names - {from})[to := names[from]]
  }

  lemma {:induction false} AncestorIsDir(names: Names, p: Path, k: nat)
    requires Tree(names) && p in names && k < |p|
    ensures IsDir(names, p[..k])
    decreases |p|
  {
    if k < |p| - 1 {
      AncestorIsDir(names, Parent(p), k);
      assert Parent(p)[..k] == p[..k];
    }
  }

  lemma RenameKeepsTree(names: Names, from: Path, to: Path)
    requires Tree(names) && CanRename(names, from, to) && names[from].File?
    ensures Tree(Moved(names, from, to))
  {
  }

  lemma RemoveKeepsTree(names: Names, p: Path)
    requires Tree(names) && CanRemove(names, p)
    ensures Tree(names - {p})
  {
  }

  /** Counts the faults at checkpoints, where nothing but the checkpoint fails, and
      those that strike between an effect and its record.  A venv
      transaction has five such places: freezing the backup directory it has made,
      the first look at the ledger it has made, the look at a directory it has made
      in a scheme, writing `next-metadata` once it exists, and everything between
      that and its snapshot. */
  class Tally {
    ghost var slips: nat
    ghost var checkpoints: nat

    constructor ()
      ensures slips == 0 && checkpoints == 0
    {
      slips, checkpoints := 0, 0;
    }

    ghost method Count(n: nat)
      modifies this`slips
      ensures slips == old(slips) + n
    {
      slips := slips + n;
    }
  }

  /** The disk.  Every primitive takes full effect or none, and any of them may
      fail for no visible reason; `faults` counts those failures. */
  class Disk {
    var names: Names
    var faults: nat
    const tally: Tally

    constructor (names: Names)
      requires Tree(names)
      ensures this.names == names && faults == 0 && tally.slips == 0 && tally.checkpoints == 0 && fresh(tally)
    {
      this.names, faults := names, 0;
      tally := new Tally();
    }

    /** One chance for the host to report an error. */
    method Try() returns (ok: bool)
      modifies this`faults
      ensures faults == old(faults) + (if ok then 0 else 1)
    {
      ok := *;
      if !ok {
        faults := faults + 1;
      }
    }

    /** `step`: one chance for a checkpoint to fail. */
    method Step() returns (ok: bool)
      modifies this`faults, tally`checkpoints
      ensures faults == old(faults) + (if ok then 0 else 1)
      ensures tally.checkpoints == old(tally.checkpoints) + (if ok then 0 else 1)
    {
      ok := Try();
      if !ok {
        tally.checkpoints := tally.checkpoints + 1;
      }
    }

    /** No more faults at checkpoints than faults. */
    twostate predicate Checked()
      reads this`faults, tally`checkpoints
    {
      && old(tally.checkpoints) <= tally.checkpoints
      && tally.checkpoints - old(tally.checkpoints) <= faults - old(faults)
    }

    method Rename(from: Path, to: Path) returns (ok: bool)
      requires Tree(names)
      requires from in names ==> names[from].File?
      modifies this
      ensures Tree(names)
      ensures faults == old(faults) || faults == old(faults) + 1
      ensures ok <==> CanRename(old(names), from, to) && faults == old(faults)
      ensures names == if ok then Moved(old(names), from, to) else old(names)
    {
      var lucky := Try();
      ok := lucky && CanRename(names, from, to);
      if ok {
        RenameKeepsTree(names, from, to);
        names := Moved(names, from, to);
      }
    }

    /** `os.Remove`: a file, or an empty directory. */
    method Remove(p: Path) returns (ok: bool)
      requires Tree(names)
      modifies this
      ensures Tree(names)
      ensures faults == old(faults) || faults == old(faults) + 1
      ensures ok <==> CanRemove(old(names), p) && faults == old(faults)
      ensures names == if ok then old(names) - {p} else old(names)
    {
      var lucky := Try();
      ok := lucky && CanRemove(names, p);
      if ok {
        names := names - {p};
      }
    }

    /** Exclusive creation of a file or directory. */
    method Create(p: Path, made: Object) returns (ok: bool)
      requires Tree(names)
      modifies this
      ensures Tree(names)
      ensures faults == old(faults) || faults == old(faults) + 1
      ensures ok <==> CanCreate(old(names), p) && faults == old(faults)
      ensures names == if ok then old(names)[p := made] else old(names)
    {
      var lucky := Try();
      ok := lucky && CanCreate(names, p);
      if ok {
        names := names[p := made];
      }
    }

    /** A write to an open file: the inode, mode and links stay. */
    method Write(p: Path, content: Records.Content)
      requires Tree(names) && p in names && names[p].File?
      modifies this`names
      ensures Tree(names)
      ensures names == old(names)[p := old(names)[p].(content := content)]
    {
      names := names[p := names[p].(content := content)];
    }
  }
}
