/** The names a Go project transaction works with, as a small disk.  A hard link
    is a second name of the same inode; every state the disk has been in is
    remembered, because a crash can happen in any of them. */
module GoDisk {
  import opened Wrappers

  datatype Control = Mod | Sum

  /** Directories are named by what they are for; `Foreign` names are what
      another writer adds to the commit directory or to the one below it. */
  datatype Name =
    | Lock | Project(control: Control)
    | MetadataDirectory | Metadata | MetadataTemp
    | CommitDirectory | SelectedDirectory
    | Selected(control: Control) | Moved(control: Control) | MovedMetadata
    | Approval | ApprovalTemp(id: nat)
    | Foreign(selected: bool, id: nat)

  /** A control file, the project marker, or a retained approval: the last two
      name the control files they are about. */
  datatype Content =
    | Body(text: string, dependencyFree: bool)
    | Record(mod: Content, sum: Content)
    | Approved(mod: Content, sum: Content, cache: string)

  /** `others` counts the hard links a file has besides those a publication or a
      restoration makes.  Should `go.mod` and `go.sum` be links to one file, each
      counts the other there, and their inodes are told apart. */
  datatype Object =
    | File(inode: nat, content: Content, others: nat)
    | Directory(inode: nat)

  type Names = map<Name, Object>

  function At(names: Names, n: Name): Option<Object> {
    if n in names then Some(names[n]) else None
  }

  function Above(n: Name): Option<Name> {
    match n
    case Metadata | MetadataTemp => Some(MetadataDirectory)
    case SelectedDirectory | Moved(_) | MovedMetadata => Some(CommitDirectory)
    case Selected(_) => Some(SelectedDirectory)
    case Foreign(selected, _) => Some(if selected then SelectedDirectory else CommitDirectory)
    case _ => None
  }

  predicate Placed(names: Names, n: Name) {
    Above(n).Some? ==> Above(n).value in names && names[Above(n).value].Directory?
  }

  predicate Empty(names: Names, d: Name) {
    forall n :: n in names ==> Above(n) != Some(d)
  }

  predicate FileAt(names: Names, n: Name) {
    n in names && names[n].File?
  }

  /** The names that may be two links to one file while a publication or a
      restoration is under way. */
  predicate Kin(m: Name, n: Name) {
    || (m.Project? && (n == Selected(m.control) || n == Moved(m.control)))
    || (n.Project? && (m == Selected(n.control) || m == Moved(n.control)))
    || (m == Metadata && n == MovedMetadata) || (n == Metadata && m == MovedMetadata)
    || (m == Approval && n.ApprovalTemp?) || (n == Approval && m.ApprovalTemp?)
  }

  ghost predicate Apart(names: Names) {
    forall m, n :: m in names && n in names && m != n && names[m].inode == names[n].inode ==> Kin(m, n)
  }

  /** No other name of the transaction has this inode. */
  predicate Alone(names: Names, n: Name)
    requires n in names
  {
    forall m :: m in names && m != n ==> names[m].inode != names[n].inode
  }

  /** `pypiSingleLink`. */
  predicate SingleLink(names: Names, n: Name) {
    FileAt(names, n) && names[n].others == 0 && Alone(names, n)
  }

  ghost predicate WellFormed(names: Names, next: nat) {
    && (forall n :: n in names ==> Placed(names, n) && names[n].inode < next)
    && (forall n :: n in names && n.ApprovalTemp? ==> n.id < next)
    && Apart(names)
  }

  class Disk {
    var names: Names
    var next: nat
    var faults: nat
    ghost var trace: seq<Names>

    ghost predicate Valid()
      reads this`names, this`next, this`trace
    {
      WellFormed(names, next) && |trace| > 0 && trace[|trace| - 1] == names
    }

    lemma ValidParts()
      requires Valid()
      ensures WellFormed(names, next) && |trace| > 0 && trace[|trace| - 1] == names
    {
    }

    method Try() returns (ok: bool)
      modifies this`faults
      ensures faults == old(faults) + (if ok then 0 else 1)
    {
      ok := *;
      if !ok {
        faults := faults + 1;
      }
    }

    /** No-replace rename. */
    method Rename(from: Name, to: Name) returns (ok: bool)
      requires Valid() && (FileAt(names, from) ==> Alone(names, from)) && !to.ApprovalTemp?
      requires from in names ==> names[from].File?
      modifies this
      ensures Valid() && next == old(next) && faults >= old(faults)
      ensures ok <==> faults == old(faults) && from in old(names) && to !in old(names) && Placed(old(names), to)
      ensures names == if ok then (old(names) - {from})[to := old(names)[from]] else old(names)
      ensures trace == if ok then old(trace) + [names] else old(trace)
    {
      ok := Try();
      ok := ok && from in names && to !in names && Placed(names, to);
      if ok {
        names := (names - {from})[to := names[from]];
        trace := trace + [names];
      }
    }

    /** Rename over whatever file is there. */
    method Replace(from: Name, to: Name) returns (ok: bool)
      requires Valid() && (FileAt(names, from) ==> Alone(names, from)) && from != to && !to.ApprovalTemp?
      requires (from in names ==> names[from].File?) && (to in names ==> names[to].File?)
      modifies this
      ensures Valid() && next == old(next) && faults >= old(faults)
      ensures ok <==> faults == old(faults) && from in old(names) && Placed(old(names), to)
      ensures names == if ok then (old(names) - {from})[to := old(names)[from]] else old(names)
      ensures trace == if ok then old(trace) + [names] else old(trace)
    {
      ok := Try();
      ok := ok && from in names && Placed(names, to);
      if ok {
        names := (names - {from})[to := names[from]];
        trace := trace + [names];
      }
    }

    method Link(from: Name, to: Name) returns (ok: bool)
      requires Valid() && Kin(from, to) && !to.ApprovalTemp? && (FileAt(names, from) ==> Alone(names, from))
      modifies this
      ensures Valid() && next == old(next) && faults >= old(faults)
      ensures ok <==> faults == old(faults) && FileAt(old(names), from) && to !in old(names) && Placed(old(names), to)
      ensures names == if ok then old(names)[to := old(names)[from]] else old(names)
      ensures trace == if ok then old(trace) + [names] else old(trace)
    {
      ok := Try();
      ok := ok && FileAt(names, from) && to !in names && Placed(names, to);
      if ok {
        names := names[to := names[from]];
        trace := trace + [names];
      }
    }

    /** A file, or an empty directory. */
    method Remove(n: Name) returns (ok: bool)
      requires Valid()
      modifies this
      ensures Valid() && next == old(next) && faults >= old(faults)
      ensures ok <==> faults == old(faults) && n in old(names) && (old(names)[n].Directory? ==> Empty(old(names), n))
      ensures names == if ok then old(names) - {n} else old(names)
      ensures trace == if ok then old(trace) + [names] else old(trace)
    {
      ok := Try();
      ok := ok && n in names && (names[n].Directory? ==> Empty(names, n));
      if ok {
        if names[n].File? {
          FileHasNoneBelow(names, n, next);
        }
        names := names - {n};
        trace := trace + [names];
      }
    }

    method Create(n: Name, directory: bool, content: Content) returns (ok: bool, made: Object)
      requires Valid() && (n.ApprovalTemp? ==> n.id <= next)
      modifies this
      ensures Valid() && faults >= old(faults) && next == old(next) + (if ok then 1 else 0)
      ensures ok <==> faults == old(faults) && n !in old(names) && Placed(old(names), n)
      ensures made == if directory then Directory(old(next)) else File(old(next), content, 0)
      ensures names == if ok then old(names)[n := made] else old(names)
      ensures trace == if ok then old(trace) + [names] else old(trace)
    {
      made := if directory then Directory(next) else File(next, content, 0);
      ok := Try();
      ok := ok && n !in names && Placed(names, n);
      if ok {
        names, next := names[n := made], next + 1;
        trace := trace + [names];
      }
    }

    /** From here on the states are remembered anew. */
    ghost method Remember()
      requires Valid()
      modifies this`trace
      ensures Valid() && trace == [names]
    {
      trace := [names];
    }

    /** Another writer may add a name to the directories of the transaction. */
    method Interfere()
      requires Valid()
      modifies this
      ensures Valid() && faults == old(faults) && next >= old(next)
      ensures names.Keys >= old(names).Keys && forall n :: n in old(names) ==> names[n] == old(names)[n]
      ensures forall n :: n in names && n !in old(names) ==> n.Foreign? && names[n].inode >= old(next)
      ensures trace == old(trace) || trace == old(trace) + [names]
    {
      var selected: bool := *;
      var id: nat := *;
      var n := Foreign(selected, id);
      var wanted: bool := *;
      if wanted && n !in names && Placed(names, n) {
        names, next := names[n := File(next, Body("", true), 0)], next + 1;
        trace := trace + [names];
      }
    }
  }

  lemma PlacedOf(names: Names, next: nat)
    requires WellFormed(names, next)
    ensures forall n :: n in names ==> Placed(names, n)
  {
  }

  lemma FileHasNoneBelow(names: Names, n: Name, next: nat)
    requires WellFormed(names, next) && n in names && names[n].File?
    ensures Empty(names, n)
  {
  }
}
