/** The inventory check and the removal of a commit directory.  Only recorded
    members are removed: a name that another writer adds survives, and makes the
    removal fail. */
module ControlBackup {
  import opened Wrappers
  import opened GoDisk

  ghost predicate SameAt(a: Names, b: Names, n: Name) {
    At(a, n) == At(b, n)
  }

  /** Names inside the commit directory, and the directory itself. */
  predicate InCommit(n: Name) {
    n == CommitDirectory || n == SelectedDirectory || n.Selected? || n.Moved? || n == MovedMetadata || n.Foreign?
  }

  /** The members a transaction may record. */
  predicate Recordable(n: Name) {
    n.Selected? || n.Moved? || n == MovedMetadata
  }

  predicate Recording(records: Names) {
    forall n :: n in records ==> Recordable(n)
  }

  // ---------------------------------------------------------- crash points

  /** Every state passed through since, the last aside, has the commit directory. */
  ghost predicate Marking(a: seq<Names>, b: seq<Names>) {
    && |a| <= |b| && b[..|a|] == a
    && forall i :: |a| <= i < |b| - 1 ==> CommitDirectory in b[i]
  }

  lemma MarkingTwice(a: seq<Names>, b: seq<Names>, c: seq<Names>)
    requires Marking(a, b) && Marking(b, c) && |a| > 0 && CommitDirectory in b[|b| - 1]
    ensures Marking(a, c)
  {
    assert c[..|b|] == b;
    assert c[..|a|] == b[..|a|];
    forall i | |a| <= i < |c| - 1 ensures CommitDirectory in c[i] {
      if i < |b| {
        assert c[i] == b[i];
      }
    }
  }

  lemma MarkingOne(a: seq<Names>, b: seq<Names>, names: Names)
    requires b == a || b == a + [names]
    ensures Marking(a, b)
  {
  }

  // -------------------------------------------------------------- removals

  /** What a removal may do: take recorded members, never a name that another
      writer added, and leave everything outside alone. */
  ghost predicate Swept(a: Names, b: Names, records: Names) {
    && (forall n :: !InCommit(n) ==> SameAt(a, b, n))
    && (forall n :: n in a && n.Foreign? ==> n in b)
    && (forall n :: n in b ==> n.Foreign? || (n in a && b[n] == a[n]))
    && (forall n :: n in a && n !in b ==>
        (n in records && a[n] == records[n]) || n == SelectedDirectory || n == CommitDirectory)
  }

  ghost predicate Visited(names: Names) {
    exists n :: n in names && n.Foreign?
  }

  lemma Unchanged(names: Names)
    ensures forall n :: SameAt(names, names, n)
  {
  }

  lemma SweptNothing(a: Names, records: Names)
    ensures Swept(a, a, records)
  {
  }

  lemma SweptTwice(a: Names, b: Names, c: Names, records: Names)
    requires Swept(a, b, records) && Swept(b, c, records)
    ensures Swept(a, c, records)
    ensures Visited(b) ==> Visited(c)
  {
    forall n | !InCommit(n) ensures SameAt(a, c, n) {
      assert SameAt(a, b, n) && SameAt(b, c, n);
    }
    if Visited(b) {
      var n :| n in b && n.Foreign?;
      assert n in c;
    }
  }

  lemma SweptRemoved(a: Names, records: Names, n: Name)
    requires n in a
    requires ((Recordable(n) && n in records && a[n] == records[n]) || n == SelectedDirectory || n == CommitDirectory)
    ensures Swept(a, a - {n}, records)
  {
  }

  /** Another writer has only added foreign names. */
  ghost predicate Grown(a: Names, b: Names, next: nat) {
    && (forall m :: m in a ==> m in b && b[m] == a[m])
    && (forall m :: m in b && m !in a ==> m.Foreign? && b[m].inode >= next)
  }

  lemma GrownFrom(a: Names, b: Names, next: nat)
    requires b.Keys >= a.Keys && forall n :: n in a ==> b[n] == a[n]
    requires forall n :: n in b && n !in a ==> n.Foreign? && b[n].inode >= next
    ensures Grown(a, b, next)
  {
  }

  lemma SweptGrown(a: Names, b: Names, records: Names, next: nat)
    requires Grown(a, b, next)
    ensures Swept(a, b, records)
  {
  }

  lemma GrownElsewhere(a: Names, b: Names, next: nat)
    requires Grown(a, b, next)
    ensures forall n: Name :: !n.Foreign? ==> SameAt(a, b, n)
  {
  }

  // ------------------------------------------------------------- inventory

  predicate MemberMatches(names: Names, records: Names, n: Name) {
    n in records && SingleLink(names, n) && names[n] == records[n]
  }

  /** The members of one directory, the staging directory aside. */
  function MembersOf(names: Names, d: Name): set<Name> {
    set n | n in names && Above(n) == Some(d) && n != SelectedDirectory
  }

  function RecordsOf(records: Names, d: Name): set<Name> {
    set n | n in records && Above(n) == Some(d)
  }

  predicate SameDirectory(names: Names, d: Name, info: Option<Object>) {
    info.Some? && d in names && names[d].Directory? && names[d].inode == info.value.inode
  }

  /** One directory holds exactly its recorded members. */
  ghost predicate DirectoryMatches(names: Names, d: Name, info: Option<Object>, records: Names) {
    || (info.None? && d !in names)
    || (SameDirectory(names, d, info) && MembersOf(names, d) == RecordsOf(records, d)
        && forall n :: n in MembersOf(names, d) ==> MemberMatches(names, records, n))
  }

  ghost predicate Inventory(names: Names, info: Option<Object>, selectedInfo: Option<Object>, records: Names) {
    DirectoryMatches(names, CommitDirectory, info, records) &&
      DirectoryMatches(names, SelectedDirectory, selectedInfo, records)
  }

  const RECORDABLE: set<Name> := {Moved(Mod), Moved(Sum), Selected(Mod), Selected(Sum), MovedMetadata}

  lemma FewMembers(names: Names, d: Name, records: Names)
    requires Recording(records)
    ensures |RecordsOf(records, d)| <= 5
  {
    forall n | n in RecordsOf(records, d) ensures n in RECORDABLE {
      assert Recordable(n);
      if n != MovedMetadata {
        assert n.control == Mod || n.control == Sum;
      }
    }
    SubsetSize(RecordsOf(records, d), RECORDABLE);
  }

  lemma KnownMembers(names: Names, d: Name, records: Names)
    requires forall n :: n in MembersOf(names, d) ==> MemberMatches(names, records, n)
    ensures MembersOf(names, d) <= RecordsOf(records, d)
  {
  }

  /** `checkControlBackup` for one directory: bounded, counted, each entry looked
      up. */
  method CheckDirectory(disk: Disk, d: Name, info: Option<Object>, records: Names) returns (ok: bool)
    requires Recording(records)
    modifies disk`faults
    ensures disk.faults >= old(disk.faults)
    ensures ok <==> disk.faults == old(disk.faults) && DirectoryMatches(disk.names, d, info, records)
  {
    hide Recording, MemberMatches, SameDirectory;
    ok := disk.Try();
    if !ok { return; }
    if info.None? && d !in disk.names { return; }
    ok := SameDirectory(disk.names, d, info);
    NeedsInfo(disk.names, d, info);
    if !ok { return; }
    var entries := MembersOf(disk.names, d);
    var listed := set n | n in disk.names && Above(n) == Some(d);
    FewMembers(disk.names, d, records);
    SubsetSize(listed, entries + {SelectedDirectory});
    ok := |listed| < 8;
    var todo, count := entries, 0;
    while ok && todo != {}
      invariant todo <= entries && disk.faults >= old(disk.faults)
      invariant count + |todo| == |entries| || !ok
      invariant ok ==>
        disk.faults == old(disk.faults) && forall n :: n in entries - todo ==> MemberMatches(disk.names, records, n)
      invariant !ok && disk.faults == old(disk.faults) ==> !DirectoryMatches(disk.names, d, info, records)
      decreases ok, |todo|
    {
      var n :| n in todo;
      var lucky := disk.Try();
      ok := lucky && MemberMatches(disk.names, records, n);
      todo, count := todo - {n}, count + 1;
    }
    if ok {
      KnownMembers(disk.names, d, records);
      ok := count == |RecordsOf(records, d)|;
      if ok {
        SubsetOfSameSize(entries, RecordsOf(records, d));
      }
    }
  }

  lemma DirectoryParts(names: Names, d: Name, info: Option<Object>)
    requires SameDirectory(names, d, info)
    ensures d in names && names[d].Directory?
  {
  }

  lemma DirectoryStays(a: Names, b: Names, d: Name, info: Option<Object>)
    requires SameDirectory(a, d, info) && d in b && b[d] == a[d]
    ensures SameDirectory(b, d, info)
  {
  }

  lemma NeedsInfo(names: Names, d: Name, info: Option<Object>)
    ensures SameDirectory(names, d, info) ==> info.Some? && d in names
  {
  }

  /** The members of the commit directory, and of the staging directory in it. */
  ghost predicate Member(d: Name, n: Name) {
    if d == CommitDirectory then n.Moved? || n == MovedMetadata || (n.Foreign? && !n.selected)
    else d == SelectedDirectory && (n.Selected? || (n.Foreign? && n.selected))
  }

  /** What the inventory of a directory is: the directory that was made, or none
      where none was; every record in it, and nothing but the very files recorded,
      each without a second name. */
  lemma DirectoryExactly(names: Names, d: Name, info: Option<Object>, records: Names)
    requires (d == CommitDirectory || d == SelectedDirectory) && Recording(records)
    ensures DirectoryMatches(names, d, info, records) <==>
      if info.None? then d !in names
      else
        && d in names && names[d].Directory? && names[d].inode == info.value.inode
        && (forall n :: n in records && Member(d, n) ==> n in names)
        && forall n :: n in names && Member(d, n) ==>
            && n in records && names[n] == records[n] && names[n].File? && names[n].others == 0
            && forall m :: m in names && m != n ==> names[m].inode != names[n].inode
  {
    hide MemberMatches, Member, SameDirectory;
    SameDirectoryExactly(names, d, info);
    var members, wanted := MembersOf(names, d), RecordsOf(records, d);
    forall n ensures n in members <==> n in names && Member(d, n) {
      MemberAbove(d, n);
    }
    forall n ensures n in wanted <==> n in records && Member(d, n) {
      MemberAbove(d, n);
    }
    assert members == wanted <==>
      (forall n :: n in members ==> n in wanted) && forall n :: n in wanted ==> n in members;
    forall n | n in names ensures MemberMatches(names, records, n) <==>
      && n in records && names[n] == records[n] && names[n].File? && names[n].others == 0
      && forall m :: m in names && m != n ==> names[m].inode != names[n].inode {
      MatchesExactly(names, records, n);
    }
  }

  lemma SameDirectoryExactly(names: Names, d: Name, info: Option<Object>)
    ensures SameDirectory(names, d, info) <==>
      info.Some? && d in names && names[d].Directory? && names[d].inode == info.value.inode
  {
  }

  lemma MatchesExactly(names: Names, records: Names, n: Name)
    ensures MemberMatches(names, records, n) <==>
      && n in names && n in records && names[n] == records[n] && names[n].File? && names[n].others == 0
      && forall m :: m in names && m != n ==> names[m].inode != names[n].inode
  {
  }

  lemma MemberAbove(d: Name, n: Name)
    requires d == CommitDirectory || d == SelectedDirectory
    ensures Above(n) == Some(d) && n != SelectedDirectory <==> Member(d, n)
  {
  }

  /** `checkControlBackup`. */
  method CheckControlBackup(disk: Disk, info: Option<Object>, selectedInfo: Option<Object>, records: Names)
    returns (ok: bool)
    requires Recording(records)
    modifies disk`faults
    ensures disk.faults >= old(disk.faults)
    ensures ok <==> disk.faults == old(disk.faults) && Inventory(disk.names, info, selectedInfo, records)
  {
    hide DirectoryMatches, Recording;
    ok := CheckDirectory(disk, CommitDirectory, info, records);
    if ok {
      ok := CheckDirectory(disk, SelectedDirectory, selectedInfo, records);
    }
  }

  /** One recorded member is compared and removed. */
  method RemoveMember(disk: Disk, n: Name, records: Names) returns (ok: bool)
    requires disk.Valid() && n in records && Recordable(n)
    modifies disk
    ensures disk.Valid() && disk.faults >= old(disk.faults) && Marking(old(disk.trace), disk.trace)
    ensures Swept(old(disk.names), disk.names, records)
    ensures forall m :: m != n ==> SameAt(old(disk.names), disk.names, m)
    ensures ok ==> disk.faults == old(disk.faults) && n !in disk.names
    ensures !ok && disk.faults == old(disk.faults) ==> !MemberMatches(old(disk.names), records, n)
  {
    hide *;
    SweptNothing(disk.names, records);
    MarkingOne(disk.trace, disk.trace, disk.names);
    Unchanged(disk.names);
    ok := disk.Try();
    if !ok { return; }
    ok := MemberMatches(disk.names, records, n);
    if !ok { return; }
    ghost var was := disk.names;
    RemovableMember(was, records, n);
    ok := disk.Remove(n);
    MarkingOne(old(disk.trace), disk.trace, disk.names);
    if ok {
      SweptRemoved(was, records, n);
      OnlyOneGone(was, n);
    }
  }

  lemma RemovableMember(names: Names, records: Names, n: Name)
    requires MemberMatches(names, records, n)
    ensures n in names && n in records && names[n] == records[n] && !names[n].Directory?
  {
  }

  lemma OnlyOneGone(names: Names, n: Name)
    ensures forall m :: m != n ==> SameAt(names, names - {n}, m)
  {
  }

  /** How far the removal of the members has come. */
  ghost predicate Sweeping(start: Names, names: Names, records: Names, todo: set<Name>, ok: bool) {
    && Swept(start, names, records) && CommitDirectory in names
    && SameAt(start, names, SelectedDirectory) && SameAt(start, names, CommitDirectory)
    && (ok ==>
        (forall n :: n in records.Keys - todo ==> n !in names) && forall n :: n in todo ==> SameAt(start, names, n))
  }

  /** Every failure without a fault has a cause. */
  ghost predicate Caused(start: Names, names: Names, records: Names) {
    Visited(names) || exists n :: n in records && !MemberMatches(start, records, n)
  }

  lemma SweepStarts(names: Names, records: Names)
    requires CommitDirectory in names
    ensures Sweeping(names, names, records, records.Keys, true)
  {
  }

  lemma SweepNext(start: Names, was: Names, grown: Names, names: Names, next: nat, records: Names, todo: set<Name>,
      n: Name, ok: bool)
    requires Sweeping(start, was, records, todo, true) && Grown(was, grown, next) && Recording(records)
    requires todo <= records.Keys && n in todo
    requires Swept(grown, names, records) && (forall m :: m != n ==> SameAt(grown, names, m)) && (ok ==> n !in names)
    ensures Sweeping(start, names, records, todo - {n}, ok)
  {
    hide Swept;
    SweptGrown(was, grown, records, next);
    SweptTwice(start, was, grown, records);
    SweptTwice(start, grown, names, records);
    assert Recordable(n);
    assert SameAt(grown, names, SelectedDirectory) && SameAt(grown, names, CommitDirectory);
    if ok {
      forall m | m in records.Keys - (todo - {n}) ensures m !in names {
        assert Recordable(m);
        assert m != n ==> SameAt(grown, names, m);
      }
      forall m | m in todo - {n} ensures SameAt(start, names, m) {
        assert Recordable(m) && SameAt(grown, names, m);
      }
    }
  }

  lemma SweepGrown(start: Names, was: Names, grown: Names, next: nat, records: Names, todo: set<Name>, n: Name)
    requires Sweeping(start, was, records, todo, true) && Grown(was, grown, next) && Recording(records) && n in records
    ensures CommitDirectory in was && CommitDirectory in grown && Recordable(n)
  {
  }

  lemma SweepMarked(start: Names, names: Names, records: Names, todo: set<Name>, ok: bool)
    requires Sweeping(start, names, records, todo, ok)
    ensures CommitDirectory in names
  {
  }

  /** Without another writer the member is as it was at the start. */
  lemma CauseOf(start: Names, was: Names, grown: Names, names: Names, next: nat, records: Names, todo: set<Name>,
      n: Name)
    requires WellFormed(was, next)
    requires Sweeping(start, was, records, todo, true) && Grown(was, grown, next) && Recording(records)
    requires todo <= records.Keys && n in todo
    requires Swept(grown, names, records) && !MemberMatches(grown, records, n)
    ensures Caused(start, names, records)
  {
    assert Recordable(n);
    if !Visited(names) {
      assert SameAt(start, was, n) && SameAt(was, grown, n);
      if MemberMatches(start, records, n) {
        forall m | m in grown && m != n ensures grown[m].inode != grown[n].inode {
          assert m.Foreign? ==> m in names;
          assert m in was;
          assert m in start;
        }
      }
    }
  }

  lemma SweepEnds(start: Names, names: Names, records: Names, todo: set<Name>, ok: bool)
    requires Sweeping(start, names, records, todo, ok) && (ok ==> todo == {})
    ensures Swept(start, names, records) && CommitDirectory in names
    ensures SameAt(start, names, SelectedDirectory) && SameAt(start, names, CommitDirectory)
    ensures ok ==> forall n :: n in records ==> n !in names
  {
  }

  /** The next recorded member; meanwhile another writer may come by. */
  method RemoveNext(disk: Disk, n: Name, records: Names, ghost todo: set<Name>, ghost start: Names) returns (ok: bool)
    requires disk.Valid() && Recording(records) && todo <= records.Keys && n in todo
    requires Sweeping(start, disk.names, records, todo, true)
    modifies disk
    ensures disk.Valid() && disk.faults >= old(disk.faults) && Marking(old(disk.trace), disk.trace)
    ensures Sweeping(start, disk.names, records, todo - {n}, ok)
    ensures ok ==> disk.faults == old(disk.faults)
    ensures !ok && disk.faults == old(disk.faults) ==> Caused(start, disk.names, records)
  {
    hide *;
    ghost var was, next := disk.names, disk.next;
    disk.ValidParts();
    disk.Interfere();
    ghost var grown, passed := disk.names, disk.trace;
    GrownFrom(was, grown, next);
    disk.ValidParts();
    SweepGrown(start, was, grown, next, records, todo, n);
    MarkingOne(old(disk.trace), passed, grown);
    ok := RemoveMember(disk, n, records);
    MarkingTwice(old(disk.trace), passed, disk.trace);
    SweepNext(start, was, grown, disk.names, next, records, todo, n, ok);
    if !ok && disk.faults == old(disk.faults) {
      CauseOf(start, was, grown, disk.names, next, records, todo, n);
    }
  }

  /** The recorded members, in any order. */
  method RemoveMembers(disk: Disk, records: Names) returns (ok: bool)
    requires disk.Valid() && Recording(records) && CommitDirectory in disk.names
    modifies disk
    ensures disk.Valid() && disk.faults >= old(disk.faults) && Marking(old(disk.trace), disk.trace)
    ensures CommitDirectory in disk.names && Swept(old(disk.names), disk.names, records)
    ensures SameAt(old(disk.names), disk.names, SelectedDirectory)
    ensures SameAt(old(disk.names), disk.names, CommitDirectory)
    ensures ok ==> disk.faults == old(disk.faults) && forall n :: n in records ==> n !in disk.names
    ensures !ok && disk.faults == old(disk.faults) ==> Caused(old(disk.names), disk.names, records)
  {
    hide *;
    ok := true;
    var todo := records.Keys;
    ghost var start, before := disk.names, disk.trace;
    disk.ValidParts();
    SweepStarts(start, records);
    MarkingOne(before, before, start);
    while ok && todo != {}
      invariant todo <= records.Keys
      invariant disk.Valid() && disk.faults >= old(disk.faults) && Marking(before, disk.trace)
      invariant ok ==> disk.faults == old(disk.faults)
      invariant Sweeping(start, disk.names, records, todo, ok)
      invariant !ok && disk.faults == old(disk.faults) ==> Caused(start, disk.names, records)
      decreases ok, |todo|
    {
      var n :| n in todo;
      ghost var passed := disk.trace;
      disk.ValidParts();
      SweepMarked(start, disk.names, records, todo, ok);
      ok := RemoveNext(disk, n, records, todo, start);
      MarkingTwice(before, passed, disk.trace);
      todo := todo - {n};
    }
    SweepEnds(start, disk.names, records, todo, ok);
  }

  /** One directory of the transaction, if it is still the one recorded. */
  method RemoveDirectory(disk: Disk, d: Name, info: Option<Object>, records: Names) returns (ok: bool)
    requires disk.Valid() && (d == SelectedDirectory || d == CommitDirectory)
    modifies disk
    ensures disk.Valid() && disk.faults >= old(disk.faults) && Marking(old(disk.trace), disk.trace)
    ensures Swept(old(disk.names), disk.names, records)
    ensures disk.names == if ok then old(disk.names) - {d} else old(disk.names)
    ensures ok <==>
      disk.faults == old(disk.faults) && SameDirectory(old(disk.names), d, info) && Empty(old(disk.names), d)
  {
    hide *;
    SweptNothing(disk.names, records);
    MarkingOne(disk.trace, disk.trace, disk.names);
    ok := disk.Try();
    if !ok { return; }
    ok := SameDirectory(disk.names, d, info);
    if !ok { return; }
    ghost var was := disk.names;
    DirectoryParts(was, d, info);
    ok := disk.Remove(d);
    MarkingOne(old(disk.trace), disk.trace, disk.names);
    if ok {
      SweptRemoved(was, records, d);
    }
  }

  /** Another writer may come by. */
  method Visit(disk: Disk, records: Names)
    requires disk.Valid()
    modifies disk
    ensures disk.Valid() && disk.faults == old(disk.faults) && Marking(old(disk.trace), disk.trace)
    ensures Swept(old(disk.names), disk.names, records)
    ensures forall n: Name :: !n.Foreign? ==> SameAt(old(disk.names), disk.names, n)
  {
    hide *;
    ghost var was, next := disk.names, disk.next;
    disk.Interfere();
    GrownFrom(was, disk.names, next);
    SweptGrown(was, disk.names, records, next);
    GrownElsewhere(was, disk.names, next);
    MarkingOne(old(disk.trace), disk.trace, disk.names);
  }

  /** Whatever is left inside after the members are gone, another writer put there. */
  lemma LeftInside(start: Names, names: Names, info: Option<Object>, selectedInfo: Option<Object>, records: Names)
    requires Inventory(start, info, selectedInfo, records) && Swept(start, names, records)
    requires forall n :: n in records ==> n !in names
    requires forall n :: n in start ==> Placed(start, n)
    ensures !Visited(names) ==> Empty(names, SelectedDirectory) && Empty(names - {SelectedDirectory}, CommitDirectory)
    ensures !Visited(names) && selectedInfo.None? ==> Empty(names, CommitDirectory)
  {
    if !Visited(names) {
      forall n | n in names ensures Above(n) == Some(CommitDirectory) || Above(n) == Some(SelectedDirectory) ==>
        n == SelectedDirectory && selectedInfo.Some? {
        assert !n.Foreign? && n in start && Placed(start, n);
        assert Above(n) == Some(CommitDirectory) && n != SelectedDirectory ==> n in MembersOf(start, CommitDirectory);
        assert Above(n) == Some(SelectedDirectory) && n != SelectedDirectory ==>
          n in MembersOf(start, SelectedDirectory);
      }
    }
  }

  /** Once the commit directory is gone nothing is in it. */
  lemma NothingInside(names: Names, next: nat)
    requires WellFormed(names, next) && CommitDirectory !in names
    ensures !Visited(names)
  {
    forall n | n in names ensures !n.Foreign? {
      assert Placed(names, n);
      assert SelectedDirectory in names ==> Placed(names, SelectedDirectory);
    }
  }

  /** The inventory is exact, and no record is outside of it. */
  ghost predicate Exact(names: Names, info: Option<Object>, selectedInfo: Option<Object>, records: Names) {
    Inventory(names, info, selectedInfo, records) && forall n :: n in records ==> MemberMatches(names, records, n)
  }

  /** The directories are all that is left to remove. */
  ghost predicate Hollow(start: Names, names: Names, info: Option<Object>, selectedInfo: Option<Object>,
      records: Names) {
    && Inventory(start, info, selectedInfo, records) && Swept(start, names, records) && CommitDirectory in names
    && (forall n :: n in records ==> n !in names) && (forall n :: n in start ==> Placed(start, n))
    && SameAt(start, names, SelectedDirectory) && SameAt(start, names, CommitDirectory)
  }

  lemma NowHollow(start: Names, names: Names, info: Option<Object>, selectedInfo: Option<Object>, records: Names)
    requires Inventory(start, info, selectedInfo, records) && Swept(start, names, records) && CommitDirectory in names
    requires (forall n :: n in records ==> n !in names) && forall n :: n in start ==> Placed(start, n)
    requires SameAt(start, names, SelectedDirectory) && SameAt(start, names, CommitDirectory)
    ensures Hollow(start, names, info, selectedInfo, records)
  {
  }

  lemma HollowMarked(start: Names, names: Names, info: Option<Object>, selectedInfo: Option<Object>, records: Names)
    requires Hollow(start, names, info, selectedInfo, records)
    ensures CommitDirectory in names
  {
  }

  lemma HollowParts(start: Names, names: Names, next: nat, info: Option<Object>, selectedInfo: Option<Object>,
      records: Names)
    requires Hollow(start, names, info, selectedInfo, records) && WellFormed(names, next)
    ensures Swept(start, names, records) && CommitDirectory in names && SameDirectory(names, CommitDirectory, info)
    ensures selectedInfo.Some? ==> SameDirectory(names, SelectedDirectory, selectedInfo)
    ensures !Visited(names) && selectedInfo.Some? ==> Empty(names, SelectedDirectory)
    ensures !Visited(names) && selectedInfo.None? ==> Empty(names, CommitDirectory)
  {
    LeftInside(start, names, info, selectedInfo, records);
  }

  /** A visit changes nothing about it. */
  lemma HollowVisited(start: Names, was: Names, names: Names, info: Option<Object>, selectedInfo: Option<Object>,
      records: Names)
    requires Hollow(start, was, info, selectedInfo, records) && Recording(records)
    requires Swept(was, names, records) && forall n: Name :: !n.Foreign? ==> SameAt(was, names, n)
    ensures Hollow(start, names, info, selectedInfo, records)
  {
    hide Inventory, Swept;
    SweptTwice(start, was, names, records);
    forall n | n in records ensures n !in names {
      assert Recordable(n) && SameAt(was, names, n);
    }
    assert SameAt(was, names, SelectedDirectory) && SameAt(was, names, CommitDirectory);
  }

  lemma StagingGone(start: Names, was: Names, names: Names, info: Option<Object>, selectedInfo: Option<Object>,
      records: Names)
    requires Hollow(start, was, info, selectedInfo, records) && Swept(was - {SelectedDirectory}, names, records)
    ensures Swept(start, names, records)
    ensures !Visited(names) ==> Empty(names, CommitDirectory) || CommitDirectory !in names
  {
    SweptRemovedDirectory(was, records, SelectedDirectory);
    SweptTwice(start, was, was - {SelectedDirectory}, records);
    SweptTwice(start, was - {SelectedDirectory}, names, records);
    LeftInside(start, was, info, selectedInfo, records);
    if !Visited(names) {
      assert !Visited(was - {SelectedDirectory});
      assert !Visited(was);
    }
  }

  lemma SweptRemovedDirectory(a: Names, records: Names, d: Name)
    requires d == SelectedDirectory || d == CommitDirectory
    ensures Swept(a, a - {d}, records)
  {
  }

  /** The staging directory, if there is one. */
  method RemoveStaging(disk: Disk, info: Option<Object>, selectedInfo: Option<Object>, records: Names,
      ghost start: Names) returns (ok: bool)
    requires disk.Valid() && Recording(records) && Hollow(start, disk.names, info, selectedInfo, records)
    modifies disk
    ensures disk.Valid() && disk.faults >= old(disk.faults) && Marking(old(disk.trace), disk.trace)
    ensures Swept(start, disk.names, records) && CommitDirectory in disk.names
    ensures ok ==> disk.faults == old(disk.faults) && SameDirectory(disk.names, CommitDirectory, info)
    ensures ok && !Visited(disk.names) ==> Empty(disk.names, CommitDirectory)
    ensures !ok && disk.faults == old(disk.faults) ==> Visited(disk.names)
  {
    hide *;
    ghost var was := disk.names;
    disk.ValidParts();
    Visit(disk, records);
    ghost var grown, passed := disk.names, disk.trace;
    HollowVisited(start, was, grown, info, selectedInfo, records);
    disk.ValidParts();
    HollowParts(start, grown, disk.next, info, selectedInfo, records);
    ok := true;
    if selectedInfo.Some? {
      ok := RemoveDirectory(disk, SelectedDirectory, selectedInfo, records);
      MarkingTwice(old(disk.trace), passed, disk.trace);
      if ok {
        SweptNothing(disk.names, records);
        StagingGone(start, grown, disk.names, info, selectedInfo, records);
        DirectoryStays(grown, disk.names, CommitDirectory, info);
      }
    }
  }

  /** `removeControlBackup`: succeeds only when the commit directory is gone, and
      without a fault only another writer or an inexact inventory stops it. */
  method RemoveControlBackup(disk: Disk, info: Option<Object>, selectedInfo: Option<Object>, records: Names)
    returns (ok: bool)
    requires disk.Valid() && Recording(records) && CommitDirectory in disk.names
    modifies disk
    ensures disk.Valid() && disk.faults >= old(disk.faults) && Marking(old(disk.trace), disk.trace)
    ensures Swept(old(disk.names), disk.names, records)
    ensures ok <==> CommitDirectory !in disk.names
    ensures ok ==>
      disk.faults == old(disk.faults) && !Visited(disk.names) && Inventory(old(disk.names), info, selectedInfo, records)
    ensures !ok && disk.faults == old(disk.faults) ==>
      Visited(disk.names) || !Exact(old(disk.names), info, selectedInfo, records)
  {
    hide *;
    ghost var start, before := disk.names, disk.trace;
    disk.ValidParts();
    PlacedOf(start, disk.next);
    SweptNothing(start, records);
    MarkingOne(before, before, start);
    ok := CheckControlBackup(disk, info, selectedInfo, records);
    NotExact(start, start, info, selectedInfo, records);
    if !ok { return; }
    ok := RemoveMembers(disk, records);
    NotExact(start, disk.names, info, selectedInfo, records);
    if !ok { return; }
    NowHollow(start, disk.names, info, selectedInfo, records);
    ok := RemoveEmptied(disk, info, selectedInfo, records, start, before);
  }

  lemma NotExact(start: Names, names: Names, info: Option<Object>, selectedInfo: Option<Object>, records: Names)
    ensures Exact(start, info, selectedInfo, records) ==> Inventory(start, info, selectedInfo, records)
    ensures Caused(start, names, records) ==> Visited(names) || !Exact(start, info, selectedInfo, records)
  {
  }

  /** Both directories, the members being gone. */
  method RemoveEmptied(disk: Disk, info: Option<Object>, selectedInfo: Option<Object>, records: Names,
      ghost start: Names, ghost before: seq<Names>) returns (ok: bool)
    requires disk.Valid() && Recording(records) && Hollow(start, disk.names, info, selectedInfo, records)
    requires Marking(before, disk.trace) && |before| > 0
    modifies disk
    ensures disk.Valid() && disk.faults >= old(disk.faults) && Marking(before, disk.trace)
    ensures Swept(start, disk.names, records)
    ensures ok <==> CommitDirectory !in disk.names
    ensures ok ==> disk.faults == old(disk.faults) && !Visited(disk.names)
    ensures !ok && disk.faults == old(disk.faults) ==> Visited(disk.names)
  {
    hide *;
    ghost var entered := disk.trace;
    disk.ValidParts();
    HollowMarked(start, disk.names, info, selectedInfo, records);
    ok := RemoveStaging(disk, info, selectedInfo, records, start);
    ghost var passed := disk.trace;
    MarkingTwice(before, entered, passed);
    if !ok { return; }
    disk.ValidParts();
    ghost var was := disk.names;
    ok := RemoveDirectory(disk, CommitDirectory, info, records);
    MarkingTwice(before, passed, disk.trace);
    SweptTwice(start, was, disk.names, records);
    if ok {
      disk.ValidParts();
      NothingInside(disk.names, disk.next);
    }
  }
}
