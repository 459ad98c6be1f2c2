/** How a commit ends: with the new state, with the old one, or in recovery with
    every original still on the disk and the lock held. */
module VenvConclude {
  import opened Wrappers
  import opened Records
  import opened FileSystem
  import opened Ownership
  import opened Frames
  import opened Layout
  import opened Geometry
  import opened VenvState
  import opened VenvPlan
  import opened VenvOutcome
  import opened VenvUndo
  import opened VenvSweep

  // ------------------------------------------------------------ conservation

  /** Each managed original is at its final path, or under its own number in the
      backup directory when it has been moved away, and no other number is used;
      likewise the metadata. */
  ghost predicate Conserved(names: Names, root: Path, backup: Path, before: Before, metadata: Option<Object>,
      moved: seq<Item>, metadataMoved: bool) {
    && DistinctFinals(moved) && (forall i: nat :: BackupFile(backup, i) in names ==> i < |moved|)
    && (forall p :: p in before && before[p].Some? ==>
          if p in Finals(moved)
          then exists i :: 0 <= i < |moved| && moved[i].final == p
                 && BackupFile(backup, i) in names && names[BackupFile(backup, i)] == before[p].value
          else p in names && names[p] == before[p].value)
    && (metadata.Some? ==>
          var q := if metadataMoved then OldMetadataPath(backup) else MetadataPath(root);
          q in names && names[q] == metadata.value)
  }

  /** The files of a table that are there. */
  ghost function ManagedIn(names: Names, root: Path, current: Files): Before {
    map p | p in names && (exists key :: key in current && Final(root, current[key]) == Some(p)) :: Some(names[p])
  }

  function MetadataIn(names: Names, root: Path): Option<Object> {
    if MetadataPath(root) in names then Some(names[MetadataPath(root)]) else None
  }

  /** Every managed file of `start`, and its metadata, is still there: where it was,
      or under its own number in the backup directory. */
  ghost predicate Saved(root: Path, start: Names, names: Names, backup: Path, current: Files) {
    exists moved, metadataMoved ::
      Conserved(names, root, backup, ManagedIn(start, root, current), MetadataIn(start, root), moved, metadataMoved)
  }

  /** `before` knows every managed file. */
  ghost predicate Manages(start: Names, root: Path, current: Files, before: Before) {
    forall key :: key in current && Final(root, current[key]).Some? ==>
      var p := Final(root, current[key]).value;
      p in start ==> p in before && before[p] == Some(start[p])
  }

  lemma SavedFrom(root: Path, start: Names, names: Names, backup: Path, current: Files, before: Before,
      metadata: Option<Object>, moved: seq<Item>, metadataMoved: bool)
    requires Conserved(names, root, backup, before, metadata, moved, metadataMoved)
    requires Manages(start, root, current, before) && MetadataKept(root, start, metadata)
    ensures Saved(root, start, names, backup, current)
  {
    hide Final, BackupFile, Finals, DistinctFinals;
    assert metadata == MetadataIn(start, root);
    assert Conserved(names, root, backup, ManagedIn(start, root, current), metadata, moved, metadataMoved);
  }

  /** Nothing has been moved, and nothing outside the backup directory changed. */
  lemma SavedEarly(root: Path, start: Names, names: Names, backup: Path, current: Files)
    requires BackupPath(root, backup) && Outside(names, backup) == start
    requires forall i: nat :: BackupFile(backup, i) !in names
    ensures Saved(root, start, names, backup, current)
  {
    hide BackupFile, Final, BackupPath;
    assert Finals([]) == {};
    assert forall p :: p in start ==> p in Outside(names, backup) && names[p] == start[p];
    assert Conserved(names, root, backup, ManagedIn(start, root, current), MetadataIn(start, root), [], false);
  }

  lemma EmptyBackup(names: Names, backup: Path, made: Object)
    requires Tree(names) && backup !in names
    ensures forall i: nat :: BackupFile(backup, i) !in names[backup := made]
  {
    forall i: nat ensures BackupFile(backup, i) !in names[backup := made] {
      BackupNamesDiffer(backup, i);
      Number(backup, i);
    }
  }

  lemma OriginalsPlaced(g: Ground, done: Progress, extra: Names)
    requires Consistent(g, done, extra)
    ensures forall i :: 0 <= i < |done.backed| ==>
      done.backed[i].final in g.base
      && BackupFile(g.backup, i) in World(g, done, extra)
      && World(g, done, extra)[BackupFile(g.backup, i)] == g.base[done.backed[i].final]
  {
    hide Kept, Live;
    forall i | 0 <= i < |done.backed|
      ensures done.backed[i].final in g.base && BackupFile(g.backup, i) in World(g, done, extra)
        && World(g, done, extra)[BackupFile(g.backup, i)] == g.base[done.backed[i].final]
    {
      var q := BackupFile(g.backup, i);
      assert done.backed[i] in done.backed;
      BackupNamesDiffer(g.backup, i);
      assert q in Originals(g, done) && Originals(g, done)[q] == g.base[done.backed[i].final];
    }
  }

  lemma MovedInPlace(s: State, i: nat)
    requires Sound(s) && i < |s.done.backed|
    ensures var q := BackupFile(s.backup, i);
      s.done.backed[i].final in s.ground.base && q in s.names && s.names[q] == s.ground.base[s.done.backed[i].final]
  {
    hide Partitioned, FrameKept, LedgerKept, NextKept, Accounted, Tree, Kept, Live, Originals, World, Consistent;
    hide BackupFile;
    OriginalsPlaced(s.ground, s.done, s.extra);
  }

  /** The numbers in the backup directory are those of the originals moved away. */
  lemma NumbersUsed(s: State)
    requires Sound(s)
    ensures DistinctFinals(s.done.backed)
    ensures forall i: nat :: BackupFile(s.backup, i) in s.names ==> i < |s.done.backed|
  {
    hide Sound, BackupFile;
    PlacedOf(s);
    ConsistentOf(s);
    DistinctBacked(s.ground, s.done, s.extra);
    forall i: nat | BackupFile(s.backup, i) in s.names ensures i < |s.done.backed| {
      NumberUsed(s, i);
    }
  }

  lemma DistinctBacked(g: Ground, done: Progress, extra: Names)
    requires Consistent(g, done, extra)
    ensures DistinctFinals(done.backed)
  {
    hide Kept, Live, Originals;
  }

  lemma NumberUsed(s: State, i: nat)
    requires Sound(s) && BackupFile(s.backup, i) in s.names
    ensures i < |s.done.backed|
  {
    hide FrameKept, LedgerKept, NextKept, Accounted, Tree, Kept, Live, Originals, BackupFile, Consistent, World;
    var q := BackupFile(s.backup, i);
    Number(s.backup, i);
    InBackup(s, q);
    NotOwn(s, q, i);
    OriginalNumber(s.ground, s.done, i);
  }

  lemma NotOwn(s: State, q: Path, i: nat)
    requires Partitioned(s) && FrameKept(s.frame, s.backup) && q == BackupFile(s.backup, i) && Prefix(s.backup, q)
    ensures q !in s.extra
  {
    hide Kept, Live;
    assert Numbered(s.backup, q);
  }

  lemma OriginalNumber(g: Ground, done: Progress, i: nat)
    requires BackupFile(g.backup, i) in Originals(g, done)
    ensures i < |done.backed|
  {
    hide BackupFile;
    BackupNamesDiffer(g.backup, i);
    var j :| 0 <= j < |done.backed| && BackupFile(g.backup, i) == BackupFile(g.backup, j);
    BackupFileInjective(g.backup, i, j);
  }

  /** What is at the path of an original moved away is not what was there, but
      what the transaction has put there. */
  lemma MovedAwayIsGone(s: State, d: Item)
    requires Sound(s) && d in s.done.backed && InScheme(s.frame.root, d.final)
    ensures d.final !in Kept(s.ground, s.done)
    ensures d.final in s.names ==> d.final in Live(s.ground, s.done) || d.final in s.extra
  {
    hide FrameKept, LedgerKept, NextKept, Accounted, Tree, Live, InScheme, Originals, Consistent;
    assert d.final in Finals(s.done.backed);
    SchemeApart(s.frame.root, s.backup, d.final);
    OriginalsUnderBackup(s.ground, s.done);
  }

  /** At every step each original is in exactly one place: where it was, and under
      no number; or under its own number, and not where it was. */
  lemma AlwaysConserved(s: State, before: Before, metadata: Option<Object>)
    requires Sound(s) && BeforeKept(s.frame.root, s.ground.base, before)
    requires MetadataKept(s.frame.root, s.ground.base, metadata)
    requires SourcesApart(s.frame.root, s.done.consumed)
    ensures Conserved(s.names, s.frame.root, s.backup, before, metadata, s.done.backed, s.done.metadataBacked)
    ensures forall d :: d in s.done.backed && d.final in before ==>
      && d.final !in Kept(s.ground, s.done)
      && (d.final in s.names ==> d.final in Live(s.ground, s.done) || d.final in s.extra)
  {
    hide Sound, BackupFile, Finals, InScheme, SourcesApart, DistinctFinals, Kept, Live;
    NumbersUsed(s);
    forall d | d in s.done.backed && d.final in before
      ensures d.final !in Kept(s.ground, s.done)
      ensures d.final in s.names ==> d.final in Live(s.ground, s.done) || d.final in s.extra
    {
      MovedAwayIsGone(s, d);
    }
    forall p | p in before && before[p].Some?
      ensures if p in Finals(s.done.backed)
        then exists i :: 0 <= i < |s.done.backed| && s.done.backed[i].final == p
               && BackupFile(s.backup, i) in s.names && s.names[BackupFile(s.backup, i)] == before[p].value
        else p in s.names && s.names[p] == before[p].value
    {
      if p in Finals(s.done.backed) {
        FinalsIndex(s.done.backed, p);
        var i :| 0 <= i < |s.done.backed| && s.done.backed[i].final == p;
        MovedInPlace(s, i);
      } else {
        OriginalInPlace(s, before, p);
      }
    }
    MetadataSomewhere(s, metadata);
  }

  lemma FinalsIndex(items: seq<Item>, p: Path)
    requires p in Finals(items)
    ensures exists i :: 0 <= i < |items| && items[i].final == p
  {
    var d :| d in items && d.final == p;
    var i :| 0 <= i < |items| && items[i] == d;
  }

  lemma MetadataSomewhere(s: State, metadata: Option<Object>)
    requires Sound(s) && MetadataKept(s.frame.root, s.ground.base, metadata)
    requires SourcesApart(s.frame.root, s.done.consumed)
    ensures metadata.Some? ==>
      var q := if s.done.metadataBacked then OldMetadataPath(s.backup) else MetadataPath(s.frame.root);
      q in s.names && s.names[q] == metadata.value
  {
    hide Sound;
    BackupOf(s);
    PlacedOf(s);
    if metadata.Some? {
      if s.done.metadataBacked {
        OldMetadataInPlace(s);
      } else {
        hide Live;
        MetadataApart(s.frame.root, s.backup);
        WithinPrefix(s.frame.root, MetadataPath(s.frame.root));
        ConsistentOf(s);
        MetadataUnmoved(s.ground, s.done, s.extra);
        KeptInPlace(s, MetadataPath(s.frame.root));
      }
    }
  }

  lemma GuardInPlace(s: State, before: Before)
    requires Sound(s) && BeforeKept(s.frame.root, s.ground.base, before) && SourcesApart(s.frame.root, s.done.consumed)
    requires forall d :: d in s.done.backed ==> d.final in before
    ensures var p := LockPath(s.frame.root); p in s.names && s.names[p] == s.frame.guard && !Prefix(s.backup, p)
  {
    hide Placed, Partitioned, FrameKept, LedgerKept, NextKept, Accounted, Tree, Live, Originals, World, Consistent;
    hide InScheme;
    var p := LockPath(s.frame.root);
    MetadataApart(s.frame.root, s.backup);
    assert Prefix(s.frame.root, p);
    if p in Finals(s.done.backed) {
      var d :| d in s.done.backed && d.final == p;
      SchemeApart(s.frame.root, s.backup, d.final);
    }
    assert p in Kept(s.ground, s.done);
    KeptInPlace(s, p);
  }

  // ---------------------------------------------------------------- cleaning

  /** Nothing of the transaction's own is on the disk that a cleanup would not
      have a record of. */
  ghost predicate Recorded(extra: Names, i: Inventory) {
    extra.Keys == {i.backup} + Wanted(i)
  }

  lemma RecordedAccounted(s: State, i: Inventory, next: Option<Object>)
    requires Sound(s) && Recorded(s.extra, i) && i.backup == s.backup && i.ledger == s.ledger
    requires i.records.Keys == if next.Some? then {NextMetadataPath(s.backup)} else {}
    requires next.Some? ==> s.next == next
    ensures !s.stranded && s.next == next
  {
    hide Placed, Partitioned, BackupKept, FrameKept, LedgerKept, Tree;
    BackupNamesDiffer(s.backup, 0);
  }

  lemma AccountedRecorded(s: State, i: Inventory)
    requires Sound(s) && !s.stranded && i.backup == s.backup && i.ledger == s.ledger
    requires i.records.Keys == if s.next.Some? then {NextMetadataPath(s.backup)} else {}
    ensures Recorded(s.extra, i)
  {
    AccountedOf(s);
    hide Sound;
  }

  /** The members of the backup directory are the originals in it and the
      transaction's own files. */
  lemma MembersOf(s: State)
    requires Sound(s)
    ensures forall q ::
      q in Children(s.names, s.backup) ==> q != s.backup && (q in s.extra || q in Originals(s.ground, s.done))
  {
    hide BackupKept, FrameKept, LedgerKept, NextKept, Accounted, Tree, Kept, Live, Originals, World, Consistent;
    forall q | q in Children(s.names, s.backup)
      ensures q != s.backup && (q in s.extra || q in Originals(s.ground, s.done))
    {
      InBackup(s, q);
    }
  }

  lemma OriginalsPlacedToo(s: State, q: Path)
    requires Sound(s) && q in Originals(s.ground, s.done)
    ensures q in s.names && s.names[q] == Originals(s.ground, s.done)[q]
  {
    hide Partitioned, BackupKept, FrameKept, LedgerKept, NextKept, Accounted, Tree, Kept, Live, Originals, Undoable;
    Areas.OriginalsMember(Kept(s.ground, s.done), Live(s.ground, s.done), Originals(s.ground, s.done), s.extra, q);
  }

  lemma MovedAreOriginals(g: Ground, done: Progress)
    ensures MovedRecords(g, done.backed, done.metadataBacked) == Originals(g, done)
  {
    hide BackupFiles;
  }

  lemma OriginalsAreFiles(g: Ground, done: Progress, q: Path)
    requires q in Originals(g, done)
    requires forall d :: d in done.backed ==> d.final in g.base && g.base[d.final].File? && g.base[d.final].links == 1
    requires g.meta in g.base ==> g.base[g.meta].File? && g.base[g.meta].links == 1
    ensures Originals(g, done)[q].File? && Originals(g, done)[q].links == 1
    ensures |q| == |g.backup| + 1 && Parent(q) == g.backup && q != LedgerPath(g.backup)
    ensures q != NextMetadataPath(g.backup)
  {
    BackupNamesDiffer(g.backup, 0);
    if q in BackupFiles(g.base, g.backup, done.backed) {
      var i :| 0 <= i < |done.backed| && q == BackupFile(g.backup, i);
      BackupNamesDiffer(g.backup, i);
      assert done.backed[i] in done.backed;
    }
  }

  ghost predicate OriginalFiles(g: Ground, done: Progress) {
    && (forall d :: d in done.backed ==> d.final in g.base && g.base[d.final].File? && g.base[d.final].links == 1)
    && (g.meta in g.base ==> g.base[g.meta].File? && g.base[g.meta].links == 1)
  }

  lemma ManagedFiles(root: Path, g: Ground, done: Progress, before: Before, metadata: Option<Object>)
    requires BeforeKept(root, g.base, before) && MetadataKept(root, g.base, metadata) && g.meta == MetadataPath(root)
    requires forall d :: d in done.backed ==> d.final in before && before[d.final].Some?
    ensures OriginalFiles(g, done)
  {
    hide InScheme;
  }

  ghost predicate RecordsAll(s: State, i: Inventory) {
    && i.backup == s.backup && i.ledger == s.ledger && i.entries == s.entries
    && i.records == if s.next.Some? then Originals(s.ground, s.done)[NextMetadataPath(s.backup) := s.next.value]
                    else Originals(s.ground, s.done)
  }

  lemma OwnMembersKnown(s: State, i: Inventory)
    requires Sound(s) && RecordsAll(s, i)
    ensures s.ledger.Some? ==> LedgerPath(s.backup) in s.names && LedgerRecordMatches(s.names, i)
    ensures s.next.Some? ==>
      NextMetadataPath(s.backup) in s.names && Matches(s.names, NextMetadataPath(s.backup), s.next.value)
  {
    LedgerOf(s);
    hide Originals;
    if s.ledger.Some? {
      ExtraOf(s, LedgerPath(s.backup));
    }
    if s.next.Some? {
      NextOf(s);
    }
  }

  lemma OriginalKnown(s: State, q: Path)
    requires Sound(s) && OriginalFiles(s.ground, s.done) && q in Originals(s.ground, s.done)
    ensures q in s.names && Matches(s.names, q, Originals(s.ground, s.done)[q])
    ensures |q| == |s.backup| + 1 && Parent(q) == s.backup && q != LedgerPath(s.backup)
    ensures q != NextMetadataPath(s.backup)
  {
    OriginalsPlacedToo(s, q);
    OriginalsAreFiles(s.ground, s.done, q);
    BackupOf(s);
    hide Sound, Originals;
  }

  /** When everything is recorded, the inventory check passes. */
  lemma FullInventory(s: State, i: Inventory)
    requires Sound(s) && !s.stranded && RecordsAll(s, i)
    requires Originals(s.ground, s.done) == map[] || OriginalFiles(s.ground, s.done)
    ensures InventoryHolds(s.names, i)
  {
    hide Sound, Originals, OriginalFiles, LedgerRecordMatches, LedgerPath, NextMetadataPath, Matches;
    MembersOf(s);
    AccountedOf(s);
    OwnMembersKnown(s, i);
    OwnNames(s.backup);
    forall q | q in Originals(s.ground, s.done)
      ensures q in Children(s.names, s.backup) && q != LedgerPath(s.backup) && q != NextMetadataPath(s.backup)
        && Matches(s.names, q, Originals(s.ground, s.done)[q])
    {
      OriginalKnown(s, q);
    }
    assert Children(s.names, i.backup) == Wanted(i);
  }

  lemma OwnNames(backup: Path)
    ensures |LedgerPath(backup)| > 0 && Parent(LedgerPath(backup)) == backup
    ensures |NextMetadataPath(backup)| > 0 && Parent(NextMetadataPath(backup)) == backup
    ensures LedgerPath(backup) != NextMetadataPath(backup)
  {
    BackupNamesDiffer(backup, 0);
  }

  /** When the inventory check passes, everything was recorded. */
  lemma ExactInventory(s: State, i: Inventory)
    requires Sound(s) && Steady(s) && Undone(s.done) && i.backup == s.backup && Named(i) && InventoryHolds(s.names, i)
    ensures Recorded(s.extra, i)
  {
    hide *;
    ExtraInBackup(s);
    NothingMoved(s.ground, s.done);
    BackupIsDir(s);
    TreeOf(s);
    MembersOf(s);
    BackupMember(s);
    WantedThere(s.names, i);
    forall q | q in s.extra && q != s.backup ensures q in Wanted(i) {
      ExtraOf(s, q);
      ChildOnly(s.names, i, q);
    }
    RecordedFrom(s.extra, i);
  }

  lemma WantedThere(names: Names, i: Inventory)
    requires InventoryHolds(names, i)
    ensures forall q :: q in Wanted(i) ==> q in Children(names, i.backup)
  {
    hide Children, Wanted;
  }

  lemma RecordedFrom(extra: Names, i: Inventory)
    requires i.backup in extra && (forall q :: q in extra && q != i.backup ==> q in Wanted(i))
    requires forall q :: q in Wanted(i) ==> q in extra
    ensures Recorded(extra, i)
  {
    hide Wanted;
  }

  lemma BackupMember(s: State)
    requires Sound(s)
    ensures s.backup in s.extra
  {
  }

  lemma NothingMoved(g: Ground, done: Progress)
    requires Undone(done)
    ensures Originals(g, done) == map[]
  {
  }

  /** A member of the inventory is a file, so nothing is below it. */
  lemma ChildOnly(names: Names, i: Inventory, q: Path)
    requires Tree(names) && q in names && Prefix(i.backup, q) && q != i.backup && InventoryHolds(names, i)
    ensures q in Wanted(i)
  {
    var k := |i.backup| + 1;
    assert q[..|q|] == q;
    var c := q[..k];
    assert c[..|i.backup|] == i.backup;
    if k < |q| {
      AncestorIsDir(names, q, k);
    } else {
      assert c == q;
    }
    assert c in Children(names, i.backup);
    assert MemberKnown(names, i, c);
  }

  // -------------------------------------------------------------- the result

  function Outside(names: Names, backup: Path): Names {
    map q | q in names && !Prefix(backup, q) :: names[q]
  }

  /** What stands outside the backup directory. */
  ghost function Standing(g: Ground, done: Progress): Names {
    Kept(g, done) + Live(g, done)
  }

  lemma WhatStands(s: State)
    requires Sound(s) && forall q :: q in s.extra ==> Prefix(s.backup, q)
    ensures Outside(s.names, s.backup) == Standing(s.ground, s.done)
    ensures forall q :: q in Standing(s.ground, s.done) ==> !Prefix(s.backup, q)
  {
    hide BackupKept, FrameKept, LedgerKept, NextKept, Accounted, Tree, Kept, Live, Originals, Undoable;
    BackupOf(s);
    OriginalsUnderBackup(s.ground, s.done);
  }

  lemma CleanedStands(names: Names, after: Names, i: Inventory, ok: bool)
    requires Cleaned(names, after, i, ok) && Named(i)
    ensures Outside(after, i.backup) == Outside(names, i.backup)
    ensures ok ==> after == Outside(names, i.backup)
  {
    hide InventoryHolds;
    forall q | q in names && q !in after ensures Prefix(i.backup, q) {
      if q in i.records {
        MemberInBackup(i.backup, q);
      }
    }
  }

  lemma NothingStands(g: Ground, done: Progress)
    requires Undone(done)
    ensures Standing(g, done) == g.base - done.consumed
  {
    assert Live(g, done) == map[];
    assert Finals(done.backed) == {};
  }

  /** Removing members of the backup directory does not touch an original that
      is back in its place. */
  lemma StillConserved(root: Path, names: Names, after: Names, i: Inventory, ok: bool, before: Before,
      metadata: Option<Object>)
    requires Cleaned(names, after, i, ok) && Named(i) && BackupPath(root, i.backup)
    requires forall p :: p in before ==> InScheme(root, p)
    requires Conserved(names, root, i.backup, before, metadata, [], false)
    ensures Conserved(after, root, i.backup, before, metadata, [], false)
  {
    CleanedStands(names, after, i, ok);
    hide Cleaned, Named, InScheme, BackupPath;
    MetadataApart(root, i.backup);
    forall p | p in before && before[p].Some? ensures p in after && after[p] == before[p].value {
      SchemeApart(root, i.backup, p);
      assert p !in Finals([]);
      assert p in Outside(names, i.backup);
      assert p in Outside(after, i.backup);
    }
    if metadata.Some? {
      assert MetadataPath(root) in Outside(names, i.backup);
      assert MetadataPath(root) in Outside(after, i.backup);
    }
  }

  lemma SoundSweepable(s: State)
    requires Sound(s)
    ensures Sweepable(s.names, s.frame, s.backup)
  {
  }

  lemma ArrangedKept(f: Frame, g: Ground, before: Before, outputs: Names, metadata: Option<Object>, items: seq<Item>)
    requires Arranged(f, g, before, outputs, metadata, items)
    ensures BeforeKept(f.root, g.base, before) && MetadataKept(f.root, g.base, metadata)
  {
  }

  /** The records of a cleanup after success are all there is. */
  lemma AllRecorded(s: State, i: Inventory, metadataBacked: bool)
    requires s.next.None? && metadataBacked == s.done.metadataBacked && s.ground.backup == s.backup
    requires i == Inventory(s.backup, RecordsOf(s.ground, s.done.backed, metadataBacked, true, None), s.ledger,
      s.entries)
    ensures RecordsAll(s, i)
  {
    MovedAreOriginals(s.ground, s.done);
  }

  /** After a rollback the inventory check is exactly the question whether
      everything was recorded. */
  lemma SweepDecided(s: State, i: Inventory, backed: seq<Item>, metadataBacked: bool, next: Option<Object>)
    requires Sound(s) && Steady(s) && Undone(s.done)
    requires next.Some? ==> s.next == next
    requires i == Inventory(s.ground.backup, RecordsOf(s.ground, backed, metadataBacked, false, next), s.ledger,
      s.entries)
    ensures InventoryHolds(s.names, i) <==> Recorded(s.extra, i)
  {
    BackupOf(s);
    RecordsNamed(s.ground, backed, metadataBacked, false, next, s.ledger, s.entries);
    NextOnly(s.ground, backed, metadataBacked, next);
    hide Sound, Steady, InventoryHolds, Named, RecordsOf, Recorded, Undone, NextMetadataPath;
    if InventoryHolds(s.names, i) {
      ExactInventory(s, i);
    }
    if Recorded(s.extra, i) {
      RecordedHolds(s, i, next);
    }
  }

  lemma RecordedHolds(s: State, i: Inventory, next: Option<Object>)
    requires Sound(s) && Undone(s.done) && Recorded(s.extra, i) && (next.Some? ==> s.next == next)
    requires i.backup == s.backup && i.ledger == s.ledger && i.entries == s.entries
    requires i.records == if next.Some? then map[NextMetadataPath(s.backup) := next.value] else map[]
    ensures InventoryHolds(s.names, i)
  {
    hide Sound, InventoryHolds, Recorded, NextMetadataPath;
    NothingMoved(s.ground, s.done);
    RecordedAccounted(s, i, next);
    FullInventory(s, i);
  }

  lemma NextOnly(g: Ground, backed: seq<Item>, metadataBacked: bool, next: Option<Object>)
    ensures RecordsOf(g, backed, metadataBacked, false, next)
         == if next.Some? then map[NextMetadataPath(g.backup) := next.value] else map[]
  {
  }

  lemma BeforeInScheme(root: Path, base: Names, before: Before)
    requires BeforeKept(root, base, before)
    ensures forall p :: p in before ==> InScheme(root, p)
  {
    hide InScheme;
  }

  lemma CleanedHeld(names: Names, after: Names, i: Inventory, ok: bool)
    requires Cleaned(names, after, i, ok)
    ensures ok ==> InventoryHolds(names, i)
  {
    hide InventoryHolds;
  }

  lemma OutsideNew(names: Names, backup: Path, made: Object)
    requires forall q :: q in names ==> !Prefix(backup, q)
    ensures Outside(names[backup := made], backup) == names
  {
    assert backup[..|backup|] == backup;
  }

  lemma LockOutside(names: Names, root: Path, backup: Path)
    requires BackupPath(root, backup)
    ensures var p := LockPath(root); p in names <==> p in Outside(names, backup)
    ensures var p := LockPath(root); p in names ==> Outside(names, backup)[p] == names[p]
  {
    MetadataApart(root, backup);
  }
}
