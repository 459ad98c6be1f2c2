/** Cleaning up the backup directory: what may be in it, and that only recorded
    members are removed. */
module VenvSweep {
  import opened Wrappers
  import opened Records
  import opened FileSystem
  import opened Ownership
  import opened Frames
  import opened Layout
  import opened Geometry
  import opened VenvState
  import opened VenvPlan
  import opened VenvOutcome
  import opened VenvUndo

  /** The backup directory can be worked on. */
  ghost predicate Sweepable(names: Names, f: Frame, backup: Path) {
    && Tree(names) && FrameKept(f, backup) && BackupPath(f.root, backup)
    && backup in f.directories && f.directories[backup].Dir?
  }

  /** The members a cleanup knows: recorded files by path, and the ledger. */
  datatype Inventory = Inventory(backup: Path, records: Names, ledger: Option<Object>, entries: seq<Entry>)

  predicate LedgerRecordMatches(names: Names, i: Inventory) {
    && i.ledger.Some? && LedgerPath(i.backup) in names
    && LedgerObject(names[LedgerPath(i.backup)], i.entries)
    && names[LedgerPath(i.backup)].inode == i.ledger.value.inode
  }

  function Wanted(i: Inventory): set<Path> {
    i.records.Keys + (if i.ledger.Some? then {LedgerPath(i.backup)} else {})
  }

  /** Every member has the name of a record. */
  ghost predicate Named(i: Inventory) {
    && (forall q :: q in i.records ==> |q| == |i.backup| + 1 && Parent(q) == i.backup)
    && LedgerPath(i.backup) !in i.records
  }

  predicate MemberKnown(names: Names, i: Inventory, q: Path) {
    if q == LedgerPath(i.backup) && i.ledger.Some? then LedgerRecordMatches(names, i)
    else q in i.records && Matches(names, q, i.records[q])
  }

  /** The backup directory holds exactly the recorded members. */
  ghost predicate InventoryHolds(names: Names, i: Inventory) {
    && Children(names, i.backup) == Wanted(i)
    && forall q :: q in Wanted(i) ==> MemberKnown(names, i, q)
  }

  /** Counting the entries and finding each of them known is an exact
      comparison. */
  lemma CountedInventory(names: Names, i: Inventory)
    requires Named(i) && |Children(names, i.backup)| == |i.records| + (if i.ledger.Some? then 1 else 0)
    requires forall q :: q in Children(names, i.backup) ==> MemberKnown(names, i, q)
    ensures InventoryHolds(names, i)
  {
    WantedSize(i);
    SubsetOfSameSize(Children(names, i.backup), Wanted(i));
  }

  lemma WantedSize(i: Inventory)
    requires Named(i)
    ensures |Wanted(i)| == |i.records| + (if i.ledger.Some? then 1 else 0)
  {
    assert |i.records.Keys| == |i.records|;
  }

  lemma HeldInventory(names: Names, i: Inventory)
    requires Named(i) && InventoryHolds(names, i)
    ensures |Children(names, i.backup)| == |i.records| + (if i.ledger.Some? then 1 else 0)
    ensures forall q :: q in Children(names, i.backup) ==> MemberKnown(names, i, q)
  {
    WantedSize(i);
  }

  lemma SweepableTree(names: Names, f: Frame, backup: Path)
    requires Sweepable(names, f, backup)
    ensures Tree(names)
  {
  }

  /** A member of the backup directory can be removed. */
  lemma ReadyToRemove(names: Names, f: Frame, backup: Path, p: Path)
    requires Sweepable(names, f, backup) && Identity(names, f)
    requires |p| == |backup| + 1 && Parent(p) == backup && p in names && names[p].File?
    ensures CanRemove(names, p) && ParentOpens(names, f, p)
  {
    IdentityGivesPath(names, f, backup);
  }

  lemma AfterRemove(names: Names, f: Frame, backup: Path, p: Path)
    requires Sweepable(names, f, backup) && |p| == |backup| + 1 && Parent(p) == backup && p in names && names[p].File?
    requires CanRemove(names, p)
    ensures Sweepable(names - {p}, f, backup)
    ensures Identity(names, f) ==> Identity(names - {p}, f)
  {
    RemoveKeepsTree(names, p);
    MemberInBackup(backup, p);
    BackupApart(f.root, backup, p);
    if Identity(names, f) {
      IdentityAfterRemove(names, f, p);
    }
  }

  lemma MemberInBackup(backup: Path, p: Path)
    requires |p| == |backup| + 1 && Parent(p) == backup
    ensures Prefix(backup, p) && p != backup
  {
  }

  /** Once the directory is gone nothing is left below it. */
  lemma NothingBelow(names: Names, backup: Path)
    requires Tree(names) && backup !in names
    ensures forall q :: q in names ==> !Prefix(backup, q)
  {
    forall q | q in names ensures !Prefix(backup, q) {
      assert q[..|q|] == q;
      if Prefix(backup, q) && |backup| < |q| {
        AncestorIsDir(names, q, |backup|);
      }
    }
  }

  lemma EmptyDirectory(names: Names, backup: Path)
    requires Children(names, backup) == {}
    ensures !HasChild(names, backup)
  {
    assert forall q :: q in names && |q| > 0 && Parent(q) == backup ==> q in Children(names, backup);
  }

  /** The records of a cleanup: the originals when the new state stands, and the
      new metadata when it was recorded but not published. */
  ghost function RecordsOf(g: Ground, backed: seq<Item>, metadataBacked: bool, originals: bool,
      next: Option<Object>): Names {
    var moved := if originals then MovedRecords(g, backed, metadataBacked) else map[];
    if next.Some? then moved[NextMetadataPath(g.backup) := next.value] else moved
  }

  ghost function MovedRecords(g: Ground, backed: seq<Item>, metadataBacked: bool): Names {
    var files := BackupFiles(g.base, g.backup, backed);
    if metadataBacked && g.meta in g.base then files[OldMetadataPath(g.backup) := g.base[g.meta]] else files
  }

  ghost predicate Members(records: Names, backup: Path) {
    forall q :: q in records ==> |q| == |backup| + 1 && Parent(q) == backup && q != LedgerPath(backup)
  }

  lemma BackupFilesNamed(base: Names, backup: Path, backed: seq<Item>)
    ensures Members(BackupFiles(base, backup, backed), backup)
  {
    forall q | q in BackupFiles(base, backup, backed)
      ensures |q| == |backup| + 1 && Parent(q) == backup && q != LedgerPath(backup)
    {
      var i :| 0 <= i < |backed| && q == BackupFile(backup, i);
      BackupNamesDiffer(backup, i);
    }
  }

  lemma NoMembers(backup: Path)
    ensures Members(map[], backup)
  {
  }

  lemma MembersAdd(records: Names, backup: Path, p: Path, o: Object)
    requires Members(records, backup) && |p| == |backup| + 1 && Parent(p) == backup && p != LedgerPath(backup)
    ensures Members(records[p := o], backup)
  {
  }

  lemma MembersNamed(i: Inventory)
    requires Members(i.records, i.backup)
    ensures Named(i)
  {
  }

  lemma RecordsNamed(g: Ground, backed: seq<Item>, metadataBacked: bool, originals: bool, next: Option<Object>,
      ledger: Option<Object>, entries: seq<Entry>)
    ensures Named(Inventory(g.backup, RecordsOf(g, backed, metadataBacked, originals, next), ledger, entries))
  {
    hide BackupFile;
    BackupNamesDiffer(g.backup, 0);
    BackupFilesNamed(g.base, g.backup, backed);
    hide BackupFiles;
    assert |OldMetadataPath(g.backup)| == |NextMetadataPath(g.backup)| == |g.backup| + 1;
    hide NextMetadataPath, OldMetadataPath, LedgerPath, Members;
    var files := BackupFiles(g.base, g.backup, backed);
    if metadataBacked && g.meta in g.base {
      MembersAdd(files, g.backup, OldMetadataPath(g.backup), g.base[g.meta]);
    }
    NoMembers(g.backup);
    if next.Some? {
      var moved := if originals then MovedRecords(g, backed, metadataBacked) else map[];
      MembersAdd(moved, g.backup, NextMetadataPath(g.backup), next.value);
    }
    MembersNamed(Inventory(g.backup, RecordsOf(g, backed, metadataBacked, originals, next), ledger, entries));
  }

  lemma NoBackupFiles(base: Names, backup: Path, backed: seq<Item>)
    ensures BackupFiles(base, backup, backed[..0]) == map[]
  {
  }

  lemma BackupFilesSnoc(base: Names, backup: Path, backed: seq<Item>, i: nat)
    requires i < |backed| && backed[i].final in base
    ensures BackupFiles(base, backup, backed[..i + 1]) ==
      BackupFiles(base, backup, backed[..i])[BackupFile(backup, i) := base[backed[i].final]]
  {
    assert backed[..i + 1][..i] == backed[..i];
  }

  /** The cleanup has removed some members and nothing else. */
  ghost predicate Swept(before: Names, after: Names, gone: set<Path>, i: Inventory) {
    && after == before - gone
    && (forall q :: q in gone ==> q in before && (q in i.records || q == LedgerPath(i.backup)))
    && (forall q :: q in gone && q in i.records ==> before[q] == i.records[q])
  }

  lemma StillKnown(names: Names, gone: set<Path>, i: Inventory, q: Path)
    requires Named(i) && InventoryHolds(names, i) && q in Wanted(i) && q !in gone
    ensures MemberKnown(names - gone, i, q)
  {
  }

  lemma AllGone(names: Names, i: Inventory)
    requires InventoryHolds(names, i)
    ensures Children(names - Wanted(i), i.backup) == {}
  {
  }

  lemma Readied(names: Names, f: Frame, i: Inventory, gone: set<Path>, q: Path)
    requires Named(i) && Sweepable(names - gone, f, i.backup) && q in i.records
    requires InventoryHolds(names, i) && Identity(names - gone, f) && q !in gone
    ensures Matches(names - gone, q, i.records[q])
    ensures CanRemove(names - gone, q) && ParentOpens(names - gone, f, q)
  {
    hide Identity, Sweepable, CanRemove, ParentOpens, InventoryHolds, Named;
    RecordNames(i, q);
    StillKnown(names, gone, i, q);
    ReadyToRemove(names - gone, f, i.backup, q);
  }

  lemma RecordNames(i: Inventory, q: Path)
    requires Named(i) && q in i.records
    ensures |q| == |i.backup| + 1 && Parent(q) == i.backup && q in Wanted(i) && q != LedgerPath(i.backup)
  {
  }

  lemma SweptMore(before: Names, gone: set<Path>, i: Inventory, q: Path)
    requires Swept(before, before - gone, gone, i) && q in before - gone
    requires if q in i.records then before[q] == i.records[q] else q == LedgerPath(i.backup)
    ensures Swept(before, (before - gone) - {q}, gone + {q}, i)
  {
    assert (before - gone) - {q} == before - (gone + {q});
  }

  lemma SweptNone(before: Names, i: Inventory)
    ensures Swept(before, before, {}, i)
  {
    assert before - {} == before;
  }

  /** What is left when the recorded members are gone. */
  lemma LedgerLeft(names: Names, f: Frame, i: Inventory)
    requires Named(i) && i.ledger.Some? && InventoryHolds(names, i)
    requires Sweepable(names - i.records.Keys, f, i.backup) && Identity(names - i.records.Keys, f)
    ensures LedgerRecordMatches(names - i.records.Keys, i)
    ensures CanRemove(names - i.records.Keys, LedgerPath(i.backup))
    ensures ParentOpens(names - i.records.Keys, f, LedgerPath(i.backup))
  {
    hide Identity, Sweepable, CanRemove, ParentOpens, InventoryHolds;
    StillKnown(names, i.records.Keys, i, LedgerPath(i.backup));
    ReadyToRemove(names - i.records.Keys, f, i.backup, LedgerPath(i.backup));
  }

  lemma LedgerIsFile(names: Names, i: Inventory)
    requires LedgerRecordMatches(names, i)
    ensures var q := LedgerPath(i.backup);
      && q in names && names[q].File? && |q| == |i.backup| + 1
      && Parent(q) == i.backup
  {
  }

  lemma LastRemoval(names: Names, f: Frame, i: Inventory)
    requires InventoryHolds(names, i) && Sweepable(names - Wanted(i), f, i.backup) && Identity(names - Wanted(i), f)
    ensures CanRemove(names - Wanted(i), i.backup) && ParentOpens(names - Wanted(i), f, i.backup)
    ensures PathIdentity(names - Wanted(i), f, i.backup)
  {
    var left := names - Wanted(i);
    AllGone(names, i);
    EmptyDirectory(left, i.backup);
    IdentityGivesPath(left, f, i.backup);
    assert SameDirectory(left, f.directories, i.backup);
    hide Wanted, InventoryHolds, Tree, Identity;
    ParentPath(left, f, i.backup);
  }

  lemma ParentPath(names: Names, f: Frame, backup: Path)
    requires PathIdentity(names, f, backup) && BackupPath(f.root, backup) && f.root in f.directories
    ensures ParentOpens(names, f, backup)
  {
    assert Parent(backup) == f.root;
    forall k | 0 <= k <= |f.root| ensures PlannedAt(names, f, f.root[..k]) {
      assert backup[..k] == f.root[..k];
    }
  }

  /** How a cleanup can end: it only removes recorded members and the directory
      itself, and when it succeeds nothing of the backup directory is left and
      everything that was in it had been recorded. */
  ghost predicate Cleaned(before: Names, after: Names, i: Inventory, ok: bool) {
    && (forall q :: q in after ==> q in before && after[q] == before[q])
    && (forall q :: q in before && q !in after ==>
          || q == i.backup || q == LedgerPath(i.backup) || (q in i.records && before[q] == i.records[q]))
    && (ok ==> (forall q :: q in after ==> !Prefix(i.backup, q)) && InventoryHolds(before, i))
  }

  lemma CleanedPartly(before: Names, after: Names, gone: set<Path>, i: Inventory)
    requires Swept(before, after, gone, i)
    ensures Cleaned(before, after, i, false)
  {
  }

  lemma CleanedFully(before: Names, i: Inventory)
    requires InventoryHolds(before, i) && Tree(before - Wanted(i) - {i.backup})
    ensures Cleaned(before, before - Wanted(i) - {i.backup}, i, true)
  {
    var after := before - Wanted(i) - {i.backup};
    NothingBelow(after, i.backup);
    forall q | q in Wanted(i) && q in i.records ensures before[q] == i.records[q] || q == LedgerPath(i.backup) {
      assert MemberKnown(before, i, q);
    }
  }

  lemma LedgerSwept(before: Names, i: Inventory)
    requires Swept(before, before - i.records.Keys, i.records.Keys, i) && i.ledger.Some?
    requires LedgerPath(i.backup) in before
    ensures Swept(before, (before - i.records.Keys) - {LedgerPath(i.backup)}, Wanted(i), i)
  {
    assert (before - i.records.Keys) - {LedgerPath(i.backup)} == before - Wanted(i);
  }

  lemma NothingCleaned(names: Names, i: Inventory)
    ensures Cleaned(names, names, i, false)
  {
  }

  lemma BackupPathHolds(names: Names, f: Frame, backup: Path)
    requires Sweepable(names, f, backup) && Identity(names, f)
    ensures PathIdentity(names, f, backup)
  {
    IdentityGivesPath(names, f, backup);
  }
}
