/** What is where at every moment of a Go project transaction. */
module GoLayout {
  import opened Wrappers
  import opened GoDisk
  import opened ControlBackup

  /** What an update puts in place. */
  datatype Update = Update(mod: Content, sum: Content, cache: string)

  function Wanted(u: Update, c: Control): Content {
    if c == Mod then u.mod else u.sum
  }

  function MarkerOf(u: Update): Content {
    Record(u.mod, u.sum)
  }

  function ApprovalOf(u: Update): Content {
    Approved(u.mod, u.sum, u.cache)
  }

  ghost predicate Holds(names: Names, n: Name, content: Content) {
    FileAt(names, n) && names[n].content == content
  }

  // ---------------------------------------------------------- all or nothing

  /** Rollback writes the approval's bytes again, so its inode may be new. */
  ghost predicate ApprovalOld(original: Names, names: Names) {
    || SameAt(original, names, Approval)
    || (FileAt(original, Approval) && Holds(names, Approval, original[Approval].content))
  }

  ghost predicate AllOld(original: Names, names: Names) {
    && SameAt(original, names, Project(Mod)) && SameAt(original, names, Project(Sum))
    && SameAt(original, names, Metadata)
    && ApprovalOld(original, names)
  }

  ghost predicate AllNew(u: Update, names: Names) {
    && Holds(names, Project(Mod), u.mod) && Holds(names, Project(Sum), u.sum)
    && Holds(names, Metadata, Record(u.mod, u.sum)) && Holds(names, Approval, Approved(u.mod, u.sum, u.cache))
  }

  /** All old, all new, or marked by the commit directory. */
  ghost predicate Settled(original: Names, u: Update, names: Names) {
    CommitDirectory in names || AllOld(original, names) || AllNew(u, names)
  }

  /** Whatever state a crash leaves is settled. */
  ghost predicate Crashproof(original: Names, u: Update, trace: seq<Names>) {
    forall i :: 0 <= i < |trace| ==> Settled(original, u, trace[i])
  }

  lemma CrashproofMarked(original: Names, u: Update, a: seq<Names>, b: seq<Names>, names: Names)
    requires Crashproof(original, u, a) && CommitDirectory in names && (b == a || b == a + [names])
    ensures Crashproof(original, u, b)
  {
  }

  lemma CrashproofSettled(original: Names, u: Update, a: seq<Names>, b: seq<Names>)
    requires Crashproof(original, u, a) && Marking(a, b) && |b| > 0 && Settled(original, u, b[|b| - 1])
    ensures Crashproof(original, u, b)
  {
    hide AllOld, AllNew;
    forall i | 0 <= i < |b| ensures Settled(original, u, b[i]) {
      if i < |a| {
        assert b[i] == b[..|a|][i];
      }
    }
  }

  lemma SweptSettles(original: Names, u: Update, a: Names, b: Names, records: Names)
    requires Swept(a, b, records)
    ensures AllOld(original, a) ==> AllOld(original, b)
    ensures AllNew(u, a) ==> AllNew(u, b)
  {
    assert SameAt(a, b, Project(Mod)) && SameAt(a, b, Project(Sum)) && SameAt(a, b, Metadata) && SameAt(a, b, Approval);
  }

  // --------------------------------------------------------------- progress

  /** What the transaction has recorded so far. */
  datatype Progress = Progress(
    moved: set<Control>,
    published: set<Control>,
    chosen: map<Control, Object>,
    metadataMoved: bool,
    originalMetadata: Option<Object>,
    metadataPublished: bool,
    metadataInfo: Option<Object>,
    metadataDirectory: Option<Object>,
    commitDirectory: Option<Object>,
    selectedDirectory: Option<Object>,
    approvalPublished: bool)

  const NOTHING := Progress({}, {}, map[], false, None, false, None, None, None, None, false)

  function Chosen(p: Progress, c: Control): Option<Object> {
    if c in p.chosen then Some(p.chosen[c]) else None
  }

  /** A file the transaction made itself. */
  ghost predicate Made(o: Option<Object>, content: Content, before: Option<Object>) {
    && o.Some? && o.value.File? && o.value.content == content && o.value.others == 0
    && (before.Some? ==> before.value.inode != o.value.inode)
  }

  ghost predicate ControlShape(o: Names, u: Update, p: Progress, names: Names, c: Control) {
    && At(names, Moved(c)) == (if c in p.moved then At(o, Project(c)) else None)
    && At(names, Project(c)) ==
        (if c in p.published then Chosen(p, c) else if c in p.moved then None else At(o, Project(c)))
    && (c in p.moved ==> FileAt(o, Project(c)))
    && (c in p.published ==> c in p.chosen && (c in p.moved || Project(c) !in o))
    && (c in p.chosen ==> Made(Chosen(p, c), Wanted(u, c), At(o, Project(c))))
    && (At(names, Selected(c)) == Chosen(p, c) || (c in p.published && Selected(c) !in names))
  }

  ghost predicate MetadataShape(o: Names, u: Update, p: Progress, names: Names) {
    && At(names, MovedMetadata) == (if p.metadataMoved then At(o, Metadata) else None)
    && At(names, Metadata) ==
        (if p.metadataPublished then p.metadataInfo else if p.metadataMoved then None else At(o, Metadata))
    && (p.metadataMoved ==> FileAt(o, Metadata) && p.originalMetadata == At(o, Metadata) && Placed(names, Metadata))
    && (p.metadataPublished ==>
          && Made(p.metadataInfo, MarkerOf(u), At(o, Metadata)) && (p.metadataMoved || Metadata !in o)
          && p.metadataDirectory.Some? && p.metadataDirectory == At(names, MetadataDirectory))
  }

  /** The approval; and nobody touches the lock. */
  ghost predicate ApprovalShape(o: Names, u: Update, p: Progress, names: Names) {
    && (Approval in o ==> o[Approval].File?) && SameAt(o, names, Lock)
    && (if p.approvalPublished then Holds(names, Approval, ApprovalOf(u)) else SameAt(o, names, Approval))
  }

  ghost predicate BoundaryShape(p: Progress, names: Names) {
    && p.commitDirectory.Some? && p.commitDirectory.value.Directory? && At(names, CommitDirectory) == p.commitDirectory
    && (p.selectedDirectory.Some? ==> p.selectedDirectory.value.Directory?)
    && At(names, SelectedDirectory) == p.selectedDirectory
    && (p.selectedDirectory.None? ==> p.chosen == map[])
  }

  ghost predicate Shape(o: Names, u: Update, p: Progress, names: Names) {
    && BoundaryShape(p, names) && ControlShape(o, u, p, names, Mod) && ControlShape(o, u, p, names, Sum)
    && MetadataShape(o, u, p, names) && ApprovalShape(o, u, p, names)
    && FileAt(o, Project(Mod)) && (Project(Sum) in o ==> o[Project(Sum)].File?)
  }

  lemma ControlOf(o: Names, u: Update, p: Progress, names: Names, c: Control)
    requires Shape(o, u, p, names)
    ensures ControlShape(o, u, p, names, c) && (Project(c) in o ==> o[Project(c)].File?)
  {
  }

  // ------------------------------------------------------------------- steps

  lemma ControlElsewhere(o: Names, u: Update, p: Progress, q: Progress, a: Names, b: Names, c: Control)
    requires ControlShape(o, u, p, a, c)
    requires SameAt(a, b, Moved(c)) && SameAt(a, b, Project(c)) && SameAt(a, b, Selected(c))
    requires (c in p.moved <==> c in q.moved) && (c in p.published <==> c in q.published)
    requires Chosen(p, c) == Chosen(q, c)
    ensures ControlShape(o, u, q, b, c)
  {
  }

  lemma MetadataElsewhere(o: Names, u: Update, p: Progress, q: Progress, a: Names, b: Names)
    requires MetadataShape(o, u, p, a)
    requires SameAt(a, b, MovedMetadata) && SameAt(a, b, Metadata)
    requires (p.metadataPublished ==> SameAt(a, b, MetadataDirectory)) && (Placed(a, Metadata) ==> Placed(b, Metadata))
    requires p.metadataMoved == q.metadataMoved && p.metadataPublished == q.metadataPublished
    requires p.metadataInfo == q.metadataInfo
    requires p.originalMetadata == q.originalMetadata
    requires (p.metadataPublished ==> p.metadataDirectory == q.metadataDirectory)
    ensures MetadataShape(o, u, q, b)
  {
  }

  lemma MetadataStillPlaced(a: Names, b: Names)
    requires MetadataDirectory in a ==> SameAt(a, b, MetadataDirectory)
    ensures Placed(a, Metadata) ==> Placed(b, Metadata)
  {
  }

  lemma RestElsewhere(o: Names, u: Update, p: Progress, q: Progress, a: Names, b: Names)
    requires BoundaryShape(p, a) && ApprovalShape(o, u, p, a)
    requires SameAt(a, b, CommitDirectory) && SameAt(a, b, SelectedDirectory) && SameAt(a, b, Approval)
    requires SameAt(a, b, Lock)
    requires p.commitDirectory == q.commitDirectory && p.selectedDirectory == q.selectedDirectory
    requires p.approvalPublished == q.approvalPublished
    requires q.selectedDirectory.None? ==> q.chosen == map[]
    ensures BoundaryShape(q, b) && ApprovalShape(o, u, q, b)
  {
  }

  function Other(c: Control): Control {
    if c == Mod then Sum else Mod
  }

  /** A step on one control file leaves the rest in shape. */
  lemma StepOnControl(o: Names, u: Update, p: Progress, q: Progress, a: Names, b: Names, c: Control)
    requires Shape(o, u, p, a) && ControlShape(o, u, q, b, c)
    requires forall n :: n != Moved(c) && n != Project(c) && n != Selected(c) ==> SameAt(a, b, n)
    requires q == p.(moved := q.moved, published := q.published, chosen := q.chosen)
    requires var d := Other(c);
      (d in p.moved <==> d in q.moved) && (d in p.published <==> d in q.published) && Chosen(p, d) == Chosen(q, d)
    requires q.selectedDirectory.None? ==> q.chosen == map[]
    ensures Shape(o, u, q, b)
  {
    MetadataStillPlaced(a, b);
    hide ControlShape, MetadataShape, BoundaryShape, ApprovalShape, SameAt, Placed;
    ControlElsewhere(o, u, p, q, a, b, Other(c));
    MetadataElsewhere(o, u, p, q, a, b);
    RestElsewhere(o, u, p, q, a, b);
  }

  lemma StepMoved(o: Names, u: Update, p: Progress, a: Names, c: Control)
    requires Shape(o, u, p, a) && c !in p.moved && c !in p.published && FileAt(a, Project(c))
    ensures Shape(o, u, p.(moved := p.moved + {c}), (a - {Project(c)})[Moved(c) := a[Project(c)]])
  {
    var q, b := p.(moved := p.moved + {c}), (a - {Project(c)})[Moved(c) := a[Project(c)]];
    StepOnControl(o, u, p, q, a, b, c);
  }

  lemma StepChosen(o: Names, u: Update, p: Progress, a: Names, c: Control, made: Object)
    requires Shape(o, u, p, a) && c !in p.moved && c !in p.published && c !in p.chosen && p.selectedDirectory.Some?
    requires Made(Some(made), Wanted(u, c), At(a, Project(c)))
    ensures Shape(o, u, p.(chosen := p.chosen[c := made]), a[Selected(c) := made])
  {
    var q, b := p.(chosen := p.chosen[c := made]), a[Selected(c) := made];
    StepOnControl(o, u, p, q, a, b, c);
  }

  lemma StepPublished(o: Names, u: Update, p: Progress, a: Names, c: Control)
    requires Shape(o, u, p, a) && Project(c) !in a && c !in p.published && c in p.chosen && Selected(c) in a
    ensures Shape(o, u, p.(published := p.published + {c}), a[Project(c) := a[Selected(c)]])
  {
    var q, b := p.(published := p.published + {c}), a[Project(c) := a[Selected(c)]];
    StepOnControl(o, u, p, q, a, b, c);
  }

  lemma StepUnstaged(o: Names, u: Update, p: Progress, a: Names, c: Control)
    requires Shape(o, u, p, a) && c in p.published
    ensures Shape(o, u, p, a - {Selected(c)})
  {
    StepOnControl(o, u, p, p, a, a - {Selected(c)}, c);
  }

  lemma ShapeBoundary(o: Names, u: Update, p: Progress, names: Names)
    requires Shape(o, u, p, names)
    ensures BoundaryShape(p, names) && ApprovalShape(o, u, p, names)
    ensures p.selectedDirectory.None? ==> p.chosen == map[]
  {
  }

  lemma SameBoundary(p: Progress, q: Progress, a: Names, b: Names)
    requires BoundaryShape(p, a) && q.commitDirectory == p.commitDirectory && q.selectedDirectory == p.selectedDirectory
    requires q.chosen == p.chosen
    requires SameAt(a, b, CommitDirectory) && SameAt(a, b, SelectedDirectory)
    ensures BoundaryShape(q, b)
  {
  }

  lemma StepOnMetadata(o: Names, u: Update, p: Progress, q: Progress, a: Names, b: Names)
    requires Shape(o, u, p, a) && MetadataShape(o, u, q, b)
    requires forall n ::
      n != MovedMetadata && n != Metadata && n != MetadataDirectory && n != MetadataTemp ==> SameAt(a, b, n)
    requires q == p.(metadataMoved := q.metadataMoved, originalMetadata := q.originalMetadata,
                     metadataPublished := q.metadataPublished, metadataInfo := q.metadataInfo,
                     metadataDirectory := q.metadataDirectory)
    ensures Shape(o, u, q, b)
  {
    hide ControlShape, MetadataShape, BoundaryShape, ApprovalShape, SameAt;
    ShapeBoundary(o, u, p, a);
    ControlElsewhere(o, u, p, q, a, b, Mod);
    ControlElsewhere(o, u, p, q, a, b, Sum);
    RestElsewhere(o, u, p, q, a, b);
  }

  lemma StepMetadataMoved(o: Names, u: Update, p: Progress, a: Names)
    requires Placed(a, Metadata)
    requires Shape(o, u, p, a) && !p.metadataMoved && !p.metadataPublished && FileAt(a, Metadata)
    ensures Shape(o, u, p.(metadataMoved := true, originalMetadata := Some(a[Metadata])),
      (a - {Metadata})[MovedMetadata := a[Metadata]])
  {
    hide ControlShape, BoundaryShape, ApprovalShape;
    var q, b := p.(metadataMoved := true, originalMetadata := Some(a[Metadata])),
      (a - {Metadata})[MovedMetadata := a[Metadata]];
    StepOnMetadata(o, u, p, q, a, b);
  }

  lemma StepMetadataPublished(o: Names, u: Update, p: Progress, a: Names, made: Object)
    requires Shape(o, u, p, a) && !p.metadataPublished && (p.metadataMoved || Metadata !in o)
    requires p.metadataDirectory.Some? && At(a, MetadataDirectory) == p.metadataDirectory
    requires Made(Some(made), MarkerOf(u), At(o, Metadata)) && At(a, MetadataTemp) == Some(made)
    ensures Shape(o, u, p.(metadataPublished := true, metadataInfo := Some(made)),
      (a - {MetadataTemp})[Metadata := made])
  {
    hide ControlShape, BoundaryShape, ApprovalShape;
    var q, b := p.(metadataPublished := true, metadataInfo := Some(made)), (a - {MetadataTemp})[Metadata := made];
    StepOnMetadata(o, u, p, q, a, b);
  }

  /** A directory is made or is there; the private record comes and goes. */
  lemma StepBesideMetadata(o: Names, u: Update, p: Progress, directory: Option<Object>, a: Names, b: Names)
    requires Shape(o, u, p, a) && !p.metadataPublished
    requires forall n :: n != MetadataDirectory && n != MetadataTemp ==> SameAt(a, b, n)
    requires Placed(a, Metadata) ==> Placed(b, Metadata)
    ensures Shape(o, u, p.(metadataDirectory := directory), b)
  {
    hide ControlShape, BoundaryShape, ApprovalShape;
    var q := p.(metadataDirectory := directory);
    assert SameAt(a, b, Metadata) && SameAt(a, b, MovedMetadata);
    MetadataElsewhere(o, u, p, q, a, b);
    StepOnMetadata(o, u, p, q, a, b);
  }

  lemma StepApproval(o: Names, u: Update, p: Progress, published: bool, a: Names, b: Names)
    requires Shape(o, u, p, a)
    requires forall n: Name :: n != Approval && !n.ApprovalTemp? ==> SameAt(a, b, n)
    requires if published then Holds(b, Approval, ApprovalOf(u)) else !p.approvalPublished && SameAt(a, b, Approval)
    ensures Shape(o, u, p.(approvalPublished := published), b)
  {
    MetadataStillPlaced(a, b);
    hide ControlShape, MetadataShape, BoundaryShape, Placed;
    var q := p.(approvalPublished := published);
    assert SameAt(a, b, CommitDirectory) && SameAt(a, b, SelectedDirectory) && SameAt(a, b, Lock);
    ShapeBoundary(o, u, p, a);
    SameBoundary(p, q, a, b);
    ControlElsewhere(o, u, p, q, a, b, Mod);
    ControlElsewhere(o, u, p, q, a, b, Sum);
    MetadataElsewhere(o, u, p, q, a, b);
  }

  // ------------------------------------------------------------------ endings

  /** `backupRecords`: what the commit directory is expected to hold. */
  function BackupRecords(o: Names, p: Progress, originals: bool): (records: Names)
    ensures Recording(records)
  {
    map n | n in RECORDABLE && RecordOf(o, p, originals, n).Some? :: RecordOf(o, p, originals, n).value
  }

  function RecordOf(o: Names, p: Progress, originals: bool, n: Name): Option<Object> {
    match n
    case Moved(c) => if originals && c in p.moved then At(o, Project(c)) else None
    case Selected(c) => if c !in p.published then Chosen(p, c) else None
    case MovedMetadata => if originals && p.metadataMoved then p.originalMetadata else None
    case _ => None
  }

  lemma RecordsAt(o: Names, p: Progress, originals: bool, n: Name)
    requires Recordable(n)
    ensures At(BackupRecords(o, p, originals), n) == RecordOf(o, p, originals, n)
  {
    if n != MovedMetadata {
      assert n.control == Mod || n.control == Sum;
    }
    assert n in RECORDABLE;
  }

  /** The commit directory holds the records, each the only name of its file. */
  ghost predicate Inside(names: Names, records: Names) {
    && (forall n :: Recordable(n) ==> At(names, n) == At(records, n))
    && (forall n :: n in records ==> records[n].File? && records[n].others == 0)
    && (forall n, m :: n in records && m in names && Kin(m, n) ==> names[m].inode != records[n].inode)
  }

  lemma MembersInside(names: Names, d: Name, records: Names)
    requires Recording(records) && Inside(names, records) && !Visited(names)
    requires (d == CommitDirectory || d == SelectedDirectory)
    ensures MembersOf(names, d) == RecordsOf(records, d)
  {
    forall n ensures n in MembersOf(names, d) <==> n in RecordsOf(records, d) {
      if n in MembersOf(names, d) {
        assert !n.Foreign? && Recordable(n);
      }
      assert n in records ==> Recordable(n) && n in names;
    }
  }

  lemma MatchesInside(names: Names, next: nat, records: Names, n: Name)
    requires WellFormed(names, next) && Recording(records) && Inside(names, records) && n in records
    ensures MemberMatches(names, records, n)
  {
    assert Recordable(n);
    forall m | m in names && m != n ensures names[m].inode != names[n].inode {
      if !Kin(m, n) {
        assert Apart(names);
      }
    }
  }

  lemma ExactInside(names: Names, next: nat, p: Progress, records: Names)
    requires WellFormed(names, next) && BoundaryShape(p, names) && Recording(records) && Inside(names, records)
    requires !Visited(names)
    ensures Exact(names, p.commitDirectory, p.selectedDirectory, records)
  {
    hide Inside, WellFormed, MemberMatches, Visited;
    MembersInside(names, CommitDirectory, records);
    MembersInside(names, SelectedDirectory, records);
    forall n | n in records ensures MemberMatches(names, records, n) {
      MatchesInside(names, next, records, n);
    }
    assert forall n ::
      n in RecordsOf(records, CommitDirectory) || n in RecordsOf(records, SelectedDirectory) ==> n in records;
  }

  /** Every control file published is no longer staged. */
  ghost predicate Unstaged(p: Progress, names: Names) {
    forall c :: c in p.published ==> Selected(c) !in names
  }

  /** No hard link from elsewhere keeps an original alive. */
  ghost predicate Unshared(o: Names) {
    && (forall c: Control :: FileAt(o, Project(c)) ==> o[Project(c)].others == 0)
    && (FileAt(o, Metadata) ==> o[Metadata].others == 0)
  }

  lemma RecordsInside(o: Names, u: Update, p: Progress, names: Names)
    requires Shape(o, u, p, names) && Unstaged(p, names) && Unshared(o)
    ensures Inside(names, BackupRecords(o, p, true))
  {
    var records := BackupRecords(o, p, true);
    forall n | Recordable(n)
      ensures At(names, n) == At(records, n)
      ensures n in records ==> records[n].File? && records[n].others == 0 && forall m ::
        m in names && Kin(m, n) ==> names[m].inode != records[n].inode
    {
      RecordsAt(o, p, true, n);
      if n != MovedMetadata {
        ControlOf(o, u, p, names, n.control);
      }
    }
  }

  /** The control file is as it was, and only what was never published is staged. */
  ghost predicate Restored(o: Names, p: Progress, names: Names, c: Control) {
    && SameAt(o, names, Project(c)) && Moved(c) !in names
    && At(names, Selected(c)) == (if c in p.published then None else Chosen(p, c))
  }

  lemma RestoredInside(o: Names, u: Update, p: Progress, a: Names, names: Names)
    requires Shape(o, u, p, a) && Restored(o, p, names, Mod) && Restored(o, p, names, Sum) && MovedMetadata !in names
    ensures Inside(names, BackupRecords(o, p, false))
  {
    var records := BackupRecords(o, p, false);
    forall n | Recordable(n)
      ensures At(names, n) == At(records, n)
      ensures n in records ==> records[n].File? && records[n].others == 0 && forall m ::
        m in names && Kin(m, n) ==> names[m].inode != records[n].inode
    {
      RecordsAt(o, p, false, n);
      if n != MovedMetadata {
        ControlOf(o, u, p, a, n.control);
        assert n.control == Mod || n.control == Sum;
      }
    }
  }

  /** Every original is at its own name or in the commit directory. */
  ghost predicate Kept(o: Names, names: Names) {
    KeptAt(o, names, Project(Mod), Moved(Mod)) && KeptAt(o, names, Project(Sum), Moved(Sum)) &&
      KeptAt(o, names, Metadata, MovedMetadata)
  }

  // ------------------------------------------------------ what a step may rely on

  /** Two names of one file are kin. */
  lemma AloneBut(names: Names, next: nat, n: Name)
    requires WellFormed(names, next) && n in names
    requires forall m :: m in names && m != n && Kin(m, n) ==> names[m].inode != names[n].inode
    ensures Alone(names, n)
  {
    forall m | m in names && m != n ensures names[m].inode != names[n].inode {
      if !Kin(m, n) {
        assert Apart(names);
      }
    }
  }

  lemma ReadyToMove(o: Names, u: Update, p: Progress, names: Names, next: nat, c: Control)
    requires Shape(o, u, p, names) && WellFormed(names, next) && c !in p.moved && c !in p.published
    ensures At(names, Project(c)) == At(o, Project(c)) && Moved(c) !in names && Placed(names, Moved(c))
    ensures Project(c) in names ==>
      FileAt(names, Project(c)) && Alone(names, Project(c)) && names[Project(c)] == o[Project(c)]
    ensures Project(Mod) in o
  {
    ControlOf(o, u, p, names, c);
    if Project(c) in names {
      AloneBut(names, next, Project(c));
    }
  }

  lemma RenamedNames(a: Names, b: Names, from: Name, to: Name)
    requires from in a && b == (a - {from})[to := a[from]]
    ensures forall n :: n != from && n != to ==> SameAt(a, b, n)
    ensures from != CommitDirectory && CommitDirectory in a ==> CommitDirectory in b
  {
  }

  lemma ReadyToChoose(o: Names, u: Update, p: Progress, names: Names, next: nat, c: Control)
    requires Shape(o, u, p, names) && WellFormed(names, next) && c !in p.moved && c !in p.published && c !in p.chosen
    requires p.selectedDirectory.Some?
    ensures Selected(c) !in names && Placed(names, Selected(c))
    ensures Made(Some(File(next, Wanted(u, c), 0)), Wanted(u, c), At(names, Project(c)))
  {
    ControlOf(o, u, p, names, c);
  }

  lemma ReadyToPublish(o: Names, u: Update, p: Progress, names: Names, next: nat, c: Control)
    requires Shape(o, u, p, names) && WellFormed(names, next) && c !in p.published && c in p.chosen
    requires (c in p.moved || Project(c) !in o)
    ensures Project(c) !in names && FileAt(names, Selected(c)) && names[Selected(c)] == p.chosen[c]
    ensures Alone(names, Selected(c))
  {
    ControlOf(o, u, p, names, c);
    AloneBut(names, next, Selected(c));
  }

  lemma CreatedNames(a: Names, b: Names, n: Name, made: Object)
    requires b == a[n := made]
    ensures At(b, n) == Some(made) && forall m :: m != n ==> SameAt(a, b, m)
    ensures CommitDirectory in a ==> CommitDirectory in b
  {
  }

  lemma RemovedNames(a: Names, b: Names, n: Name)
    requires b == a - {n}
    ensures n !in b && forall m :: m != n ==> SameAt(a, b, m)
    ensures n != CommitDirectory && CommitDirectory in a ==> CommitDirectory in b
  {
  }

  lemma ChangedTwice(a: Names, b: Names, c: Names, m: Name, n: Name)
    requires (forall k :: k != m ==> SameAt(a, b, k)) && (forall k :: k != n ==> SameAt(b, c, k))
    ensures forall k :: k != m && k != n ==> SameAt(a, c, k)
  {
    forall k | k != m && k != n ensures SameAt(a, c, k) {
      assert SameAt(a, b, k) && SameAt(b, c, k);
    }
  }

  lemma KinLinks(c: Control)
    ensures Kin(Selected(c), Project(c)) && Kin(Moved(c), Project(c)) && forall names :: Placed(names, Project(c))
  {
  }

  lemma FileParts(names: Names, n: Name)
    requires FileAt(names, n)
    ensures n in names && names[n].File?
  {
  }

  lemma StillFile(a: Names, b: Names, n: Name)
    requires FileAt(a, n) && SameAt(a, b, n)
    ensures FileAt(b, n)
  {
  }

  lemma FreshAlone(a: Names, b: Names, next: nat, n: Name, made: Object)
    requires WellFormed(a, next) && n !in a && made.inode == next && b == a[n := made]
    ensures Alone(b, n)
  {
  }

  /** What stands where the marker and its directory go has the right kind. */
  ghost predicate Typed(o: Names) {
    && (MetadataDirectory in o ==> o[MetadataDirectory].Directory?)
    && (Metadata in o ==> o[Metadata].File?)
  }

  lemma ReadyToMoveMetadata(o: Names, u: Update, p: Progress, names: Names, next: nat)
    requires Shape(o, u, p, names) && WellFormed(names, next) && !p.metadataMoved && !p.metadataPublished
    ensures At(names, Metadata) == At(o, Metadata) && MovedMetadata !in names && Placed(names, MovedMetadata)
    ensures Metadata in names ==> Placed(names, Metadata)
    ensures FileAt(names, Metadata) ==> Alone(names, Metadata)
  {
    if Metadata in names {
      AloneBut(names, next, Metadata);
    }
  }

  lemma ReadyToMark(o: Names, u: Update, p: Progress, names: Names)
    requires Shape(o, u, p, names) && p.published == {Mod, Sum}
    ensures FileAt(names, Project(Mod)) && FileAt(names, Project(Sum))
    ensures Record(names[Project(Mod)].content, names[Project(Sum)].content) == MarkerOf(u)
  {
  }

  lemma MarkerAbsent(o: Names, u: Update, p: Progress, names: Names)
    requires Shape(o, u, p, names) && !p.metadataPublished && (p.metadataMoved || Metadata !in o)
    ensures Metadata !in names
  {
  }

  lemma MadeFresh(o: Names, next: nat, names: Names, content: Content, made: Object)
    requires made == File(next, content, 0) && (Metadata in o ==> o[Metadata].inode < next)
    ensures Made(Some(made), content, At(o, Metadata))
  {
  }

  /** The private record is nobody's business. */
  lemma StepRecord(o: Names, u: Update, p: Progress, a: Names, b: Names)
    requires Shape(o, u, p, a) && forall n :: n != MetadataTemp ==> SameAt(a, b, n)
    ensures Shape(o, u, p, b)
  {
    hide ControlShape, BoundaryShape, ApprovalShape;
    assert SameAt(a, b, Metadata) && SameAt(a, b, MovedMetadata) && SameAt(a, b, MetadataDirectory);
    MetadataElsewhere(o, u, p, p, a, b);
    StepOnMetadata(o, u, p, p, a, b);
  }

  lemma TypedDirectory(o: Names, u: Update, p: Progress, names: Names)
    requires Shape(o, u, p, names) && (p.metadataMoved || Metadata !in o) && SameAt(o, names, MetadataDirectory)
    ensures Typed(o) <==> (MetadataDirectory in names ==> names[MetadataDirectory].Directory?)
  {
  }

  /** Only the approval and its private record may differ. */
  ghost predicate ApprovalOnly(a: Names, b: Names) {
    forall n: Name :: n != Approval && !n.ApprovalTemp? ==> SameAt(a, b, n)
  }

  lemma ApprovalOnlyOne(a: Names, b: Names, n: Name)
    requires (n == Approval || n.ApprovalTemp?) && forall m :: m != n ==> SameAt(a, b, m)
    ensures ApprovalOnly(a, b)
  {
  }

  lemma ApprovalOnlyTwo(a: Names, b: Names, n: Name)
    requires n.ApprovalTemp? && forall m :: m != n && m != Approval ==> SameAt(a, b, m)
    ensures ApprovalOnly(a, b)
  {
  }

  lemma ApprovalOnlyTwice(a: Names, b: Names, c: Names)
    requires ApprovalOnly(a, b) && ApprovalOnly(b, c)
    ensures ApprovalOnly(a, c)
  {
    forall n: Name | n != Approval && !n.ApprovalTemp? ensures SameAt(a, c, n) {
      assert SameAt(a, b, n) && SameAt(b, c, n);
    }
  }

  lemma FreshRecord(names: Names, next: nat)
    requires WellFormed(names, next)
    ensures ApprovalTemp(next) !in names && Placed(names, ApprovalTemp(next)) && Placed(names, Approval)
    ensures Kin(ApprovalTemp(next), Approval)
  {
  }

  /** The approval there was, if there was one, can be replaced. */
  ghost predicate Replaceable(o: Names, names: Names) {
    if Approval in o then FileAt(o, Approval) && FileAt(names, Approval) else Approval !in names
  }

  // ----------------------------------------------------------------- rollback

  /** What the rollback of one control file needs of the disk. */
  ghost predicate SteadyControl(o: Names, p: Progress, names: Names, c: Control) {
    && (c in p.published ==> Selected(c) !in names)
    && (c in p.moved ==> FileAt(o, Project(c)) && o[Project(c)].others == 0)
  }

  ghost predicate SteadyMetadata(o: Names, p: Progress) {
    p.metadataMoved ==> FileAt(o, Metadata) && o[Metadata].others == 0
  }

  lemma ReadyToTakeBack(o: Names, u: Update, p: Progress, names: Names, next: nat, c: Control)
    requires ControlShape(o, u, p, names, c) && WellFormed(names, next)
    ensures c in p.published ==> FileAt(names, Project(c)) && At(names, Project(c)) == Chosen(p, c)
    ensures c in p.published ==> (SingleLink(names, Project(c)) <==> Selected(c) !in names)
    ensures c !in p.published && c in p.moved ==> Project(c) !in names
    ensures c !in p.moved && c in p.published ==> Project(c) !in o
    ensures c !in p.moved && c !in p.published ==> SameAt(o, names, Project(c))
    ensures c !in p.moved ==> Moved(c) !in names
    ensures c in p.moved ==>
      FileAt(names, Moved(c)) && Alone(names, Moved(c)) && At(names, Moved(c)) == At(o, Project(c))
    ensures At(names, Selected(c)) == (if c in p.published && Selected(c) !in names then None else Chosen(p, c))
  {
    if c in p.moved {
      AloneBut(names, next, Moved(c));
    }
    if c in p.published && Selected(c) !in names {
      AloneBut(names, next, Project(c));
    }
    if c in p.published && Selected(c) in names {
      assert names[Selected(c)].inode == names[Project(c)].inode;
    }
  }

  lemma StillAlone(a: Names, b: Names, n: Name, gone: Name)
    requires FileAt(a, n) && Alone(a, n) && n != gone && (b == a || b == a - {gone})
    ensures FileAt(b, n) && Alone(b, n) && At(b, n) == At(a, n)
  {
  }

  /** The file is at its own name or in the commit directory. */
  ghost predicate KeptAt(o: Names, names: Names, n: Name, aside: Name) {
    FileAt(o, n) ==> SameAt(o, names, n) || At(names, aside) == At(o, n)
  }

  lemma ReadyToTakeBackMetadata(o: Names, u: Update, p: Progress, names: Names, next: nat)
    requires MetadataShape(o, u, p, names) && WellFormed(names, next)
    ensures p.metadataPublished ==>
      && FileAt(names, Metadata) && At(names, Metadata) == p.metadataInfo
      && At(names, MetadataDirectory) == p.metadataDirectory
    ensures p.metadataMoved ==>
      FileAt(names, MovedMetadata) && Alone(names, MovedMetadata) && At(names, MovedMetadata) == At(o, Metadata)
    ensures p.metadataMoved && !p.metadataPublished ==> Metadata !in names
    ensures p.metadataMoved ==> (SteadyMetadata(o, p) <==> SingleLink(names, MovedMetadata))
    ensures !p.metadataMoved ==> MovedMetadata !in names && SteadyMetadata(o, p)
    ensures !p.metadataMoved && p.metadataPublished ==> Metadata !in o
    ensures !p.metadataMoved && !p.metadataPublished ==> SameAt(o, names, Metadata)
    ensures KeptAt(o, names, Metadata, MovedMetadata)
    ensures p.metadataMoved ==> Placed(names, Metadata)
    ensures Kin(MovedMetadata, Metadata)
  {
    if p.metadataMoved {
      AloneBut(names, next, MovedMetadata);
    }
  }

  ghost predicate SteadyControls(o: Names, p: Progress, names: Names) {
    SteadyControl(o, p, names, Mod) && SteadyControl(o, p, names, Sum)
  }

  /** Rollback succeeds without a fault exactly when this holds. */
  ghost predicate Steady(o: Names, p: Progress, names: Names) {
    SteadyControls(o, p, names) && SteadyMetadata(o, p)
  }

  ghost predicate KeptControls(o: Names, names: Names) {
    KeptAt(o, names, Project(Mod), Moved(Mod)) && KeptAt(o, names, Project(Sum), Moved(Sum))
  }

  ghost predicate RestoredControls(o: Names, p: Progress, names: Names) {
    Restored(o, p, names, Mod) && Restored(o, p, names, Sum)
  }

  /** Everything is back, and the commit directory holds what was staged. */
  ghost predicate RolledBack(o: Names, p: Progress, names: Names) {
    && RestoredControls(o, p, names) && SameAt(o, names, Metadata) && MovedMetadata !in names && ApprovalOld(o, names)
    && BoundaryShape(p, names)
  }

  ghost predicate ControlsOnly(a: Names, b: Names) {
    forall n: Name :: !n.Project? && !n.Moved? ==> SameAt(a, b, n)
  }

  lemma ControlsBetween(o: Names, u: Update, p: Progress, a: Names, b: Names)
    requires ControlShape(o, u, p, a, Mod)
    requires forall n :: n != Project(Sum) && n != Moved(Sum) ==> SameAt(a, b, n)
    ensures ControlShape(o, u, p, b, Mod)
    ensures SteadyControl(o, p, a, Mod) <==> SteadyControl(o, p, b, Mod)
  {
    assert SameAt(a, b, Selected(Mod)) && SameAt(a, b, Project(Mod)) && SameAt(a, b, Moved(Mod));
  }

  lemma ControlsBack(o: Names, p: Progress, a: Names, b: Names, c: Names)
    requires forall n :: n != Project(Sum) && n != Moved(Sum) ==> SameAt(a, b, n)
    requires forall n :: n != Project(Mod) && n != Moved(Mod) ==> SameAt(b, c, n)
    ensures Restored(o, p, b, Sum) ==> Restored(o, p, c, Sum)
    ensures KeptAt(o, b, Project(Sum), Moved(Sum)) ==> KeptAt(o, c, Project(Sum), Moved(Sum))
    ensures ControlsOnly(a, c)
  {
    assert SameAt(b, c, Selected(Sum)) && SameAt(b, c, Project(Sum)) && SameAt(b, c, Moved(Sum));
    forall n: Name | !n.Project? && !n.Moved? ensures SameAt(a, c, n) {
      assert SameAt(a, b, n) && SameAt(b, c, n);
    }
  }

  lemma AfterApproval(o: Names, u: Update, p: Progress, a: Names, b: Names)
    requires Shape(o, u, p, a) && ApprovalOnly(a, b)
    ensures MetadataShape(o, u, p, b) && ControlShape(o, u, p, b, Mod) && ControlShape(o, u, p, b, Sum)
    ensures BoundaryShape(p, b)
    ensures SteadyControls(o, p, a) <==> SteadyControls(o, p, b)
  {
    hide ApprovalShape;
    assert forall c: Control :: SameAt(a, b, Selected(c)) && SameAt(a, b, Project(c)) && SameAt(a, b, Moved(c));
    assert SameAt(a, b, CommitDirectory) && SameAt(a, b, SelectedDirectory) && SameAt(a, b, MetadataDirectory);
    assert SameAt(a, b, Metadata) && SameAt(a, b, MovedMetadata);
    MetadataStillPlaced(a, b);
    MetadataElsewhere(o, u, p, p, a, b);
  }

  lemma AfterMetadata(o: Names, u: Update, p: Progress, a: Names, b: Names)
    requires BoundaryShape(p, a) && ControlShape(o, u, p, a, Mod) && ControlShape(o, u, p, a, Sum)
    requires forall n :: n != Metadata && n != MovedMetadata ==> SameAt(a, b, n)
    ensures ControlShape(o, u, p, b, Mod) && ControlShape(o, u, p, b, Sum) && BoundaryShape(p, b)
    ensures SteadyControls(o, p, a) <==> SteadyControls(o, p, b)
    ensures ApprovalOld(o, a) ==> ApprovalOld(o, b)
  {
    assert forall c: Control :: SameAt(a, b, Selected(c)) && SameAt(a, b, Project(c)) && SameAt(a, b, Moved(c));
    assert SameAt(a, b, CommitDirectory) && SameAt(a, b, SelectedDirectory) && SameAt(a, b, Approval);
  }

  lemma AfterControls(o: Names, u: Update, p: Progress, a: Names, b: Names)
    requires ControlsOnly(a, b) && BoundaryShape(p, a)
    ensures BoundaryShape(p, b)
    ensures ApprovalOld(o, a) ==> ApprovalOld(o, b)
    ensures SameAt(o, a, Metadata) && MovedMetadata !in a ==> SameAt(o, b, Metadata) && MovedMetadata !in b
    ensures KeptAt(o, a, Metadata, MovedMetadata) ==> KeptAt(o, b, Metadata, MovedMetadata)
  {
    assert SameAt(a, b, CommitDirectory) && SameAt(a, b, SelectedDirectory) && SameAt(a, b, Approval);
    assert SameAt(a, b, Metadata) && SameAt(a, b, MovedMetadata);
  }

  lemma RolledBackOld(o: Names, p: Progress, names: Names)
    requires RolledBack(o, p, names)
    ensures AllOld(o, names)
  {
  }

  lemma ShapeKept(o: Names, u: Update, p: Progress, names: Names)
    requires Shape(o, u, p, names)
    ensures Kept(o, names)
  {
  }

  // ------------------------------------------------------------------- stages

  function Present(o: Names): set<Control> {
    set c: Control | c in {Mod, Sum} && Project(c) in o
  }

  /** The progress at the end of each stage: prepared, backed up, linked, marked,
      approved. */
  ghost predicate Stage(o: Names, p: Progress, stage: nat) {
    && p.chosen.Keys == {Mod, Sum}
    && p.moved == (if stage >= 1 then Present(o) else {}) && p.metadataMoved == (stage >= 1 && Metadata in o)
    && p.published == (if stage >= 2 then {Mod, Sum} else {})
    && p.metadataPublished == (stage >= 3) && p.approvalPublished == (stage >= 4)
  }

  /** Nothing has happened yet around the marker. */
  ghost predicate MarkerSide(o: Names, names: Names) {
    SameAt(o, names, MetadataDirectory) && SameAt(o, names, MetadataTemp)
  }

  lemma StageParts(o: Names, p: Progress)
    ensures Stage(o, p, 0) ==> !p.metadataMoved && !p.metadataPublished && p.moved == {} && p.published == {}
    ensures Stage(o, p, 1) ==>
      p.published == {} && forall c: Control :: c in p.chosen && (c in p.moved || Project(c) !in o)
    ensures Stage(o, p, 2) ==> !p.metadataPublished && (p.metadataMoved || Metadata !in o) && p.published == {Mod, Sum}
    ensures Stage(o, p, 3) ==> !p.approvalPublished
  {
    if Stage(o, p, 1) {
      forall c: Control ensures c in p.chosen && (c in p.moved || Project(c) !in o) {
        assert c == Mod || c == Sum;
      }
    }
  }

  lemma SideStays(o: Names, a: Names, b: Names)
    requires MarkerSide(o, a) && SameAt(a, b, MetadataDirectory) && SameAt(a, b, MetadataTemp)
    ensures MarkerSide(o, b)
  {
  }

  /** At the end all is new. */
  lemma StageNew(o: Names, u: Update, p: Progress, names: Names)
    requires Shape(o, u, p, names) && Stage(o, p, 4)
    ensures AllNew(u, names)
  {
  }

  /** The check of the inventory shows that no original is linked elsewhere. */
  lemma InventoryUnshared(o: Names, u: Update, p: Progress, names: Names)
    requires Shape(o, u, p, names) && Stage(o, p, 4)
    requires Inventory(names, p.commitDirectory, p.selectedDirectory, BackupRecords(o, p, true))
    ensures Unshared(o)
  {
    var records := BackupRecords(o, p, true);
    forall c: Control | FileAt(o, Project(c)) ensures o[Project(c)].others == 0 {
      ControlOf(o, u, p, names, c);
      assert c == Mod || c == Sum;
      assert c in p.moved;
      assert Moved(c) in MembersOf(names, CommitDirectory);
    }
    if FileAt(o, Metadata) {
      assert MovedMetadata in MembersOf(names, CommitDirectory);
    }
  }

  lemma OldKept(o: Names, u: Update, names: Names)
    requires AllOld(o, names)
    ensures Kept(o, names) && ApprovalWhole(o, u, names)
  {
  }

  /** What an update needs of the project it finds, and leaves behind: nothing in
      the way of the marker, and no hard link from elsewhere. */
  ghost predicate Sound(o: Names) {
    Typed(o) && MetadataTemp !in o && Unshared(o)
  }

  lemma StageSound(o: Names, u: Update, p: Progress, names: Names, next: nat)
    requires Shape(o, u, p, names) && Stage(o, p, 4) && WellFormed(names, next) && MetadataTemp !in names
    ensures Sound(names)
  {
    assert Placed(names, Metadata);
    forall c: Control | FileAt(names, Project(c)) ensures names[Project(c)].others == 0 {
      assert c == Mod || c == Sum;
    }
  }

  lemma SoundStays(a: Names, b: Names, records: Names)
    requires Sound(a) && Swept(a, b, records)
    ensures Sound(b)
  {
    assert SameAt(a, b, MetadataDirectory) && SameAt(a, b, Metadata) && SameAt(a, b, MetadataTemp);
    assert forall c: Control :: SameAt(a, b, Project(c));
  }

  /** The approval is the old one or the new one. */
  ghost predicate ApprovalWhole(o: Names, u: Update, names: Names) {
    ApprovalOld(o, names) || Holds(names, Approval, ApprovalOf(u))
  }

  lemma ApprovalWholeStays(o: Names, u: Update, a: Names, b: Names)
    requires ApprovalWhole(o, u, a) && SameAt(a, b, Approval)
    ensures ApprovalWhole(o, u, b)
  {
  }

  // ------------------------------------------------------------------- opening

  /** Only the commit directory and what is in it may differ. */
  ghost predicate InsideOnly(a: Names, b: Names) {
    forall n :: !InCommit(n) ==> SameAt(a, b, n)
  }

  /** A project that can be frozen. */
  predicate Freezable(o: Names) {
    FileAt(o, Project(Mod)) && (Project(Sum) in o ==> o[Project(Sum)].File?)
  }

  lemma InsideOnlyOld(a: Names, b: Names)
    requires InsideOnly(a, b)
    ensures AllOld(a, b) && MarkerSide(a, b) && SameAt(a, b, Lock)
  {
  }

  lemma InsideOnlyOne(a: Names, b: Names, c: Names, n: Name)
    requires InsideOnly(a, b) && InCommit(n) && forall m :: m != n ==> SameAt(b, c, m)
    ensures InsideOnly(a, c)
  {
    forall m | !InCommit(m) ensures SameAt(a, c, m) {
      assert SameAt(a, b, m) && SameAt(b, c, m);
    }
  }

  lemma InsideOnlySwept(a: Names, b: Names, c: Names, records: Names)
    requires InsideOnly(a, b) && Swept(b, c, records)
    ensures InsideOnly(a, c)
  {
    forall m | !InCommit(m) ensures SameAt(a, c, m) {
      assert SameAt(a, b, m) && SameAt(b, c, m);
    }
  }

  ghost predicate Bare(o: Names) {
    forall n :: n in o ==> !InCommit(n)
  }

  /** Without the commit directory nothing is below it. */
  lemma NoneInside(o: Names, next: nat)
    requires WellFormed(o, next) && CommitDirectory !in o
    ensures Bare(o)
  {
    forall n | n in o ensures !InCommit(n) {
      assert Placed(o, n);
      assert SelectedDirectory in o ==> Placed(o, SelectedDirectory);
    }
  }

  /** Both directories are there and nothing else has happened. */
  lemma StartShape(o: Names, u: Update, p: Progress, names: Names, commit: Object, selected: Object)
    requires Bare(o) && names == o[CommitDirectory := commit][SelectedDirectory := selected]
    requires commit.Directory? && selected.Directory?
    requires p == NOTHING.(commitDirectory := Some(commit), selectedDirectory := Some(selected))
    requires Freezable(o) && (Approval in o ==> o[Approval].File?)
    ensures Shape(o, u, p, names) && InsideOnly(o, names)
  {
  }

  lemma StagePrepared(o: Names, p: Progress, q: Progress, r: Progress)
    requires p == NOTHING.(commitDirectory := p.commitDirectory, selectedDirectory := p.selectedDirectory)
    requires Mod in q.chosen && q == p.(chosen := p.chosen[Mod := q.chosen[Mod]])
    requires Sum in r.chosen && r == q.(chosen := q.chosen[Sum := r.chosen[Sum]])
    ensures Stage(o, r, 0)
  {
  }

  lemma NothingParts()
    ensures NOTHING.moved == {} && NOTHING.published == {} && NOTHING.chosen == map[]
  {
  }

  lemma LockStays(o: Names, u: Update, p: Progress, names: Names)
    requires Shape(o, u, p, names)
    ensures SameAt(o, names, Lock)
  {
  }

  lemma LockStaysTwice(a: Names, b: Names, c: Names)
    requires SameAt(a, b, Lock) && SameAt(b, c, Lock)
    ensures SameAt(a, c, Lock)
  {
  }

  lemma LockOutside(a: Names, b: Names)
    ensures ApprovalOnly(a, b) ==> SameAt(a, b, Lock)
    ensures ControlsOnly(a, b) ==> SameAt(a, b, Lock)
    ensures forall records :: Swept(a, b, records) ==> SameAt(a, b, Lock)
    ensures InsideOnly(a, b) ==> SameAt(a, b, Lock)
  {
  }

  /** Everything that was there has been moved away, or nothing has. */
  ghost predicate MovedAll(o: Names, p: Progress) {
    p.moved == Present(o) && p.metadataMoved == (Metadata in o)
  }

  ghost predicate MovedNone(p: Progress) {
    p.moved == {} && !p.metadataMoved && p.published == {}
  }

  /** Once all originals are away, rollback depends on their links alone. */
  lemma SteadyExactly(o: Names, u: Update, p: Progress, names: Names)
    requires Shape(o, u, p, names) && Unstaged(p, names)
    ensures MovedAll(o, p) && Typed(o) ==> (Steady(o, p, names) <==> Unshared(o))
    ensures MovedNone(p) ==> Steady(o, p, names)
  {
    if MovedAll(o, p) && Typed(o) && Steady(o, p, names) {
      forall c: Control | FileAt(o, Project(c)) ensures o[Project(c)].others == 0 {
        assert c == Mod || c == Sum;
        assert c in p.moved;
      }
    }
  }

  lemma StageMoved(o: Names, p: Progress)
    ensures Stage(o, p, 1) || Stage(o, p, 2) ==> MovedAll(o, p)
    ensures Stage(o, p, 0) ==> MovedNone(p)
  {
  }

  lemma MovedSame(o: Names, p: Progress, q: Progress)
    requires q.moved == p.moved && q.metadataMoved == p.metadataMoved
    ensures MovedAll(o, p) ==> MovedAll(o, q)
  {
  }
}
