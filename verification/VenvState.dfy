/** The state of a running venv transaction as a value: the disk, what has been
    frozen, how far the transaction has come, and what every step keeps. */
module VenvState {
  import opened Wrappers
  import opened Records
  import opened FileSystem
  import opened Ownership
  import opened Frames
  import opened Areas
  import opened Layout
  import opened Geometry

  const LEDGER_MODE := 384

  /** `next` is the new metadata while it is recorded but not yet published;
      `stranded` says that a fault left something the transaction has no record
      of. */
  datatype State = State(
    names: Names, frame: Frame, backup: Path,
    ground: Ground, done: Progress, extra: Names,
    started: bool, ledger: Option<Object>, entries: seq<Entry>,
    next: Option<Object>, stranded: bool)

  ghost predicate Placed(s: State) {
    s.names == World(s.ground, s.done, s.extra) && Consistent(s.ground, s.done, s.extra)
  }

  /** The backup directory holds originals and the transaction's own files. */
  ghost predicate Partitioned(s: State) {
    && (forall q :: q in Kept(s.ground, s.done) ==> !Prefix(s.backup, q))
    && (forall q :: q in Live(s.ground, s.done) ==>
        Within(s.frame.root, q) && !Prefix(s.backup, q) && !Private(s.frame.root, q))
    && (forall q :: q in s.extra ==>
        (Prefix(s.backup, q) && !Numbered(s.backup, q)) || (s.stranded && q in s.frame.absent))
  }

  /** The backup directory is where it was made. */
  ghost predicate BackupKept(s: State) {
    && BackupPath(s.frame.root, s.backup)
    && s.ground.backup == s.backup && s.ground.meta == MetadataPath(s.frame.root)
    && s.backup in s.frame.directories && s.frame.directories[s.backup].Dir?
    && s.backup in s.extra && s.extra[s.backup] == s.frame.directories[s.backup]
    && LockPath(s.frame.root) in s.ground.base && s.ground.base[LockPath(s.frame.root)] == s.frame.guard
    && s.frame.guard.File? && s.frame.guard.links == 1
  }

  ghost predicate FrameKept(f: Frame, backup: Path) {
    && CoversFixed(f) && Covers(f, backup)
    && f.root in f.directories && [] in f.directories
    && (forall q :: q in f.absent ==> !Prefix(backup, q))
  }

  predicate LedgerObject(o: Object, entries: seq<Entry>) {
    o.File? && o.content == Journal(entries) && o.mode == LEDGER_MODE && o.links == 1
  }

  /** The ledger on disk is the one that was written. */
  ghost predicate LedgerKept(s: State) {
    && (s.started ==> s.ledger.Some?)
    && (s.ledger.Some? ==>
          && s.ledger.value.File?
          && LedgerPath(s.backup) in s.extra
          && s.extra[LedgerPath(s.backup)].inode == s.ledger.value.inode
          && LedgerObject(s.extra[LedgerPath(s.backup)], s.entries))
  }

  ghost predicate NextKept(s: State) {
    s.next.Some? ==> Matches(s.extra, NextMetadataPath(s.backup), s.next.value)
  }

  /** Nothing is in the backup directory, beside the originals, that the
      transaction has no record of. */
  ghost predicate Accounted(s: State) {
    s.extra.Keys == {s.backup}
      + (if s.ledger.Some? then {LedgerPath(s.backup)} else {})
      + (if s.next.Some? then {NextMetadataPath(s.backup)} else {})
  }

  ghost predicate Sound(s: State) {
    && Tree(s.names) && Placed(s) && Partitioned(s) && BackupKept(s) && FrameKept(s.frame, s.backup)
    && LedgerKept(s) && NextKept(s)
    && (s.stranded <==> !Accounted(s))
  }

  ghost predicate Steady(s: State) {
    Identity(s.names, s.frame)
  }

  // ---------------------------------------------------------------- geometry

  lemma ExtraMember(s: State, q: Path)
    requires Placed(s) && q in s.extra
    ensures q in s.names && s.names[q] == s.extra[q]
  {
    hide Kept, Live, Originals, Consistent;
  }

  lemma InBackup(s: State, q: Path)
    requires Placed(s) && Partitioned(s) && Prefix(s.backup, q) && q in s.names
    ensures q in s.extra || q in Originals(s.ground, s.done)
  {
    hide Kept, Live, Originals, Consistent;
  }

  lemma BackupOpens(s: State, name: string)
    requires Sound(s) && Steady(s)
    ensures ParentOpens(s.names, s.frame, s.backup + [name])
  {
    hide Placed, Partitioned, LedgerKept, NextKept, Accounted, Tree;
    IdentityGivesPath(s.names, s.frame, s.backup);
    assert Parent(s.backup + [name]) == s.backup;
  }

  lemma LedgerNamed(backup: Path)
    ensures LedgerPath(backup) == backup + ["ledger.json"]
  {
  }

  lemma BackupIsDir(s: State)
    requires Sound(s)
    ensures IsDir(s.names, s.backup)
  {
    hide Placed, Partitioned, LedgerKept, NextKept, Accounted, Tree, FrameKept;
    ExtraMember(s, s.backup);
  }

  lemma LedgerAbsent(s: State)
    requires Sound(s) && !s.stranded && s.ledger.None?
    ensures LedgerPath(s.backup) !in s.names
  {
    hide Placed, Partitioned, LedgerKept, NextKept, Tree, FrameKept;
    var q := LedgerPath(s.backup);
    if q in s.names {
      InBackup(s, q);
      BackupNamesDiffer(s.backup, 0);
      LedgerNotOriginal(s.ground, s.done);
    }
  }

  lemma NextAbsent(s: State)
    requires Sound(s) && !s.stranded && s.next.None?
    ensures NextMetadataPath(s.backup) !in s.names
  {
    hide Placed, Partitioned, LedgerKept, NextKept, Tree, FrameKept;
    var q := NextMetadataPath(s.backup);
    if q in s.names {
      InBackup(s, q);
      BackupNamesDiffer(s.backup, 0);
      LedgerNotOriginal(s.ground, s.done);
    }
  }

  lemma NumberFree(s: State)
    requires Sound(s) && !s.stranded
    ensures BackupFile(s.backup, |s.done.backed|) !in s.names
  {
    hide Placed, Partitioned, LedgerKept, NextKept, Tree, FrameKept, BackupFile;
    var q := BackupFile(s.backup, |s.done.backed|);
    BackupNamesDiffer(s.backup, |s.done.backed|);
    if q in s.names {
      assert Prefix(s.backup, q) by {
        assert BackupFile(s.backup, |s.done.backed|) == s.backup + [q[|s.backup|]] by {
          Number(s.backup, |s.done.backed|);
        }
      }
      InBackup(s, q);
      NumberUnused(s.ground, s.done);
    }
  }

  lemma Number(backup: Path, i: nat)
    ensures var q := BackupFile(backup, i); |q| == |backup| + 1 && q == backup + [q[|backup|]] && Prefix(backup, q)
  {
  }

  // ------------------------------------------------------------ what is kept

  lemma FileKeepsTree(names: Names, p: Path, made: Object)
    requires Tree(names) && |p| > 0 && IsDir(names, Parent(p))
    requires p in names ==> names[p].File?
    ensures Tree(names[p := made])
  {
  }

  lemma IdentityKept(names: Names, f: Frame, p: Path, made: Object)
    requires Identity(names, f) && p !in f.absent && Ordinary(f.root, p)
    requires p in names ==> names[p].File?
    ensures Identity(names[p := made], f)
  {
    if p in names {
      IdentityAfterWrite(names, f, p, made);
    } else {
      IdentityAfterCreate(names, f, p, made);
    }
  }

  /** A file of the transaction's own, made or rewritten. */
  lemma OwnFile(s: State, t: State, name: string, made: Object)
    requires Sound(s) && made.File? && !Numbered(s.backup, s.backup + [name])
    requires var p := s.backup + [name];
      && (p in s.extra ==> s.extra[p].File?) && (p in s.extra || p !in s.names)
      && t == s.(names := s.names[p := made], extra := s.extra[p := made],
                 started := t.started, ledger := t.ledger, entries := t.entries, next := t.next, stranded := t.stranded)
    requires LedgerKept(t) && NextKept(t) && (t.stranded <==> !Accounted(t)) && (s.stranded ==> t.stranded)
    ensures Sound(t)
    ensures Steady(s) ==> Steady(t)
  {
    hide World, Consistent, Kept, Live, Originals, Identity, LedgerKept, NextKept, Accounted, FrameKept, Tree;
    var p := s.backup + [name];
    BackupIsDir(s);
    assert Parent(p) == s.backup && Prefix(s.backup, p) && p != s.backup;
    BackupApart(s.frame.root, s.backup, p);
    if p in s.extra {
      ExtraMember(s, p);
    }
    StepExtra(s.ground, s.done, s.extra, p, made);
    FileKeepsTree(s.names, p, made);
    assert Partitioned(t);
    if Steady(s) {
      NotAbsent(s, p);
      IdentityKept(s.names, s.frame, p, made);
    }
  }

  lemma NotAbsent(s: State, p: Path)
    requires FrameKept(s.frame, s.backup) && Prefix(s.backup, p)
    ensures p !in s.frame.absent
  {
  }

  // -------------------------------------------------------------- the ledger

  lemma TreeOf(s: State)
    requires Sound(s)
    ensures Tree(s.names)
  {
  }

  lemma ExtraOf(s: State, q: Path)
    requires Sound(s) && q in s.extra
    ensures q in s.names && s.names[q] == s.extra[q]
  {
    hide Partitioned, BackupKept, FrameKept, LedgerKept, NextKept, Accounted, Placed;
    ExtraMember(s, q);
  }

  lemma LedgerOf(s: State)
    requires Sound(s)
    ensures s.started ==> s.ledger.Some?
    ensures s.ledger.Some? ==>
      && LedgerPath(s.backup) in s.extra && LedgerObject(s.extra[LedgerPath(s.backup)], s.entries)
      && s.ledger.value.File? && s.extra[LedgerPath(s.backup)].inode == s.ledger.value.inode
  {
  }

  lemma AccountedOf(s: State)
    requires Sound(s) && !s.stranded
    ensures Accounted(s)
  {
  }

  lemma FirstExtra(s: State)
    requires !s.stranded && Sound(s)
    ensures s.ledger.None? && s.next.None? ==> s.extra.Keys == {s.backup}
  {
    AccountedOf(s);
  }

  lemma LedgerCreatable(s: State)
    requires Sound(s) && !s.stranded && s.ledger.None?
    ensures LedgerPath(s.backup) !in s.names && CanCreate(s.names, LedgerPath(s.backup))
  {
    hide Sound;
    BackupIsDir(s);
    LedgerAbsent(s);
  }

  /** The ledger is made, and not recorded yet. */
  lemma LedgerMade(s: State, t: State, made: Object)
    requires Sound(s) && !s.stranded && !s.started && s.ledger.None? && LedgerObject(made, s.entries)
    requires var p := LedgerPath(s.backup);
      p !in s.names && t == s.(names := s.names[p := made], extra := s.extra[p := made], stranded := true)
    ensures Sound(t)
    ensures Steady(s) ==> Steady(t)
  {
    BackupNamesDiffer(s.backup, 0);
    LedgerFresh(s);
    LedgerSound(s, t, made);
  }

  lemma LedgerFresh(s: State)
    requires Sound(s)
    ensures LedgerKept(s) && NextKept(s) && (forall q :: q in s.extra ==> q in s.names)
  {
    hide Partitioned, BackupKept, FrameKept, LedgerKept, NextKept, Accounted, Placed;
    forall q | q in s.extra ensures q in s.names {
      ExtraMember(s, q);
    }
  }

  lemma LedgerSound(s: State, t: State, made: Object)
    requires Sound(s) && made.File?
    requires var p := LedgerPath(s.backup);
      && (p in s.extra ==> s.extra[p].File?) && (p in s.extra || p !in s.names)
      && t == s.(names := s.names[p := made], extra := s.extra[p := made], entries := t.entries, stranded := t.stranded)
    requires LedgerKept(t) && NextKept(s) && (s.stranded ==> t.stranded)
    requires t.stranded <==> !Accounted(t)
    ensures Sound(t)
    ensures Steady(s) ==> Steady(t)
  {
    hide Sound, Steady, LedgerKept, Accounted;
    BackupNamesDiffer(s.backup, 0);
    OwnUnnumbered(s.backup);
    OwnFile(s, t, "ledger.json", made);
  }

  lemma LedgerRecorded(s: State, t: State)
    requires Sound(s) && s.stranded == !s.started
    requires LedgerPath(s.backup) in s.extra && LedgerObject(s.extra[LedgerPath(s.backup)], s.entries)
    requires s.started ==> s.ledger.Some?
    requires !s.started ==> s.extra.Keys == {s.backup, LedgerPath(s.backup)} && s.next.None?
    requires t == s.(ledger := Some(s.names[LedgerPath(s.backup)]), stranded := false)
    ensures LedgerPath(s.backup) in s.names && Sound(t)
  {
    hide Tree, Placed, Partitioned, FrameKept, Kept, Live;
    ExtraMember(s, LedgerPath(s.backup));
    PlacedSame(s, t);
    PartitionRecorded(s, t);
  }

  lemma LedgerBegun(t: State)
    requires Sound(t.(started := false)) && t.ledger.Some? && t.started
    ensures Sound(t)
    ensures Steady(t.(started := false)) ==> Steady(t)
  {
    hide Tree, Placed, Partitioned, FrameKept;
    var u := t.(started := false);
    PlacedSame(u, t);
    PartitionFollowsSame(u, t);
  }

  lemma PlacedSame(s: State, t: State)
    requires Placed(s) && s.names == t.names && s.ground == t.ground && s.done == t.done && s.extra == t.extra
    ensures Placed(t)
  {
    hide World, Consistent;
  }

  lemma PartitionFollowsSame(s: State, t: State)
    requires Partitioned(s) && s.backup == t.backup && s.frame == t.frame && s.ground == t.ground && s.done == t.done
    requires s.extra == t.extra && (s.stranded ==> t.stranded)
    ensures Partitioned(t)
  {
    hide Kept, Live;
  }

  lemma PartitionRecorded(s: State, t: State)
    requires Partitioned(s) && t == s.(ledger := t.ledger, stranded := false)
    requires s.stranded ==> s.extra.Keys == {s.backup, LedgerPath(s.backup)}
    ensures Partitioned(t)
  {
    hide Kept, Live, Numbered;
    OwnUnnumbered(s.backup);
  }

  lemma LedgerWritten(s: State, t: State)
    requires Sound(s) && !s.stranded && s.ledger.Some?
    requires var p := LedgerPath(s.backup);
      && p in s.names && s.names[p].File?
      && var made := s.names[p].(content := Journal(t.entries));
         t == s.(names := s.names[p := made], extra := s.extra[p := made], entries := t.entries)
    ensures Sound(t)
    ensures Steady(s) ==> Steady(t)
  {
    LedgerOf(s);
    ExtraOf(s, LedgerPath(s.backup));
    AccountedOf(s);
    LedgerFresh(s);
    LedgerSound(s, t, t.names[LedgerPath(s.backup)]);
  }

  // -------------------------------------------------------------- the way out

  lemma InKept(s: State, q: Path)
    requires Placed(s) && Partitioned(s) && !s.stranded
    requires q in s.names && !Prefix(s.backup, q) && q !in Live(s.ground, s.done)
    requires s.ground.backup == s.backup
    ensures q in Kept(s.ground, s.done) && s.names[q] == s.ground.base[q] && q in s.ground.base
  {
    OriginalsUnderBackup(s.ground, s.done);
    hide Live, Originals, Consistent;
    assert q !in Originals(s.ground, s.done);
    assert q !in s.extra;
  }

  lemma MovedKeepsTree(names: Names, from: Path, to: Path)
    requires Tree(names) && CanRename(names, from, to) && names[from].File?
    ensures Tree(Moved(names, from, to)) && Moved(names, from, to) == Move(names, from, to)
  {
  }

  /** A step brings at most one new name outside the backup directory. */
  lemma PartitionFollows(s: State, t: State, p: Path)
    requires Partitioned(s) && t.backup == s.backup && t.frame.root == s.frame.root && t.stranded == s.stranded
    requires Kept(t.ground, t.done).Keys <= Kept(s.ground, s.done).Keys + {p}
    requires Live(t.ground, t.done).Keys <= Live(s.ground, s.done).Keys + {p}
    requires t.extra.Keys <= s.extra.Keys && s.frame.absent <= t.frame.absent
    requires Within(s.frame.root, p) && !Prefix(s.backup, p) && !Private(s.frame.root, p)
    ensures Partitioned(t)
  {
    hide Kept, Live, Within, Prefix;
  }

  lemma NothingLive(g: Ground, done: Progress)
    requires done.published == [] && done.made == map[] && done.metadata.None?
    ensures Live(g, done) == map[]
  {
  }

  /** An original moves into the backup directory. */
  lemma BackedUp(s: State, t: State, d: Item)
    requires Sound(s) && !s.stranded
    requires s.done.published == [] && s.done.made == map[] && s.done.metadata.None? && !s.done.metadataBacked
    requires InScheme(s.frame.root, d.final)
    requires var to := BackupFile(s.backup, |s.done.backed|);
      && CanRename(s.names, d.final, to) && s.names[d.final].File?
      && t == s.(names := Moved(s.names, d.final, to), done := s.done.(backed := s.done.backed + [d]))
    ensures Sound(t)
    ensures Steady(s) ==> Steady(t)
    ensures d.final in s.ground.base && s.names[d.final] == s.ground.base[d.final]
  {
    hide World, Consistent, Kept, Live, Originals, Identity, FrameKept, Tree, BackupFile, InScheme, Prefix;
    var to := BackupFile(s.backup, |s.done.backed|);
    SchemeApart(s.frame.root, s.backup, d.final);
    NothingLive(s.ground, s.done);
    NothingLive(t.ground, t.done);
    InKept(s, d.final);
    MovedKeepsTree(s.names, d.final, to);
    StepBackup(s.ground, s.done, s.extra, d);
    KeptBackup(s.ground, s.done, d);
    assert Partitioned(t);
    if Steady(s) {
      Number(s.backup, |s.done.backed|);
      NotAbsent(s, to);
      IdentityAfterRename(s.names, s.frame, d.final, to);
    }
  }

  /** An output moves to its final path. */
  lemma MovedIn(s: State, t: State, d: Item)
    requires Sound(s) && !s.stranded
    requires InScheme(s.frame.root, d.final) && Private(s.frame.root, d.source)
    requires d.final in s.ground.outputs && CanRename(s.names, d.source, d.final)
    requires s.names[d.source] == s.ground.outputs[d.final] && s.names[d.source].File?
    requires t == s.(names := Moved(s.names, d.source, d.final),
                     done := s.done.(published := s.done.published + [d], consumed := s.done.consumed + {d.source}))
    ensures Sound(t)
    ensures Steady(s) && d.final !in s.frame.absent ==> Steady(t)
  {
    hide World, Consistent, Kept, Live, Originals, Identity, FrameKept, Tree, InScheme, Prefix;
    SchemeApart(s.frame.root, s.backup, d.final);
    SourceApart(s.frame.root, s.backup, d.source);
    InKept(s, d.source);
    MovedKeepsTree(s.names, d.source, d.final);
    PublishedParts(s, d);
    StepPublish(s.ground, s.done, s.extra, d);
    assert Partitioned(t);
    if Steady(s) && d.final !in s.frame.absent {
      IdentityAfterRename(s.names, s.frame, d.source, d.final);
    }
  }

  lemma PublishedParts(s: State, d: Item)
    requires Placed(s) && d.final in s.ground.outputs && d.final !in s.names && d.final != s.ground.meta
    ensures var done := s.done.(published := s.done.published + [d], consumed := s.done.consumed + {d.source});
      && Kept(s.ground, done) == Kept(s.ground, s.done) - {d.source}
      && Live(s.ground, done) == Live(s.ground, s.done)[d.final := s.ground.outputs[d.final]]
  {
    hide Sum, Separate, Kept, Live, Originals;
    NotInSum(Kept(s.ground, s.done), Live(s.ground, s.done), Originals(s.ground, s.done), s.extra, d.final);
    LiveMembers(s.ground, s.done);
    KeptConsumed(s.ground, s.done, d);
    LivePublish(s.ground, s.done, d);
  }

  lemma PrefixTransitive(a: Path, b: Path, c: Path)
    requires Prefix(a, b) && Prefix(b, c)
    ensures Prefix(a, c)
  {
    assert c[..|a|] == c[..|b|][..|a|];
  }

  lemma SourceApart(root: Path, backup: Path, p: Path)
    requires Private(root, p) && BackupPath(root, backup)
    ensures !Prefix(backup, p) && Ordinary(root, p) && p != MetadataPath(root) && !InScheme(root, p)
  {
    PrivateApart(root, p);
  }

  /** A missing directory is made and recorded. */
  lemma DirectoryMade(s: State, t: State, p: Path, made: Object)
    requires Sound(s) && !s.stranded
    requires p in s.frame.absent && Within(s.frame.root, p) && p != MetadataPath(s.frame.root)
    requires !Private(s.frame.root, p)
    requires CanCreate(s.names, p) && made.Dir?
    requires t == s.(names := s.names[p := made], done := s.done.(made := s.done.made[p := made]),
                     frame := s.frame.(directories := s.frame.directories[p := made], absent := s.frame.absent - {p}))
    ensures Sound(t)
    ensures Steady(s) ==> Steady(t)
  {
    hide World, Consistent, Kept, Live, Originals, Identity, Tree;
    assert p != s.backup;
    StepMake(s.ground, s.done, s.extra, p, made);
    LiveMake(s.ground, s.done, p, made);
    KeptSame(s.ground, s.done, t.done);
    assert Partitioned(t);
    DirectoryKeepsTree(s.names, p, made);
    FrameGrows(s.frame, s.backup, p, made);
    if Steady(s) {
      IdentityAfterMkdir(s.names, s.frame, p, made);
    }
  }

  // ------------------------------------------------------ directories to make

  /** A directory the transaction may have to make. */
  predicate PlannedDirectory(root: Path, base: Names, q: Path) {
    Within(root, q) && Placeable(root, q) && q != MetadataPath(root) && q !in base
  }

  /** Every created directory was planned, is frozen now, and was made after its
      parent. */
  ghost predicate MadeLinked(root: Path, base: Names, created: seq<Path>, directories: Names, made: Names) {
    && made.Keys == Elements(created)
    && (forall q :: q in created ==>
          PlannedDirectory(root, base, q) && q in directories && directories[q] == made[q] && Up(q) in directories)
    && (forall i, j :: 0 <= i < j < |created| ==> created[i] != created[j] && created[j] != Up(created[i]))
  }

  ghost predicate AbsentPlanned(root: Path, base: Names, absent: set<Path>, directories: Names) {
    forall q :: q in absent ==> PlannedDirectory(root, base, q) && q !in directories
  }

  lemma MadeAt(root: Path, base: Names, created: seq<Path>, directories: Names, made: Names, i: nat)
    requires MadeLinked(root, base, created, directories, made) && i < |created|
    ensures created[i] in directories && Up(created[i]) in directories && Placeable(root, created[i])
  {
    hide Placeable;
    assert created[i] in created;
  }

  lemma MadeSnoc(root: Path, base: Names, created: seq<Path>, directories: Names, made: Names, p: Path, object_: Object)
    requires MadeLinked(root, base, created, directories, made)
    requires PlannedDirectory(root, base, p) && p !in directories && Up(p) in directories
    ensures MadeLinked(root, base, created + [p], directories[p := object_], made[p := object_])
  {
    hide PlannedDirectory;
    var more := created + [p];
    assert forall q :: q in more <==> q in created || q == p;
    forall i, j | 0 <= i < j < |more|
      ensures more[i] != more[j] && more[j] != Up(more[i])
    {
      if j == |created| {
        assert created[i] in created;
      }
    }
  }

  lemma AbsentShrinks(root: Path, base: Names, absent: set<Path>, directories: Names, p: Path, object_: Object)
    requires AbsentPlanned(root, base, absent, directories) && p in absent
    ensures AbsentPlanned(root, base, absent - {p}, directories[p := object_])
    ensures PlannedDirectory(root, base, p) && |p| > 0 && p !in directories
    ensures Within(root, p) && p != MetadataPath(root) && !Private(root, p)
  {
    PlaceableNotPrivate(root, p);
    hide Placeable;
  }

  lemma CoveredOpens(s: State, p: Path)
    requires Sound(s)
    ensures Steady(s) && Covers(s.frame, p) ==> PathIdentity(s.names, s.frame, p)
  {
    hide Placed, Partitioned, LedgerKept, NextKept, Accounted, Tree, PathIdentity, Identity, Covers;
    if Steady(s) && Covers(s.frame, p) {
      IdentityGivesPath(s.names, s.frame, p);
    }
  }

  lemma CoversUp(f: Frame, p: Path)
    ensures Covers(f, p) ==> Known(f, p) && Covers(f, Up(p))
  {
    if Covers(f, p) {
      assert p[..|p|] == p;
      forall k | 0 <= k <= |Up(p)| ensures Known(f, Up(p)[..k]) {
        assert Up(p)[..k] == p[..k];
      }
    }
  }

  /** The frame of a transaction that made directories and nothing else. */
  ghost predicate Grew(f: Frame, g: Frame) {
    && g.root == f.root && g.guard == f.guard && g.config == f.config
    && g.absent <= f.absent
    && g.directories.Keys + g.absent == f.directories.Keys + f.absent
    && (forall q :: q in f.directories ==> q in g.directories && g.directories[q] == f.directories[q])
  }

  lemma GrewNone(f: Frame)
    ensures Grew(f, f)
  {
  }

  lemma GrewByOne(f: Frame, p: Path, made: Object)
    requires p in f.absent && p !in f.directories
    ensures Grew(f, f.(directories := f.directories[p := made], absent := f.absent - {p}))
  {
  }

  lemma GrewTwice(f: Frame, g: Frame, h: Frame)
    requires Grew(f, g) && Grew(g, h)
    ensures Grew(f, h)
  {
  }

  lemma StillCovers(f: Frame, g: Frame, p: Path)
    requires Grew(f, g)
    ensures Covers(f, p) ==> Covers(g, p)
  {
    forall q | Known(f, q) ensures Known(g, q) {
      assert q in f.directories.Keys + f.absent;
    }
    if Covers(f, p) {
      CoversGrow(f, g, p);
    }
  }

  lemma DirectoryOpens(s: State, p: Path)
    requires Sound(s) && Steady(s) && Covers(s.frame, p) && |p| > 0
    requires p in s.frame.absent && Parent(p) in s.frame.directories
    ensures ParentOpens(s.names, s.frame, p) && CanCreate(s.names, p)
  {
    hide Placed, Partitioned, LedgerKept, NextKept, Accounted, Tree, PathIdentity;
    assert Covers(s.frame, Parent(p)) by {
      forall k | 0 <= k <= |Parent(p)| ensures Known(s.frame, Parent(p)[..k]) {
        assert Parent(p)[..k] == p[..k];
      }
    }
    IdentityGivesPath(s.names, s.frame, Parent(p));
    assert SameDirectory(s.names, s.frame.directories, Parent(p));
  }

  lemma DirectoryKeepsTree(names: Names, p: Path, made: Object)
    requires Tree(names) && CanCreate(names, p)
    ensures Tree(names[p := made])
  {
  }

  lemma FrameGrows(f: Frame, backup: Path, p: Path, made: Object)
    requires FrameKept(f, backup)
    ensures FrameKept(f.(directories := f.directories[p := made], absent := f.absent - {p}), backup)
  {
    CoversGrow(f, f.(directories := f.directories[p := made], absent := f.absent - {p}), backup);
  }

  /** A directory is made, but the fault comes before it is recorded. */
  lemma DirectoryStranded(s: State, t: State, p: Path, made: Object)
    requires Sound(s) && !s.stranded
    requires p in s.frame.absent && Within(s.frame.root, p)
    requires CanCreate(s.names, p) && made.Dir?
    requires t == s.(names := s.names[p := made], extra := s.extra[p := made], stranded := true)
    ensures Sound(t) && !Steady(t)
  {
    hide World, Consistent, Kept, Live, Originals, FrameKept, Tree;
    NotBackup(s.frame, s.backup, p);
    StepExtra(s.ground, s.done, s.extra, p, made);
    DirectoryKeepsTree(s.names, p, made);
    assert Partitioned(t);
  }

  lemma NotBackup(f: Frame, backup: Path, p: Path)
    requires FrameKept(f, backup) && p in f.absent
    ensures !Prefix(backup, p) && p != backup
  {
  }

  lemma MetadataIsNotLive(s: State)
    requires Placed(s) && s.done.metadata.None?
    ensures s.ground.meta !in Live(s.ground, s.done)
  {
    hide Live, Undoable, Separate, World;
    MetadataNotLive(s.ground, s.done);
  }

  /** The old metadata moves into the backup directory. */
  lemma MetadataBackedUp(s: State, t: State)
    requires Sound(s) && !s.stranded && s.done.metadata.None? && !s.done.metadataBacked
    requires var meta, to := MetadataPath(s.frame.root), OldMetadataPath(s.backup);
      && CanRename(s.names, meta, to) && s.names[meta].File?
      && t == s.(names := Moved(s.names, meta, to), done := s.done.(metadataBacked := true))
    ensures Sound(t)
    ensures Steady(s) ==> Steady(t)
  {
    hide World, Consistent, Kept, Live, Originals, Identity, FrameKept, Tree;
    var meta, to := MetadataPath(s.frame.root), OldMetadataPath(s.backup);
    MetadataApart(s.frame.root, s.backup);
    MetadataIsNotLive(s);
    InKept(s, meta);
    MovedKeepsTree(s.names, meta, to);
    StepBackupMetadata(s.ground, s.done, s.extra);
    KeptMetadata(s.ground, s.done);
    LiveSame(s.ground, s.done, t.done);
    assert Partitioned(t);
    if Steady(s) {
      NotAbsent(s, to);
      IdentityAfterRename(s.names, s.frame, meta, to);
    }
  }

  /** The new metadata moves to its place. */
  lemma MetadataPublished(s: State, t: State)
    requires Sound(s) && !s.stranded && s.done.metadata.None? && s.next.Some?
    requires var meta, from := MetadataPath(s.frame.root), NextMetadataPath(s.backup);
      && CanRename(s.names, from, meta) && s.names[from].File?
      && t == s.(names := Moved(s.names, from, meta), extra := s.extra - {from},
                 done := s.done.(metadata := s.next), next := None)
    requires MetadataPath(s.frame.root) !in s.frame.absent
    ensures Sound(t)
    ensures Steady(s) ==> Steady(t)
  {
    hide Placed, Partitioned, Kept, Live, Originals, FrameKept, Tree, NextMetadataPath, LedgerPath, Accounted;
    hide LedgerKept, Steady;
    NextTaken(s, t);
    MetadataPublishedPlaced(s, t);
    MetadataPublishedRest(s, t);
    MovedKeepsTree(s.names, NextMetadataPath(s.backup), MetadataPath(s.frame.root));
    NextInBackup(s.backup);
  }

  lemma MetadataPublishedRest(s: State, t: State)
    requires BackupKept(s) && Partitioned(s) && s.done.metadata.None? && s.next.Some?
    requires var meta, from := MetadataPath(s.frame.root), NextMetadataPath(s.backup);
      && CanRename(s.names, from, meta) && s.names[from].File?
      && t == s.(names := Moved(s.names, from, meta), extra := s.extra - {from},
                 done := s.done.(metadata := s.next), next := None)
    requires MetadataPath(s.frame.root) !in s.frame.absent
    ensures Partitioned(t)
    ensures Steady(s) ==> Steady(t)
  {
    hide Partitioned, Kept, Live, Identity, NextMetadataPath;
    var meta, from := MetadataPath(s.frame.root), NextMetadataPath(s.backup);
    MetadataApart(s.frame.root, s.backup);
    NextInBackup(s.backup);
    BackupApart(s.frame.root, s.backup, from);
    LiveMetadata(s.ground, s.done, s.next.value);
    KeptSame(s.ground, s.done, t.done);
    PartitionFollows(s, t, meta);
    SteadyRename(s, from, meta);
  }

  lemma MetadataPublishedPlaced(s: State, t: State)
    requires Placed(s) && NextKept(s) && s.done.metadata.None? && s.next.Some?
    requires s.ground.backup == s.backup && s.ground.meta == MetadataPath(s.frame.root)
    requires var meta, from := MetadataPath(s.frame.root), NextMetadataPath(s.backup);
      && CanRename(s.names, from, meta)
      && t == s.(names := Moved(s.names, from, meta), extra := s.extra - {from},
                 done := s.done.(metadata := s.next), next := None)
    ensures Placed(t)
  {
    hide World, Consistent, NextMetadataPath;
    StepPublishMetadata(s.ground, s.done, s.extra);
  }

  lemma NextInBackup(backup: Path)
    ensures Prefix(backup, NextMetadataPath(backup)) && NextMetadataPath(backup) != backup
  {
  }

  lemma SteadyRename(s: State, from: Path, to: Path)
    requires CanRename(s.names, from, to) && s.names[from].File?
    requires Ordinary(s.frame.root, from) && to !in s.frame.absent
    ensures Steady(s) ==> Identity(Moved(s.names, from, to), s.frame)
  {
    hide Identity;
    if Steady(s) {
      IdentityAfterRename(s.names, s.frame, from, to);
    }
  }

  lemma NextTaken(s: State, t: State)
    requires Accounted(s) && LedgerKept(s) && s.next.Some? && t.next.None?
    requires t.extra == s.extra - {NextMetadataPath(s.backup)}
    requires t.backup == s.backup && t.started == s.started && t.ledger == s.ledger && t.entries == s.entries
    ensures Accounted(t) && LedgerKept(t)
  {
    BackupNamesDiffer(s.backup, 0);
  }

  // ------------------------------------------------------------- the way back

  lemma SteadyRemove(s: State, p: Path)
    requires p in s.names && s.names[p].File? && Ordinary(s.frame.root, p)
    ensures Steady(s) ==> Identity(s.names - {p}, s.frame)
  {
    hide Identity;
    if Steady(s) {
      IdentityAfterRemove(s.names, s.frame, p);
    }
  }

  lemma RemovedKeepsTree(names: Names, p: Path)
    requires Tree(names) && CanRemove(names, p)
    ensures Tree(names - {p})
  {
  }

  lemma MetadataWithdrawn(s: State, t: State)
    requires Sound(s) && s.done.metadata.Some? && s.done.metadata.value.File?
    requires var meta := MetadataPath(s.frame.root);
      && CanRemove(s.names, meta)
      && t == s.(names := s.names - {meta}, done := s.done.(metadata := None))
    ensures Sound(t)
    ensures Steady(s) ==> Steady(t)
  {
    hide World, Consistent, Kept, Live, Originals, Identity, FrameKept, Tree, Accounted, LedgerKept, NextKept;
    var meta := MetadataPath(s.frame.root);
    MetadataApart(s.frame.root, s.backup);
    UndoPublishMetadata(s.ground, s.done, s.extra);
    NoMetadataLeft(s);
    KeptSame(s.ground, s.done, t.done);
    RemovedKeepsTree(s.names, meta);
    assert Partitioned(t);
    SteadyRemove(s, meta);
    SameRecords(s, t);
  }

  lemma SameRecords(s: State, t: State)
    requires t.extra == s.extra && t.backup == s.backup && t.started == s.started && t.ledger == s.ledger
    requires t.entries == s.entries && t.next == s.next
    ensures Accounted(s) <==> Accounted(t)
    ensures LedgerKept(s) ==> LedgerKept(t)
    ensures NextKept(s) ==> NextKept(t)
  {
  }

  lemma NoMetadataLeft(s: State)
    requires Placed(s) && s.done.metadata.Some?
    ensures Live(s.ground, s.done.(metadata := None)) == Live(s.ground, s.done) - {s.ground.meta}
  {
    hide Live, Undoable, Separate, World;
    LiveNoMetadata(s.ground, s.done);
  }

  lemma MetadataRestored(s: State, t: State)
    requires Sound(s) && s.done.metadataBacked
    requires var meta, from := MetadataPath(s.frame.root), OldMetadataPath(s.backup);
      && CanRename(s.names, from, meta) && s.names[from].File?
      && t == s.(names := Moved(s.names, from, meta), done := s.done.(metadataBacked := false))
    requires MetadataPath(s.frame.root) !in s.frame.absent
    ensures Sound(t)
    ensures Steady(s) ==> Steady(t)
  {
    hide World, Consistent, Kept, Live, Originals, Identity, FrameKept, Tree, Accounted, LedgerKept, NextKept;
    hide OldMetadataPath;
    var meta, from := MetadataPath(s.frame.root), OldMetadataPath(s.backup);
    MetadataApart(s.frame.root, s.backup);
    OldInBackup(s.backup);
    BackupApart(s.frame.root, s.backup, from);
    UndoBackupMetadata(s.ground, s.done, s.extra);
    MetadataKeptAgain(s);
    LiveSame(s.ground, s.done, t.done);
    MovedKeepsTree(s.names, from, meta);
    assert Partitioned(t);
    SteadyRename(s, from, meta);
    SameRecords(s, t);
  }

  lemma OldInBackup(backup: Path)
    ensures Prefix(backup, OldMetadataPath(backup))
  {
  }

  lemma MetadataKeptAgain(s: State)
    requires Placed(s) && s.done.metadataBacked
    ensures s.ground.meta in s.ground.base
    ensures Kept(s.ground, s.done.(metadataBacked := false)) ==
      Kept(s.ground, s.done)[s.ground.meta := s.ground.base[s.ground.meta]]
  {
    hide Kept, Separate, World;
    KeptMetadataBack(s.ground, s.done);
  }

  lemma Withdrawn(s: State, t: State, d: Item, rest: seq<Item>)
    requires Sound(s) && s.done.published == rest + [d]
    requires InScheme(s.frame.root, d.final) && CanRemove(s.names, d.final) && s.names[d.final].File?
    requires t == s.(names := s.names - {d.final}, done := s.done.(published := rest))
    ensures Sound(t)
    ensures Steady(s) ==> Steady(t)
  {
    hide World, Consistent, Kept, Live, Originals, Identity, FrameKept, Tree, Accounted, LedgerKept, NextKept, InScheme;
    assert s.done.published[..|rest|] == rest;
    SchemeApart(s.frame.root, s.backup, d.final);
    UndoPublish(s.ground, s.done, s.extra);
    LessLive(s);
    KeptSame(s.ground, s.done, t.done);
    RemovedKeepsTree(s.names, d.final);
    assert Partitioned(t);
    SteadyRemove(s, d.final);
    SameRecords(s, t);
  }

  lemma LessLive(s: State)
    requires Placed(s) && |s.done.published| > 0
    ensures var n := |s.done.published| - 1;
      Live(s.ground, s.done.(published := s.done.published[..n])) ==
        Live(s.ground, s.done) - {s.done.published[n].final}
  {
    hide Live, Separate, World, Finals, DistinctFinals;
    var n := |s.done.published| - 1;
    var d := s.done.published[n];
    var less := s.done.(published := s.done.published[..n]);
    assert s.done.published == less.published + [d];
    assert s.done == less.(published := less.published + [d]);
    assert d in s.done.published;
    DistinctInit(less.published, d);
    LiveUnpublish(s.ground, less, d);
  }

  lemma Restored(s: State, t: State)
    requires Sound(s) && |s.done.backed| > 0 && !s.done.metadataBacked
    requires var n := |s.done.backed| - 1; var from, to := BackupFile(s.backup, n), s.done.backed[n].final;
      && InScheme(s.frame.root, to) && CanRename(s.names, from, to) && s.names[from].File?
      && to !in s.frame.absent
      && t == s.(names := Moved(s.names, from, to), done := s.done.(backed := s.done.backed[..n]))
    ensures Sound(t)
    ensures Steady(s) ==> Steady(t)
  {
    hide Placed, Partitioned, Kept, Live, Originals, Identity, FrameKept, Tree, Accounted, LedgerKept, NextKept;
    hide InScheme, BackupFile;
    var n := |s.done.backed| - 1;
    var from, to := BackupFile(s.backup, n), s.done.backed[n].final;
    SchemeApart(s.frame.root, s.backup, to);
    Number(s.backup, n);
    BackupApart(s.frame.root, s.backup, from);
    RestoredPlaced(s, t);
    MoreKept(s);
    LiveSame(s.ground, s.done, t.done);
    MovedKeepsTree(s.names, from, to);
    PartitionFollows(s, t, to);
    SteadyRename(s, from, to);
    SameRecords(s, t);
  }

  lemma RestoredPlaced(s: State, t: State)
    requires Placed(s) && |s.done.backed| > 0 && !s.done.metadataBacked && s.ground.backup == s.backup
    requires var n := |s.done.backed| - 1; var from, to := BackupFile(s.backup, n), s.done.backed[n].final;
      && CanRename(s.names, from, to)
      && t == s.(names := Moved(s.names, from, to), done := s.done.(backed := s.done.backed[..n]))
    ensures Placed(t)
  {
    hide World, Consistent, BackupFile;
    UndoBackup(s.ground, s.done, s.extra);
  }

  lemma MoreKept(s: State)
    requires Placed(s) && |s.done.backed| > 0
    ensures var n := |s.done.backed| - 1; var p := s.done.backed[n].final;
      && p in s.ground.base
      && Kept(s.ground, s.done.(backed := s.done.backed[..n])) == Kept(s.ground, s.done)[p := s.ground.base[p]]
  {
    hide Kept, Separate, World, Undoable;
    LessBacked(s.ground, s.done);
  }

  lemma LessBacked(g: Ground, done: Progress)
    requires Undoable(g, done) && |done.backed| > 0
    ensures var n := |done.backed| - 1; var p := done.backed[n].final;
      && p in g.base
      && Kept(g, done.(backed := done.backed[..n])) == Kept(g, done)[p := g.base[p]]
  {
    hide Kept, Finals, DistinctFinals;
    var n := |done.backed| - 1;
    var d := done.backed[n];
    var less := done.(backed := done.backed[..n]);
    assert done.backed == less.backed + [d];
    assert done == less.(backed := less.backed + [d]);
    assert d in done.backed;
    DistinctInit(less.backed, d);
    KeptBack(g, less, d);
  }

  lemma DirectoryUnmade(s: State, t: State, p: Path)
    requires Sound(s) && s.done.published == [] && s.done.metadata.None? && p in s.done.made
    requires p in s.frame.directories && CanRemove(s.names, p) && s.names[p].Dir?
    requires t == s.(names := s.names - {p}, done := s.done.(made := s.done.made - {p}),
                     frame := s.frame.(directories := s.frame.directories - {p}, absent := s.frame.absent + {p}))
    ensures Sound(t)
    ensures Steady(s) ==> Steady(t)
  {
    hide World, Consistent, Kept, Live, Originals, Identity, Tree, Accounted, LedgerKept, NextKept;
    UndoMake(s.ground, s.done, s.extra, p);
    MadeIsLive(s, p);
    LessMade(s, p);
    KeptSame(s.ground, s.done, t.done);
    RemovedKeepsTree(s.names, p);
    PartitionFollows(s, t, p);
    FrameShrinks(s.frame, s.backup, p);
    hide Partitioned, FrameKept;
    SameRecords(s, t);
    if Steady(s) {
      IdentityAfterRmdir(s.names, s.frame, p);
    }
  }

  lemma FrameShrinks(f: Frame, backup: Path, p: Path)
    requires FrameKept(f, backup) && p != f.root && p != [] && !Prefix(backup, p)
    ensures FrameKept(f.(directories := f.directories - {p}, absent := f.absent + {p}), backup)
  {
    CoversGrow(f, f.(directories := f.directories - {p}, absent := f.absent + {p}), backup);
  }

  lemma MadeIsLive(s: State, p: Path)
    requires Placed(s) && p in s.done.made
    ensures p in Live(s.ground, s.done)
  {
    hide Live, Separate, World;
    LiveMembers(s.ground, s.done);
  }

  lemma LessMade(s: State, p: Path)
    requires Placed(s) && p in s.done.made && s.done.published == []
    ensures Live(s.ground, s.done.(made := s.done.made - {p})) == Live(s.ground, s.done) - {p}
  {
    hide Live, Separate, World;
    LiveUnmake(s.ground, s.done, p);
  }
}
