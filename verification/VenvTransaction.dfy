/** The transaction over one virtual environment: back up, publish, publish the
    ownership metadata, reconcile, and then clean up or roll back. */
module VenvTransaction {
  import opened Wrappers
  import opened Records
  import opened FileSystem
  import opened Ownership
  import opened Frames
  import opened Layout
  import opened Geometry
  import opened VenvState
  import opened VenvPlan
  import opened VenvOutcome
  import opened VenvUndo
  import opened VenvSweep
  import opened VenvConclude
  import opened VenvPrepare
  import opened VenvOpening
  import opened VenvResult
  import opened VenvRuns

  /** The two name spaces agree except at `p`. */
  ghost predicate SameElsewhere(a: Names, b: Names, p: Path) {
    forall q :: q != p ==> (q in a <==> q in b) && (q in a ==> a[q] == b[q])
  }

  lemma SameButOne(names: Names, p: Path, o: Object)
    ensures SameElsewhere(names, names, p) && SameElsewhere(names, names[p := o], p)
  {
  }

  lemma StartManages(names: Names, root: Path, current: Files, start: Before, before: Before, finals: set<Path>)
    requires BeforeStarts(names, root, current, start) && BeforeGrew(names, start, before, finals)
    ensures Manages(names, root, current, before)
  {
    hide Final;
  }

  /** How far the recovery ledger has been written. */
  datatype Ledger = Ledger(
    started: bool, identity: Option<Object>, entries: seq<Entry>,
    backed: nat, published: nat, created: nat,
    metadataBacked: bool, metadataPublished: bool)

  const NO_LEDGER := Ledger(false, None, [], 0, 0, 0, false, false)

  class Transaction {
    const root: Path
    const disk: Disk

    var guard: Object
    var config: Object
    var current: Files
    var metadata: Option<Object>
    var directories: Names
    var absent: set<Path>
    var created: seq<Path>
    var before: Before
    var outputs: Names
    var publishedMetadata: Option<Object>
    var published: seq<Item>
    var backed: seq<Item>
    var backup: Path
    var metadataPublished: bool
    var metadataBacked: bool
    var recovery: bool
    var ledger: Ledger

    // Proof state: the names the commit started from, how far it has come, what
    // else is on the disk, whether a fault left something unrecorded, and the new
    // metadata while it waits in the backup directory.
    ghost var ground: Ground
    ghost var done: Progress
    ghost var extra: Names
    ghost var stranded: bool
    ghost var pending: Option<Object>

    constructor (root: Path, disk: Disk, guard: Object)
      ensures this.root == root && this.disk == disk && this.guard == guard
      ensures directories == map[] && absent == {} && before == map[] && outputs == map[]
      ensures created == [] && published == [] && backed == [] && ledger == NO_LEDGER
      ensures !metadataPublished && !metadataBacked && !recovery && !stranded
      ensures metadata.None? && publishedMetadata.None? && pending.None?
    {
      this.root, this.disk, this.guard := root, disk, guard;
      directories, absent, before, outputs := map[], {}, map[], map[];
      created, published, backed, ledger := [], [], [], NO_LEDGER;
      metadataPublished, metadataBacked, recovery, stranded := false, false, false, false;
      metadata, publishedMetadata, pending := None, None, None;
    }

    function Frozen(): Frame
      reads `guard, `config, `directories, `absent
    {
      Frame(root, guard, config, directories, absent)
    }

    ghost function Now(): State
      reads `guard, `config, `directories, `absent, `backup, `ground, `done, `extra, `stranded
      reads `ledger, `pending, disk`names
    {
      State(disk.names, Frozen(), backup, ground, done, extra, ledger.started, ledger.identity, ledger.entries, pending,
        stranded)
    }

    // ------------------------------------------------------------- primitives

    method OpenParent(p: Path) returns (ok: bool)
      modifies disk`faults
      ensures disk.faults == old(disk.faults) || disk.faults == old(disk.faults) + 1
      ensures ok <==> ParentOpens(disk.names, Frozen(), p) && disk.faults == old(disk.faults)
    {
      var lucky := disk.Try();
      ok := lucky && ParentOpens(disk.names, Frozen(), p);
    }

    /** `rename`: both parents are opened, then the name moves. */
    method RenameTo(from: Path, to: Path) returns (ok: bool)
      requires Tree(disk.names)
      requires from in disk.names ==> disk.names[from].File?
      modifies disk
      ensures Tree(disk.names)
      ensures disk.faults >= old(disk.faults)
      ensures ok ==> disk.faults == old(disk.faults) && CanRename(old(disk.names), from, to)
      ensures disk.names == if ok then Moved(old(disk.names), from, to) else old(disk.names)
      ensures !ok && disk.faults == old(disk.faults) ==>
        !(CanRename(old(disk.names), from, to)
          && ParentOpens(old(disk.names), Frozen(), from) && ParentOpens(old(disk.names), Frozen(), to))
    {
      hide ParentOpens, CanRename, Tree, Moved;
      ok := OpenParent(from);
      if !ok { return; }
      ok := OpenParent(to);
      if !ok { return; }
      ok := disk.Rename(from, to);
    }

    /** `remove`. */
    method RemoveName(p: Path) returns (ok: bool)
      requires Tree(disk.names)
      modifies disk
      ensures Tree(disk.names)
      ensures disk.faults >= old(disk.faults)
      ensures ok ==> disk.faults == old(disk.faults) && CanRemove(old(disk.names), p)
      ensures disk.names == if ok then old(disk.names) - {p} else old(disk.names)
      ensures !ok && disk.faults == old(disk.faults) ==>
        !(CanRemove(old(disk.names), p) && ParentOpens(old(disk.names), Frozen(), p))
    {
      hide ParentOpens, CanRemove, Tree;
      ok := OpenParent(p);
      if !ok { return; }
      ok := disk.Remove(p);
    }

    /** A snapshot is compared with what is at a path now. */
    method StillMatches(p: Path, snapshot: Object) returns (ok: bool)
      modifies disk`faults
      ensures disk.faults == old(disk.faults) || disk.faults == old(disk.faults) + 1
      ensures ok <==> Matches(disk.names, p, snapshot) && disk.faults == old(disk.faults)
    {
      var lucky := disk.Try();
      ok := lucky && Matches(disk.names, p, snapshot);
    }

    method VerifyIdentity() returns (ok: bool)
      modifies disk`faults
      ensures disk.faults == old(disk.faults) || disk.faults == old(disk.faults) + 1
      ensures ok <==> Identity(disk.names, Frozen()) && disk.faults == old(disk.faults)
    {
      var lucky := disk.Try();
      ok := lucky && Identity(disk.names, Frozen());
    }

    method VerifyPathIdentity(p: Path) returns (ok: bool)
      modifies disk`faults
      ensures disk.faults == old(disk.faults) || disk.faults == old(disk.faults) + 1
      ensures ok <==> PathIdentity(disk.names, Frozen(), p) && disk.faults == old(disk.faults)
    {
      var lucky := disk.Try();
      ok := lucky && PathIdentity(disk.names, Frozen(), p);
    }

    /** No more slips and faults at checkpoints than faults; and one slip at least, if
        something has been left without a record. */
    twostate predicate Tallied()
      reads this, disk, disk.tally
    {
      && old(disk.tally.slips) <= disk.tally.slips && old(disk.tally.checkpoints) <= disk.tally.checkpoints
      && disk.tally.slips - old(disk.tally.slips) + disk.tally.checkpoints - old(disk.tally.checkpoints)
         <= disk.faults - old(disk.faults)
      && (stranded && !old(stranded) ==> disk.tally.slips > old(disk.tally.slips))
    }

    // ----------------------------------------------------------------- ledger

    /** The ledger can be written: every earlier write to it went through. */
    ghost predicate Writable()
      reads `guard, `config, `directories, `absent, `backup, `ground, `done, `extra, `stranded
      reads `ledger, `pending, disk`names
    {
      && Sound(Now()) && !stranded && ledger.started == ledger.identity.Some?
      && (!ledger.started ==> ledger.entries == [] && pending.None?)
    }

    /** Makes the ledger. */
    method MakeLedger() returns (ok: bool)
      requires Writable() && !ledger.started
      modifies disk, this`extra, this`stranded
      ensures Sound(Now()) && disk.faults >= old(disk.faults)
      ensures SameElsewhere(old(disk.names), disk.names, LedgerPath(backup))
      ensures old(Steady(Now())) ==> Steady(Now())
      ensures ok <==> disk.faults == old(disk.faults)
      ensures stranded == ok
      ensures ok ==> LedgerPath(backup) in extra && LedgerObject(extra[LedgerPath(backup)], ledger.entries)
      ensures extra.Keys == old(extra.Keys) + (if ok then {LedgerPath(backup)} else {})
    {
      hide Steady, Sound, Identity, LedgerKept, Tree, IsDir, LedgerPath, CanCreate, SameElsewhere;
      var path := LedgerPath(backup);
      ghost var s := Now();
      TreeOf(s);
      LedgerCreatable(s);
      var inode: nat := *;
      var made := File(inode, Journal([]), LEDGER_MODE, 1);
      SameButOne(disk.names, path, made);
      ok := disk.Create(path, made);
      if ok {
        extra := extra[path := made];
        stranded := true;
        LedgerMade(s, Now(), made);
      }
    }

    /** Opens the ledger, making it the first time. */
    method OpenLedger() returns (ok: bool)
      requires Writable()
      modifies disk, this`extra, this`stranded
      ensures Sound(Now())
      ensures SameElsewhere(old(disk.names), disk.names, LedgerPath(backup))
      ensures old(Steady(Now())) ==> Steady(Now())
      ensures ok ==> disk.faults == old(disk.faults) && stranded == !ledger.started
      ensures ok ==> LedgerPath(backup) in extra && LedgerObject(extra[LedgerPath(backup)], ledger.entries)
      ensures ok && ledger.started ==>
        ledger.identity.value.File? && extra[LedgerPath(backup)].inode == ledger.identity.value.inode
      ensures extra.Keys == old(extra.Keys) + (if ok && !ledger.started then {LedgerPath(backup)} else {})
      ensures !ok ==> !stranded
      ensures disk.faults >= old(disk.faults)
      ensures !ok && disk.faults == old(disk.faults) ==> !old(Steady(Now()))
    {
      hide Sound, Identity, ParentOpens, LedgerKept, LedgerObject, LedgerPath;
      if Steady(Now()) {
        BackupOpens(Now(), "ledger.json");
        LedgerNamed(backup);
      }
      ok := OpenParent(LedgerPath(backup));
      if ok && !ledger.started {
        ok := MakeLedger();
      } else if ok {
        ok := disk.Try();
        LedgerOf(Now());
      }
    }

    /** Records what was opened. */
    method RecordLedger() returns (ok: bool)
      requires Sound(Now()) && stranded == !ledger.started
      requires LedgerPath(backup) in extra && LedgerObject(extra[LedgerPath(backup)], ledger.entries)
      requires ledger.started ==>
        ledger.identity.Some? && ledger.identity.value.File? &&
          extra[LedgerPath(backup)].inode == ledger.identity.value.inode
      requires !ledger.started ==> extra.Keys == {backup, LedgerPath(backup)} && pending.None?
      modifies disk`faults, this`ledger, this`stranded
      modifies if ledger.started then {} else {disk.tally}
      ensures Sound(Now())
      ensures disk.faults >= old(disk.faults)
      ensures ok <==> disk.faults == old(disk.faults)
      ensures ok ==> !stranded && ledger.identity.Some?
      ensures !ok ==> stranded == old(stranded)
      ensures ledger == (if ok then old(ledger).(identity := ledger.identity) else old(ledger))
      ensures disk.tally.slips == old(disk.tally.slips) + (if ok || old(ledger.started) then 0 else 1)
      ensures disk.tally.checkpoints == old(disk.tally.checkpoints)
    {
      hide Sound, Identity;
      var path := LedgerPath(backup);
      ghost var s := Now();
      ExtraOf(s, path);
      var lucky := disk.Try();
      ok := lucky && path in disk.names && LedgerObject(disk.names[path], ledger.entries)
        && (ledger.started ==> disk.names[path].inode == ledger.identity.value.inode);
      if ok {
        ledger := ledger.(identity := Some(disk.names[path]));
        stranded := false;
        LedgerRecorded(s, Now());
      } else if !ledger.started {
        disk.tally.Count(1);
      }
    }

    /** Writes one line.  A write can stop part of the way. */
    method WriteLine(entry: Entry) returns (ok: bool)
      requires Sound(Now()) && !stranded && ledger.identity.Some?
      modifies disk, this`extra, this`ledger
      ensures Sound(Now())
      ensures SameElsewhere(old(disk.names), disk.names, LedgerPath(backup))
      ensures old(Steady(Now())) ==> Steady(Now())
      ensures disk.faults >= old(disk.faults)
      ensures ok <==> disk.faults == old(disk.faults)
      ensures ledger == old(ledger).(entries := ledger.entries)
      ensures ok ==> ledger.entries == old(ledger.entries) + [entry]
    {
      hide Sound, Identity, Steady, SameElsewhere, LedgerPath, Tree;
      var path := LedgerPath(backup);
      ghost var s := Now();
      TreeOf(s);
      LedgerOf(s);
      ExtraOf(s, path);
      ok := disk.Try();
      var part: nat := *;
      var added := if ok then [entry] else if part == 0 then [] else [Torn];
      disk.Write(path, Journal(ledger.entries + added));
      SameButOne(s.names, path, disk.names[path]);
      extra := extra[path := disk.names[path]];
      ledger := ledger.(entries := ledger.entries + added);
      LedgerWritten(s, Now());
    }

    /** Only the ledger changed, and no check that held fails now. */
    twostate predicate Journalled()
      reads this, disk
    {
      && disk.faults >= old(disk.faults)
      && SameElsewhere(old(disk.names), disk.names, LedgerPath(backup))
      && (old(Steady(Now())) ==> Steady(Now()))
    }

    /** The ledger, opened and recorded. */
    method ReadyLedger() returns (ok: bool)
      requires Writable()
      modifies disk, this`extra, this`stranded, this`ledger
      modifies if ledger.started then {} else {disk.tally}
      ensures Sound(Now()) && Journalled()
      ensures ok ==> disk.faults == old(disk.faults) && !stranded && ledger.identity.Some?
      ensures !ok && disk.faults == old(disk.faults) ==> !old(Steady(Now()))
      ensures ledger == old(ledger).(identity := ledger.identity)
      ensures stranded ==> !old(ledger.started)
      ensures Tallied()
    {
      hide Sound, Identity, LedgerObject, Tree, Accounted, SameElsewhere;
      AccountedOf(Now());
      FirstExtra(Now());
      ok := OpenLedger();
      if !ok { return; }
      ok := RecordLedger();
    }

    /** The line is synced; after the first one the ledger has begun. */
    method SyncLedger() returns (ok: bool)
      requires Sound(Now()) && !stranded && ledger.identity.Some? && (!ledger.started ==> pending.None?)
      modifies disk`faults, this`ledger
      ensures Sound(Now()) && Journalled() && (ok ==> Writable() && ledger.started)
      ensures ok ==> disk.faults == old(disk.faults)
      ensures !ok ==> disk.faults > old(disk.faults)
      ensures ledger == old(ledger).(started := ledger.started)
    {
      hide Sound, Identity;
      ok := disk.Try();
      if !ok { return; }
      if !ledger.started {
        ghost var s := Now();
        ledger := ledger.(started := true);
        assert Now().(started := false) == s;
        LedgerBegun(Now());
        ok := disk.Try();
      }
    }

    /** `appendJournal`: one more line, written and synced. */
    method AppendJournal(entry: Entry) returns (ok: bool)
      requires Writable()
      modifies disk, this`extra, this`stranded, this`ledger
      modifies if ledger.started then {} else {disk.tally}
      ensures Sound(Now()) && Journalled()
      ensures ok ==> disk.faults == old(disk.faults)
      ensures !ok && disk.faults == old(disk.faults) ==> !old(Steady(Now()))
      ensures ok ==> Writable() && ledger.started && ledger.entries == old(ledger.entries) + [entry]
      ensures ledger == old(ledger).(started := ledger.started, identity := ledger.identity, entries := ledger.entries)
      ensures stranded ==> !old(ledger.started)
      ensures Tallied()
    {
      hide Sound, Identity;
      ok := ReadyLedger();
      if !ok { return; }
      ok := WriteLine(entry);
      if !ok { return; }
      ok := SyncLedger();
    }

    method PersistBacked() returns (ok: bool)
      requires Writable() && ledger.started
      modifies disk, this`extra, this`stranded, this`ledger
      ensures Sound(Now()) && Journalled() && !stranded
      ensures ok ==> disk.faults == old(disk.faults) && Writable() && ledger.started
      ensures !ok && disk.faults == old(disk.faults) ==> !old(Steady(Now()))
    {
      hide Sound, Identity;
      ok := true;
      while ok && ledger.backed < |backed|
        invariant Sound(Now()) && Journalled() && !stranded
        invariant ok ==> disk.faults == old(disk.faults) && Writable() && ledger.started
        invariant !ok && disk.faults == old(disk.faults) ==> !old(Steady(Now()))
        decreases ok, |backed| - ledger.backed
      {
        ok := AppendJournal(Backed(backed[ledger.backed].final, ledger.backed));
        if ok {
          ledger := ledger.(backed := ledger.backed + 1);
        }
      }
    }

    method PersistPublished() returns (ok: bool)
      requires Writable() && ledger.started
      modifies disk, this`extra, this`stranded, this`ledger
      ensures Sound(Now()) && Journalled() && !stranded
      ensures ok ==> disk.faults == old(disk.faults) && Writable() && ledger.started
      ensures !ok && disk.faults == old(disk.faults) ==> !old(Steady(Now()))
    {
      hide Sound, Identity;
      ok := true;
      while ok && ledger.published < |published|
        invariant Sound(Now()) && Journalled() && !stranded
        invariant ok ==> disk.faults == old(disk.faults) && Writable() && ledger.started
        invariant !ok && disk.faults == old(disk.faults) ==> !old(Steady(Now()))
        decreases ok, |published| - ledger.published
      {
        ok := AppendJournal(Published(published[ledger.published].final));
        if ok {
          ledger := ledger.(published := ledger.published + 1);
        }
      }
    }

    /** The created directories, as listed, are the ones that were made. */
    ghost predicate Linked()
      reads `created, `directories, `done, `ground, `absent
    {
      MadeLinked(root, ground.base, created, directories, done.made)
      && AbsentPlanned(root, ground.base, absent, directories)
    }

    method PersistNextCreated() returns (ok: bool)
      requires Writable() && ledger.started && Linked() && ledger.created < |created|
      modifies disk, this`extra, this`stranded, this`ledger
      ensures Sound(Now()) && Journalled() && !stranded
      ensures ok ==>
        disk.faults == old(disk.faults) && Writable() && ledger.started && ledger.created == old(ledger.created) + 1
      ensures !ok && disk.faults == old(disk.faults) ==> !old(Steady(Now()))
    {
      hide Sound, Identity, Placeable, AbsentPlanned, MadeLinked;
      MadeAt(root, ground.base, created, directories, done.made, ledger.created);
      var path := created[ledger.created];
      ok := path in directories && Up(path) in directories && Placeable(root, path);
      if ok {
        ok := AppendJournal(Created(path, ledger.created));
      }
      if ok {
        ledger := ledger.(created := ledger.created + 1);
      }
    }

    method PersistCreated() returns (ok: bool)
      requires Writable() && ledger.started && Linked()
      modifies disk, this`extra, this`stranded, this`ledger
      ensures Sound(Now()) && Journalled() && !stranded
      ensures ok ==> disk.faults == old(disk.faults) && Writable() && ledger.started
      ensures !ok && disk.faults == old(disk.faults) ==> !old(Steady(Now()))
    {
      hide Sound, Identity, MadeLinked, AbsentPlanned;
      ok := true;
      while ok && ledger.created < |created|
        invariant Sound(Now()) && Journalled() && !stranded
        invariant ok ==> disk.faults == old(disk.faults) && Writable() && ledger.started
        invariant !ok && disk.faults == old(disk.faults) ==> !old(Steady(Now()))
        decreases ok, |created| - ledger.created
      {
        ok := PersistNextCreated();
      }
    }

    method PersistLists() returns (ok: bool)
      requires Writable() && ledger.started && Linked()
      modifies disk, this`extra, this`stranded, this`ledger
      ensures Sound(Now()) && Journalled() && !stranded
      ensures ok ==> disk.faults == old(disk.faults) && Writable() && ledger.started
      ensures !ok && disk.faults == old(disk.faults) ==> !old(Steady(Now()))
    {
      hide Sound, Identity, Linked;
      ok := PersistBacked();
      if !ok { return; }
      ok := PersistPublished();
      if !ok { return; }
      ok := PersistCreated();
    }

    method PersistMetadata() returns (ok: bool)
      requires Writable() && ledger.started
      modifies disk, this`extra, this`stranded, this`ledger
      ensures Sound(Now()) && Journalled() && !stranded
      ensures ok ==> disk.faults == old(disk.faults) && Writable() && ledger.started
      ensures !ok && disk.faults == old(disk.faults) ==> !old(Steady(Now()))
    {
      hide Sound, Identity;
      ok := true;
      if metadataBacked != ledger.metadataBacked || metadataPublished != ledger.metadataPublished {
        ok := AppendJournal(Metadata(metadataBacked, metadataPublished));
        if ok {
          ledger := ledger.(metadataBacked := metadataBacked, metadataPublished := metadataPublished);
        }
      }
    }

    /** `persistLedger`: everything done since the last time is written down. */
    method PersistLedger() returns (ok: bool)
      requires Writable() && Linked()
      modifies disk, this`extra, this`stranded, this`ledger
      modifies if ledger.started then {} else {disk.tally}
      ensures Sound(Now()) && Journalled()
      ensures stranded ==> !old(ledger.started)
      ensures ok ==> disk.faults == old(disk.faults) && Writable() && ledger.started
      ensures !ok && disk.faults == old(disk.faults) ==> !old(Steady(Now()))
      ensures Tallied()
    {
      hide Sound, Identity;
      hide Linked;
      ok := true;
      if !ledger.started {
        ok := AppendJournal(Header);
      }
      if !ok { return; }
      ok := PersistLists();
      if !ok { return; }
      ok := PersistMetadata();
    }

    // ---------------------------------------------------------------- parents

    /** `mkdir` and `Lstat`.  When only the second fails, the directory stays
        without a record. */
    method Mkdir(path: Path) returns (ok: bool, made: Object)
      requires Sound(Now()) && !stranded && path in absent && Within(root, path)
      modifies disk, this`extra, this`stranded
      modifies disk.tally
      ensures disk.faults >= old(disk.faults)
      ensures ok ==> disk.faults == old(disk.faults) && CanCreate(old(disk.names), path) && made.Dir?
      ensures ok ==> disk.names == old(disk.names)[path := made] && extra == old(extra) && !stranded
      ensures !ok ==> Sound(Now())
      ensures !ok && !stranded ==> disk.names == old(disk.names) && extra == old(extra)
      ensures !ok && disk.faults == old(disk.faults) ==>
        !(ParentOpens(old(disk.names), Frozen(), path) && CanCreate(old(disk.names), path))
      ensures Tallied() && (!stranded ==> disk.tally.slips == old(disk.tally.slips))
    {
      hide Sound, Identity, ParentOpens, Tree, CanCreate;
      ghost var s := Now();
      TreeOf(s);
      var inode: nat := *;
      made := Dir(inode, 448);
      ok := OpenParent(path);
      if !ok { return; }
      ok := disk.Create(path, made);
      if !ok { return; }
      ok := disk.Try();
      if !ok {
        extra := extra[path := made];
        stranded := true;
        disk.tally.Count(1);
        DirectoryStranded(s, Now(), path, made);
      }
    }

    /** The directories that were known stay known. */
    twostate predicate FrameGrew()
      reads this
    {
      Grew(old(Frozen()), Frozen()) && done == old(done).(made := done.made)
    }

    /** One missing directory, made and recorded. */
    method MakeDirectory(path: Path) returns (ok: bool)
      requires Writable() && Linked() && path in absent && Up(path) in directories
      modifies disk, this`extra, this`stranded, this`created, this`directories, this`absent, this`done
      modifies disk.tally
      ensures Sound(Now()) && disk.faults >= old(disk.faults)
      ensures old(Steady(Now())) && !stranded ==> Steady(Now())
      ensures ok ==> disk.faults == old(disk.faults) && Writable()
      ensures ok ==> path in directories
      ensures !ok && disk.faults == old(disk.faults) ==> !old(Steady(Now())) || !old(Covers(Frozen(), path))
      ensures Linked() && FrameGrew() && old(absent) <= absent + {path}
      ensures Tallied() && MadeUnder(old(done.made), done.made, path)
    {
      hide Within, Sound, Identity, Grew, ParentOpens, MadeLinked, AbsentPlanned, PlannedDirectory, Covers, CanCreate;
      hide Tree, MadeUnder;
      ghost var s := Now();
      GrewNone(s.frame);
      AbsentShrinks(root, ground.base, absent, directories, path, guard);
      if Steady(s) && Covers(s.frame, path) {
        DirectoryOpens(s, path);
      }
      var made;
      ok, made := Mkdir(path);
      MadeOne(s.done.made, path, made);
      if ok {
        RecordDirectory(path, made, s);
      }
    }

    /** The directory was not there at `s`, and is now. */
    method RecordDirectory(path: Path, made: Object, ghost s: State)
      requires Sound(s) && !s.stranded && Now() == s.(names := s.names[path := made])
      requires Linked() && path in absent && Up(path) in directories && CanCreate(s.names, path) && made.Dir?
      modifies this`created, this`directories, this`absent, this`done
      ensures Sound(Now()) && Linked() && (Steady(s) ==> Steady(Now()))
      ensures Frozen() == old(Frozen()).(directories := directories, absent := absent) && Grew(old(Frozen()), Frozen())
      ensures path in directories && absent == old(absent) - {path}
      ensures done == old(done).(made := old(done.made)[path := made])
    {
      hide Within, Sound, Identity, Grew, MadeLinked, AbsentPlanned, PlannedDirectory, CanCreate, Tree;
      AbsentShrinks(root, ground.base, absent, directories, path, made);
      MadeSnoc(root, ground.base, created, directories, done.made, path, made);
      created := created + [path];
      directories := directories[path := made];
      absent := absent - {path};
      done := done.(made := done.made[path := made]);
      DirectoryMade(s, Now(), path, made);
      GrewByOne(s.frame, path, made);
    }

    /** The intent, the directory, and the record. */
    method AddDirectory(path: Path) returns (ok: bool)
      requires Writable() && ledger.started && Linked() && path in absent && Up(path) in directories
      modifies disk, this`extra, this`stranded, this`ledger, this`created, this`directories, this`absent, this`done
      modifies disk.tally
      ensures Sound(Now()) && disk.faults >= old(disk.faults)
      ensures old(Steady(Now())) && !stranded ==> Steady(Now())
      ensures ok ==> disk.faults == old(disk.faults) && Writable() && ledger.started && path in directories
      ensures !ok && disk.faults == old(disk.faults) ==> !old(Steady(Now())) || !old(Covers(Frozen(), path))
      ensures Linked() && FrameGrew() && old(absent) <= absent + {path}
      ensures Tallied() && MadeUnder(old(done.made), done.made, path)
    {
      hide Sound, Identity, MadeLinked, AbsentPlanned, Covers, Accounted, Grew;
      GrewNone(Frozen());
      ok := AppendJournal(Intent("mkdir", path));
      if !ok { return; }
      ok := MakeDirectory(path);
      if !ok { return; }
      ok := PersistLedger();
    }

    /** `createParents`: the missing directories above a final path. */
    method CreateParents(path: Path) returns (ok: bool)
      requires Writable() && ledger.started && Linked()
      modifies disk, this`extra, this`stranded, this`ledger, this`created, this`directories, this`absent, this`done
      modifies disk.tally
      ensures Sound(Now()) && disk.faults >= old(disk.faults)
      ensures old(Steady(Now())) && !stranded ==> Steady(Now())
      ensures ok ==> disk.faults == old(disk.faults) && Writable() && ledger.started && path in directories
      ensures !ok && disk.faults == old(disk.faults) ==> !old(Steady(Now())) || !old(Covers(Frozen(), path))
      ensures Linked() && FrameGrew()
      ensures forall q :: q in old(absent) && |q| > |path| ==> q in absent
      decreases |path|
      ensures Tallied() && MadeUnder(old(done.made), done.made, path)
    {
      hide Sound, Identity, PathIdentity, MadeLinked, AbsentPlanned, PlannedDirectory, Covers, MadeUnder, Grew;
      ghost var f, made := Frozen(), done.made;
      NothingUnder(made, path);
      GrewNone(f);
      if path in directories {
        CoveredOpens(Now(), path);
        ok := VerifyPathIdentity(path);
        return;
      }
      ok := path in absent;
      CoversUp(f, path);
      if !ok { return; }
      AbsentShrinks(root, ground.base, absent, directories, path, guard);
      ok := CreateParents(Up(path));
      ghost var g, some := Frozen(), done.made;
      NothingUnder(some, path);
      MadeUnderUp(made, some, some, path);
      if !ok { return; }
      StillCovers(f, g, path);
      ok := AddDirectory(path);
      GrewTwice(f, g, Frozen());
      MadeUnderUp(made, some, done.made, path);
    }

    // ----------------------------------------------------------------- backup

    /** The transaction's lists say what has been done. */
    ghost predicate Counted()
      reads `done, `backed, `published, `metadataBacked, `metadataPublished, `publishedMetadata
    {
      && done.backed == backed && done.published == published && done.consumed == Sources(published)
      && done.metadataBacked == metadataBacked
      && (metadataPublished ==>
          publishedMetadata.Some? && publishedMetadata.value.File? && publishedMetadata.value.links == 1)
      && done.metadata == (if metadataPublished then publishedMetadata else None)
    }

    /** The plan holds of what is frozen now. */
    ghost predicate Planned(items: seq<Item>)
      reads `guard, `config, `directories, `absent, `ground, `before, `outputs, `metadata
    {
      Arranged(Frozen(), ground, before, outputs, metadata, items)
    }

    /** Nothing has been published or made yet. */
    ghost predicate Early()
      reads `published, `created, `metadataBacked, `metadataPublished
    {
      published == [] && created == [] && !metadataBacked && !metadataPublished
    }

    /** One original moves into the backup directory under the next number. */
    method MoveAway(d: Item, ghost items: seq<Item>) returns (ok: bool)
      requires Writable() && Linked() && Counted() && Planned(items) && Early()
      requires d.final in before && before[d.final].Some?
      modifies disk, this`backed, this`done
      ensures Writable() && Counted() && disk.faults >= old(disk.faults)
      ensures old(Steady(Now())) ==> Steady(Now())
      ensures backed == old(backed) + (if ok then [d] else [])
      ensures done == old(done).(backed := backed)
      ensures ok ==> disk.faults == old(disk.faults)
      ensures !ok && disk.faults == old(disk.faults) ==> !old(Steady(Now())) || d.final in Finals(old(backed))
    {
      hide Sound, Identity, PathIdentity, ParentOpens, Arranged, Finals, BackupFile, IsDir, Tree, InScheme, Sources;
      ghost var s := Now();
      StartOfBackUp(s, created, before, outputs, metadata, items, d.final);
      ok := RenameTo(d.final, BackupFile(backup, |backed|));
      if ok {
        backed := backed + [d];
        done := done.(backed := backed);
        BackedUp(s, Now(), d);
      }
    }

    method CheckOriginal(d: Item, ghost items: seq<Item>) returns (ok: bool)
      requires Writable() && Linked() && Counted() && Planned(items) && Early()
      requires d.final in before && before[d.final].Some?
      modifies disk`faults
      ensures disk.faults >= old(disk.faults)
      ensures ok ==> disk.faults == old(disk.faults) && Matches(disk.names, d.final, before[d.final].value)
      ensures !ok && disk.faults == old(disk.faults) ==> !Steady(Now()) || d.final in Finals(backed)
    {
      hide Sound, Identity, PathIdentity, MadeLinked, AbsentPlanned, Arranged, Finals, Tree, InScheme, Sources, Matches;
      StartOfBackUp(Now(), created, before, outputs, metadata, items, d.final);
      ok := VerifyPathIdentity(Up(d.final));
      if !ok { return; }
      ok := StillMatches(d.final, before[d.final].value);
    }

    method MoveAndRecord(d: Item, ghost items: seq<Item>) returns (ok: bool)
      requires Writable() && ledger.started && Linked() && Counted() && Planned(items) && Early()
      requires d.final in before && before[d.final].Some?
      modifies disk, this`extra, this`stranded, this`ledger, this`backed, this`done
      ensures Sound(Now()) && Counted() && Linked() && !stranded && disk.faults >= old(disk.faults)
      ensures old(Steady(Now())) ==> Steady(Now())
      ensures backed == old(backed) || backed == old(backed) + [d]
      ensures done == old(done).(backed := backed)
      ensures ok ==> disk.faults == old(disk.faults) && Writable() && ledger.started && backed == old(backed) + [d]
      ensures !ok && disk.faults == old(disk.faults) ==> !old(Steady(Now())) || d.final in Finals(old(backed))
    {
      hide Sound, Steady, Identity, MadeLinked, AbsentPlanned, Arranged, Finals, Accounted, Tree, InScheme, Sources;
      hide Matches, SameElsewhere;
      ok := MoveAway(d, items);
      if !ok { return; }
      ok := PersistLedger();
    }

    method BackUp(d: Item, ghost items: seq<Item>) returns (ok: bool)
      requires Writable() && ledger.started && Linked() && Counted() && Planned(items) && Early()
      requires d.final in before && before[d.final].Some?
      modifies disk, this`extra, this`stranded, this`ledger, this`backed, this`done
      ensures Sound(Now()) && Counted() && Linked() && !stranded && disk.faults >= old(disk.faults)
      ensures old(Steady(Now())) ==> Steady(Now())
      ensures backed == old(backed) || backed == old(backed) + [d]
      ensures done == old(done).(backed := backed)
      ensures ok ==> disk.faults == old(disk.faults) && Writable() && ledger.started && backed == old(backed) + [d]
      ensures !ok && disk.faults == old(disk.faults) ==> !old(Steady(Now())) || d.final in Finals(old(backed))
    {
      hide Sound, Steady, Identity, PathIdentity, MadeLinked, AbsentPlanned, Arranged, Finals, Accounted, Tree;
      hide InScheme, Sources, Matches, SameElsewhere;
      ok := CheckOriginal(d, items);
      if !ok { return; }
      ok := AppendJournal(Intent("backup", d.final));
      if !ok { return; }
      ok := MoveAndRecord(d, items);
    }

    method BackUpNext(backups: seq<Item>, k: nat, ghost items: seq<Item>) returns (ok: bool)
      requires Writable() && ledger.started && Linked() && Counted() && Planned(items) && Early()
      requires k < |backups| && backed == Managed(before, backups[..k])
      modifies disk, this`extra, this`stranded, this`ledger, this`backed, this`done
      ensures Sound(Now()) && Counted() && Linked() && !stranded && disk.faults >= old(disk.faults)
      ensures old(Steady(Now())) ==> Steady(Now())
      ensures done == old(done).(backed := backed)
      ensures forall d :: d in backed ==> d.final in before && before[d.final].Some?
      ensures ok ==>
        disk.faults == old(disk.faults) && Writable() && ledger.started && backed == Managed(before, backups[..k + 1])
      ensures !ok && disk.faults == old(disk.faults) ==>
        !old(Steady(Now())) || !DistinctFinals(Managed(before, backups))
    {
      hide Sound, Steady, Identity, MadeLinked, AbsentPlanned, Arranged, Finals, Accounted, DistinctFinals, Managed;
      hide Sources;
      var d := backups[k];
      ManagedSnoc(before, backups, k);
      ok := true;
      if d.final in before && before[d.final].Some? {
        if DistinctFinals(Managed(before, backups)) {
          NextManaged(before, backups, k);
        }
        ok := BackUp(d, items);
      }
    }

    /** Every managed destination among these is moved away, in this order. */
    method BackUpAll(backups: seq<Item>, ghost items: seq<Item>) returns (ok: bool)
      requires Writable() && ledger.started && Linked() && Counted() && Planned(items) && Early() && backed == []
      modifies disk, this`extra, this`stranded, this`ledger, this`backed, this`done
      ensures Sound(Now()) && Counted() && Linked() && !stranded && disk.faults >= old(disk.faults)
      ensures old(Steady(Now())) ==> Steady(Now())
      ensures done == old(done).(backed := backed)
      ensures forall d :: d in backed ==> d.final in before && before[d.final].Some?
      ensures ok ==>
        disk.faults == old(disk.faults) && Writable() && ledger.started && backed == Managed(before, backups)
      ensures !ok && disk.faults == old(disk.faults) ==>
        !old(Steady(Now())) || !DistinctFinals(Managed(before, backups))
    {
      hide Sound, Steady, Identity, MadeLinked, AbsentPlanned, Arranged, Finals, Accounted, DistinctFinals, Managed;
      hide Sources;
      ok := true;
      var k := 0;
      ManagedNone(before, backups);
      while ok && k < |backups|
        invariant 0 <= k <= |backups|
        invariant Sound(Now()) && Counted() && Linked() && !stranded && disk.faults >= old(disk.faults)
        invariant old(Steady(Now())) ==> Steady(Now())
        invariant done == old(done).(backed := backed)
        invariant forall d :: d in backed ==> d.final in before && before[d.final].Some?
        invariant ok ==>
          disk.faults == old(disk.faults) && Writable() && ledger.started && backed == Managed(before, backups[..k])
        invariant !ok && disk.faults == old(disk.faults) ==>
          !old(Steady(Now())) || !DistinctFinals(Managed(before, backups))
        decreases ok, |backups| - k
      {
        ok := BackUpNext(backups, k, items);
        k := k + 1;
      }
      assert k == |backups| ==> backups[..k] == backups;
    }

    // ---------------------------------------------------------------- publish

    /** Everything moved away so far was managed before. */
    ghost predicate Traced()
      reads `backed, `before
    {
      forall d :: d in backed ==> d.final in before && before[d.final].Some?
    }

    method CheckOutput(d: Item, ghost items: seq<Item>) returns (ok: bool)
      requires Writable() && Linked() && Counted() && Planned(items) && Traced() && d in items
      requires Up(d.final) in directories
      requires d.final in outputs
      modifies disk`faults, disk.tally`checkpoints
      ensures disk.Checked()
      ensures disk.faults >= old(disk.faults)
      ensures ok ==> disk.faults == old(disk.faults)
      ensures !ok && disk.faults == old(disk.faults) ==>
        !Steady(Now()) || !Publishable(before, items, done.made, backed, published, d)
    {
      hide Sound, Identity, PathIdentity, MadeLinked, AbsentPlanned, Arranged, Finals, Tree, InScheme, Sources, Matches;
      hide Publishable;
      StartOfPublish(Now(), created, before, outputs, metadata, items, d);
      ok := disk.Step();
      if !ok { return; }
      ok := VerifyPathIdentity(Up(d.final));
      if !ok { return; }
      ok := StillMatches(d.source, outputs[d.final]);
    }

    /** One output moves from its private source to its final path. */
    method MoveIn(d: Item, ghost items: seq<Item>) returns (ok: bool)
      requires Writable() && Linked() && Counted() && Planned(items) && Traced() && d in items
      requires Up(d.final) in directories
      modifies disk, this`published, this`done
      ensures Writable() && Counted() && Linked() && disk.faults >= old(disk.faults)
      ensures old(Steady(Now())) && (Loose(items, d) || published == old(published)) ==> Steady(Now())
      ensures published == old(published) + (if ok then [d] else [])
      ensures done == old(done).(published := published, consumed := Sources(published))
      ensures ok ==> disk.faults == old(disk.faults)
      ensures !ok && disk.faults == old(disk.faults) ==>
        !old(Steady(Now())) || !Publishable(before, items, old(done.made), backed, old(published), d)
    {
      hide Sound, Identity, PathIdentity, ParentOpens, MadeLinked, AbsentPlanned, Arranged, Finals, IsDir, Tree;
      hide InScheme, Sources, Publishable, Loose;
      ghost var s := Now();
      StartOfPublish(s, created, before, outputs, metadata, items, d);
      FinalsSnoc(published, d);
      ok := RenameTo(d.source, d.final);
      if ok {
        published := published + [d];
        done := done.(published := published, consumed := Sources(published));
        MovedIn(s, Now(), d);
      }
    }

    /** Moves one output in, writes that down, and reaches the next checkpoint. */
    method MoveInAndRecord(d: Item, ghost items: seq<Item>) returns (ok: bool)
      requires Writable() && ledger.started && Linked() && Counted() && Planned(items) && Traced() && d in items
      requires Up(d.final) in directories
      modifies disk, this`extra, this`stranded, this`ledger, this`published, this`done
      modifies disk.tally`checkpoints
      ensures disk.Checked()
      ensures Sound(Now()) && Counted() && Linked() && !stranded && disk.faults >= old(disk.faults)
      ensures old(Steady(Now())) && (Loose(items, d) || published == old(published)) ==> Steady(Now())
      ensures published == old(published) || published == old(published) + [d]
      ensures done == old(done).(published := published, consumed := Sources(published))
      ensures ok ==>
        disk.faults == old(disk.faults) && Writable() && ledger.started && published == old(published) + [d]
      ensures !ok && disk.faults == old(disk.faults) ==>
        !old(Steady(Now())) || !Publishable(before, items, old(done.made), backed, old(published), d)
        || (published != old(published) && !Loose(items, d))
    {
      hide Sound, Steady, Identity, MadeLinked, AbsentPlanned, Arranged, Finals, Accounted, Sources, Publishable, Loose;
      hide SameElsewhere;
      ok := MoveIn(d, items);
      if !ok { return; }
      ok := PersistLedger();
      if !ok { return; }
      ok := disk.Step();
    }

    method PublishChecked(d: Item, ghost items: seq<Item>) returns (ok: bool)
      requires Writable() && ledger.started && Linked() && Counted() && Planned(items) && Traced() && d in items
      requires Up(d.final) in directories
      modifies disk, this`extra, this`stranded, this`ledger, this`published, this`done
      modifies disk.tally`checkpoints
      ensures disk.Checked()
      ensures Sound(Now()) && Counted() && Linked() && !stranded && disk.faults >= old(disk.faults)
      ensures old(Steady(Now())) && (Loose(items, d) || published == old(published)) ==> Steady(Now())
      ensures published == old(published) || published == old(published) + [d]
      ensures done == old(done).(published := published, consumed := Sources(published))
      ensures ok ==>
        disk.faults == old(disk.faults) && Writable() && ledger.started && published == old(published) + [d]
      ensures !ok && disk.faults == old(disk.faults) ==>
        !old(Steady(Now())) || !Publishable(before, items, old(done.made), backed, old(published), d)
        || (published != old(published) && !Loose(items, d))
    {
      hide Sound, Steady, Identity, MadeLinked, AbsentPlanned, Arranged, Finals, Accounted, Sources, Publishable, Loose;
      hide SameElsewhere;
      ItemOf(Frozen(), ground, before, outputs, metadata, items, d);
      ok := CheckOutput(d, items);
      if !ok { return; }
      ok := AppendJournal(Intent("publish", d.final));
      if !ok { return; }
      ok := MoveInAndRecord(d, items);
    }

    method MakeRoom(path: Path, ghost items: seq<Item>) returns (ok: bool)
      requires Writable() && ledger.started && Linked() && Counted() && Planned(items)
      modifies disk, this`extra, this`stranded, this`ledger, this`done, this`created, this`directories, this`absent
      modifies disk.tally
      ensures Sound(Now()) && Counted() && Linked() && disk.faults >= old(disk.faults)
      ensures Planned(items) && Grew(old(Frozen()), Frozen())
      ensures old(Steady(Now())) && !stranded ==> Steady(Now())
      ensures done == old(done).(made := done.made)
      ensures ok ==> disk.faults == old(disk.faults) && Writable() && ledger.started && path in directories
      ensures !ok && disk.faults == old(disk.faults) ==> !old(Steady(Now())) || !old(Covers(Frozen(), path))
      ensures Tallied() && MadeUnder(old(done.made), done.made, path)
    {
      hide Sound, Steady, Identity, MadeLinked, AbsentPlanned, Arranged, Accounted, Sources, Grew, Covers, MadeUnder;
      ghost var f := Frozen();
      ok := CreateParents(path);
      ArrangedGrew(f, Frozen(), ground, before, outputs, metadata, items);
    }

    /** One destination: its directories, then its output. */
    method Publish(d: Item, ghost items: seq<Item>) returns (ok: bool)
      requires Writable() && ledger.started && Linked() && Counted() && Planned(items) && Traced() && d in items
      modifies disk, this`extra, this`stranded, this`ledger, this`published, this`done, this`created, this`directories
      modifies this`absent
      modifies disk.tally
      ensures Sound(Now()) && Counted() && Linked() && disk.faults >= old(disk.faults)
      ensures Planned(items) && Grew(old(Frozen()), Frozen())
      ensures old(Steady(Now())) && (Loose(items, d) || published == old(published)) && !stranded ==> Steady(Now())
      ensures MadeUnder(old(done.made), done.made, Up(d.final))
      ensures published == old(published) || published == old(published) + [d]
      ensures done == old(done).(published := published, consumed := Sources(published), made := done.made)
      ensures ok ==>
        disk.faults == old(disk.faults) && Writable() && ledger.started && published == old(published) + [d]
      ensures !ok && disk.faults == old(disk.faults) ==>
        !old(Steady(Now())) || !Publishable(before, items, old(done.made), backed, old(published), d)
        || (published != old(published) && !Loose(items, d))
      ensures Tallied()
    {
      hide Sound, Steady, Identity, MadeLinked, AbsentPlanned, Arranged, Finals, Accounted, Sources, Publishable, Loose;
      hide Grew, Covers, MadeUnder;
      ghost var made := done.made;
      ItemOf(Frozen(), ground, before, outputs, metadata, items, d);
      ok := MakeRoom(Up(d.final), items);
      if !ok { return; }
      StillPublishable(before, items, made, done.made, backed, published, d);
      ok := PublishChecked(d, items);
    }

    /** All destinations, in order. */
    method PublishAll(items: seq<Item>) returns (ok: bool)
      requires Writable() && ledger.started && Linked() && Counted() && Planned(items) && Traced() && published == []
      requires done.made == map[]
      modifies disk, this`extra, this`stranded, this`ledger, this`published, this`done, this`created, this`directories
      modifies this`absent
      modifies disk.tally
      ensures Sound(Now()) && Counted() && Linked() && disk.faults >= old(disk.faults)
      ensures Planned(items) && Grew(old(Frozen()), Frozen())
      ensures old(Steady(Now())) && !Knotted(items, published) && !stranded ==> Steady(Now())
      ensures forall d :: d in published ==> d in items
      ensures done == old(done).(published := published, consumed := Sources(published), made := done.made)
      ensures ok ==> disk.faults == old(disk.faults) && Writable() && ledger.started && published == items
      ensures !ok && disk.faults == old(disk.faults) ==>
        !old(Steady(Now())) || !Ordered(items) || !Cleared(before, items, Finals(backed)) || Knotted(items, published)
      ensures Tallied()
    {
      hide Sound, Steady, Identity, MadeLinked, AbsentPlanned, Arranged, Finals, Accounted, Sources, Publishable;
      hide Knotted, Grew, Ordered, Cleared, MadeFor;
      GrewNone(Frozen());
      NothingFor(items);
      ok := true;
      var k := 0;
      while ok && k < |items|
        invariant 0 <= k <= |items| && MadeFor(items, k, done.made)
        invariant Sound(Now()) && Counted() && Linked() && disk.faults >= old(disk.faults)
        invariant Planned(items) && Grew(old(Frozen()), Frozen())
        invariant old(Steady(Now())) && !Knotted(items, published) && !stranded ==> Steady(Now())
        invariant done == old(done).(published := published, consumed := Sources(published), made := done.made)
        invariant forall d :: d in published ==> d in items
        invariant ok ==> disk.faults == old(disk.faults) && Writable() && ledger.started && published == items[..k]
        invariant !ok && disk.faults == old(disk.faults) ==>
          !old(Steady(Now())) || !Ordered(items) || !Cleared(before, items, Finals(backed)) || Knotted(items, published)
        invariant Tallied()
        decreases ok, |items| - k
      {
        ok := PublishNext(k, items, old(Frozen()));
        k := k + 1;
      }
    }

    method PublishNext(k: nat, items: seq<Item>, ghost start: Frame) returns (ok: bool)
      requires Writable() && ledger.started && Linked() && Counted() && Planned(items) && Traced()
      requires k < |items| && published == items[..k] && Grew(start, Frozen()) && MadeFor(items, k, done.made)
      modifies disk, this`extra, this`stranded, this`ledger, this`published, this`done, this`created, this`directories
      modifies this`absent
      modifies disk.tally
      ensures Sound(Now()) && Counted() && Linked() && disk.faults >= old(disk.faults)
      ensures Planned(items) && Grew(start, Frozen()) && MadeFor(items, k + 1, done.made)
      ensures old(Steady(Now())) && !Knotted(items, published) && !stranded ==> Steady(Now())
      ensures Knotted(items, old(published)) ==> Knotted(items, published)
      ensures forall d :: d in published ==> d in items
      ensures done == old(done).(published := published, consumed := Sources(published), made := done.made)
      ensures ok ==> disk.faults == old(disk.faults) && Writable() && ledger.started && published == items[..k + 1]
      ensures !ok && disk.faults == old(disk.faults) ==>
        !old(Steady(Now())) || !Ordered(items) || !Cleared(before, items, Finals(backed)) || Knotted(items, published)
      ensures Tallied()
    {
      hide Sound, Steady, Identity, MadeLinked, AbsentPlanned, Arranged, Finals, Accounted, Sources, Publishable;
      hide Knotted, Loose, Grew, Ordered, Cleared, MadeFor, MadeUnder;
      ghost var f, made := Frozen(), done.made;
      ItemOf(f, ground, before, outputs, metadata, items, items[k]);
      KnottedMore(items, published, items[k]);
      if Ordered(items) && Cleared(before, items, Finals(backed)) {
        OrderedPublishable(before, items, made, backed, k);
      }
      ok := Publish(items[k], items);
      MadeForNext(items, k, made, done.made);
      GrewTwice(start, f, Frozen());
      assert items[..k + 1] == items[..k] + [items[k]];
    }

    // --------------------------------------------------------------- metadata

    /** The published outputs are among these. */
    ghost predicate Sourced(items: seq<Item>)
      reads `published
    {
      forall d :: d in published ==> d in items
    }

    /** Nothing has happened to the metadata yet. */
    ghost predicate MetadataUntouched()
      reads `metadataBacked, `metadataPublished, `publishedMetadata, `pending
    {
      !metadataBacked && !metadataPublished && publishedMetadata.None? && pending.None?
    }

    method MoveMetadataAway(ghost items: seq<Item>) returns (ok: bool)
      requires Writable() && Linked() && Counted() && Planned(items) && Sourced(items) && MetadataUntouched()
      requires metadata.Some? && MetadataDir(root) in directories
      modifies disk, this`metadataBacked, this`done
      ensures Writable() && Counted() && Linked() && disk.faults >= old(disk.faults)
      ensures old(Steady(Now())) ==> Steady(Now())
      ensures done == old(done).(metadataBacked := metadataBacked) && metadataBacked == ok
      ensures ok ==> disk.faults == old(disk.faults)
      ensures !ok && disk.faults == old(disk.faults) ==> !old(Steady(Now()))
    {
      hide Sound, Identity, ParentOpens, MadeLinked, AbsentPlanned, Arranged, Finals, IsDir, Tree, Sources, Matches;
      hide OldMetadataPath, MetadataPath;
      ghost var s := Now();
      StartOfMetadata(s, before, outputs, metadata, items);
      ok := RenameTo(MetadataPath(root), OldMetadataPath(backup));
      if ok {
        metadataBacked := true;
        done := done.(metadataBacked := true);
        MetadataBackedUp(s, Now());
      }
    }

    method CheckMetadata(ghost items: seq<Item>) returns (ok: bool)
      requires Writable() && Linked() && Counted() && Planned(items) && Sourced(items) && MetadataUntouched()
      requires metadata.Some? && MetadataDir(root) in directories
      modifies disk`faults
      ensures disk.faults >= old(disk.faults)
      ensures ok ==> disk.faults == old(disk.faults)
      ensures !ok && disk.faults == old(disk.faults) ==> !Steady(Now())
    {
      hide Sound, Identity, ParentOpens, MadeLinked, AbsentPlanned, Arranged, Finals, IsDir, Tree, Sources, Matches;
      StartOfMetadata(Now(), before, outputs, metadata, items);
      ok := StillMatches(MetadataPath(root), metadata.value);
    }

    method BackUpMetadata(ghost items: seq<Item>) returns (ok: bool)
      requires Writable() && ledger.started && Linked() && Counted() && Planned(items) && Sourced(items)
      requires MetadataUntouched()
      requires metadata.Some? && MetadataDir(root) in directories
      modifies disk, this`extra, this`stranded, this`ledger, this`metadataBacked, this`done
      ensures Sound(Now()) && Counted() && Linked() && !stranded && disk.faults >= old(disk.faults)
      ensures old(Steady(Now())) ==> Steady(Now())
      ensures done == old(done).(metadataBacked := metadataBacked)
      ensures ok ==> disk.faults == old(disk.faults) && Writable() && ledger.started && metadataBacked
      ensures !ok && disk.faults == old(disk.faults) ==> !old(Steady(Now()))
    {
      hide Sound, Steady, Identity, MadeLinked, AbsentPlanned, Arranged, Finals, Accounted, Sources, SameElsewhere;
      ok := CheckMetadata(items);
      if !ok { return; }
      ok := AppendJournal(Intent("backup-metadata", MetadataPath(root)));
      if !ok { return; }
      ok := MoveMetadataAway(items);
      if !ok { return; }
      ok := PersistLedger();
    }

    /** The new metadata is in the backup directory, and no snapshot of it. */
    ghost predicate Unsnapped()
      reads `pending, `publishedMetadata
    {
      pending.Some? && publishedMetadata.None?
    }

    /** A failed write leaves some of the metadata behind. */
    method MakeNext(desired: Files) returns (ok: bool)
      requires Writable() && ledger.started && pending.None?
      modifies disk, this`extra, this`pending
      modifies disk.tally
      ensures Writable() && disk.faults >= old(disk.faults)
      ensures old(Steady(Now())) ==> Steady(Now())
      ensures ok ==> disk.faults == old(disk.faults) && pending.Some?
      ensures ok ==> NewMetadata(pending.value, desired)
      ensures !ok ==> disk.faults > old(disk.faults)
      ensures disk.tally.slips == old(disk.tally.slips) + (if !ok && pending.Some? then 1 else 0)
      ensures disk.tally.checkpoints == old(disk.tally.checkpoints)
    {
      hide Sound, Identity, ParentOpens, IsDir, Tree;
      var path := NextMetadataPath(backup);
      ghost var s := Now();
      TreeOf(s);
      NextFree(s);
      BackupIsDir(s);
      var inode: nat := *;
      var partial: Content := *;
      ok := disk.Create(path, File(inode, partial, LEDGER_MODE, 1));
      if !ok { return; }
      ok := disk.Try();
      if ok {
        disk.Write(path, Ownership(2, desired));
      } else {
        disk.tally.Count(1);
      }
      var made := disk.names[path];
      assert disk.names == s.names[path := made];
      extra := extra[path := made];
      pending := Some(made);
      NextWritten(s, Now(), made);
    }

    /** Writes the new metadata into the backup directory; its encoding can
        exceed the bound. */
    method WriteNext(desired: Files) returns (ok: bool)
      requires Writable() && ledger.started && pending.None?
      modifies disk, this`extra, this`pending
      modifies disk.tally
      ensures Writable() && disk.faults >= old(disk.faults)
      ensures old(Steady(Now())) ==> Steady(Now())
      ensures ok ==> disk.faults == old(disk.faults) && pending.Some?
      ensures ok ==> NewMetadata(pending.value, desired)
      ensures !ok && disk.faults == old(disk.faults) ==> !old(Steady(Now()))
      ensures disk.tally.slips == old(disk.tally.slips) + (if !ok && pending.Some? then 1 else 0)
      ensures disk.tally.checkpoints == old(disk.tally.checkpoints)
      ensures !ok && pending.Some? ==> disk.faults > old(disk.faults)
    {
      hide Sound, Identity, ParentOpens;
      if Steady(Now()) {
        BackupOpens(Now(), "next-metadata");
      }
      ok := disk.Try();
      if !ok { return; }
      ok := OpenParent(NextMetadataPath(backup));
      if !ok { return; }
      ok := MakeNext(desired);
    }

    /** Records what was written. */
    method SnapshotNext() returns (ok: bool)
      requires Writable() && Counted() && pending.Some? && !metadataPublished
      modifies disk`faults, this`publishedMetadata
      ensures Counted() && disk.faults >= old(disk.faults)
      ensures ok <==> disk.faults == old(disk.faults)
      ensures publishedMetadata == if ok then pending else old(publishedMetadata)
    {
      hide Sound, Sources;
      NextOf(Now());
      ok := disk.Try();
      if ok {
        publishedMetadata := Some(disk.names[NextMetadataPath(backup)]);
      }
    }

    method MoveNextIn(ghost items: seq<Item>) returns (ok: bool)
      requires Writable() && Linked() && Counted() && Planned(items) && MetadataDir(root) in directories
      requires pending.Some? && publishedMetadata == pending && !metadataPublished && metadataBacked == metadata.Some?
      modifies disk, this`extra, this`pending, this`metadataPublished, this`done
      ensures Writable() && Counted() && disk.faults >= old(disk.faults)
      ensures old(Steady(Now())) ==> Steady(Now())
      ensures done == old(done).(metadata := if ok then publishedMetadata else None) && metadataPublished == ok
      ensures ok ==> disk.faults == old(disk.faults)
      ensures pending == if ok then None else old(pending)
      ensures !ok && disk.faults == old(disk.faults) ==> !old(Steady(Now()))
    {
      hide Sound, Identity, ParentOpens, MadeLinked, AbsentPlanned, Arranged, IsDir, Tree, Sources, NextMetadataPath;
      hide MetadataPath;
      ghost var s := Now();
      var path := NextMetadataPath(backup);
      StartOfNext(s, created, before, outputs, metadata, items);
      ok := RenameTo(path, MetadataPath(root));
      if ok {
        extra := extra - {path};
        metadataPublished, pending := true, None;
        done := done.(metadata := publishedMetadata);
        MetadataPublished(s, Now());
      }
    }

    method MoveNextInAndRecord(ghost items: seq<Item>) returns (ok: bool)
      requires Writable() && ledger.started && Linked() && Counted() && Planned(items)
      requires MetadataDir(root) in directories
      requires pending.Some? && publishedMetadata == pending && !metadataPublished && metadataBacked == metadata.Some?
      modifies disk, this`extra, this`stranded, this`ledger, this`pending, this`metadataPublished, this`done
      ensures Sound(Now()) && Counted() && Linked() && !stranded && disk.faults >= old(disk.faults)
      ensures old(Steady(Now())) ==> Steady(Now())
      ensures done == old(done).(metadata := done.metadata)
      ensures pending == if metadataPublished then None else old(pending)
      ensures ok ==> disk.faults == old(disk.faults) && Writable() && ledger.started && metadataPublished
      ensures !ok && disk.faults == old(disk.faults) ==> !old(Steady(Now()))
    {
      hide Sound, Steady, Identity, MadeLinked, AbsentPlanned, Arranged, Accounted, Sources, SameElsewhere;
      ok := MoveNextIn(items);
      if !ok { return; }
      ok := PersistLedger();
    }

    method InstallNext(ghost items: seq<Item>) returns (ok: bool)
      requires Writable() && ledger.started && Linked() && Counted() && Planned(items)
      requires MetadataDir(root) in directories
      requires pending.Some? && publishedMetadata.None? && !metadataPublished && metadataBacked == metadata.Some?
      modifies disk, this`extra, this`stranded, this`ledger, this`pending, this`publishedMetadata
      modifies this`metadataPublished, this`done
      modifies disk.tally
      ensures Sound(Now()) && Counted() && Linked() && !stranded && disk.faults >= old(disk.faults)
      ensures old(Steady(Now())) ==> Steady(Now())
      ensures done == old(done).(metadata := done.metadata)
      ensures pending == if metadataPublished then None else old(pending)
      ensures publishedMetadata.None? || publishedMetadata == old(pending)
      ensures ok ==> disk.faults == old(disk.faults) && Writable() && ledger.started && metadataPublished
      ensures !ok && disk.faults == old(disk.faults) ==> !old(Steady(Now()))
      ensures Tallied() && (old(Steady(Now())) && Unsnapped() ==> disk.tally.slips > old(disk.tally.slips))
    {
      hide Sound, Steady, Identity, MadeLinked, AbsentPlanned, Arranged, Accounted, Sources, SameElsewhere;
      ghost var faults := disk.faults;
      ok := AppendJournal(Intent("publish-metadata", MetadataPath(root)));
      if ok {
        ok := SnapshotNext();
      }
      if !ok {
        disk.tally.Count(disk.faults - faults);
        return;
      }
      ok := MoveNextInAndRecord(items);
    }

    method PublishMetadata(desired: Files, ghost items: seq<Item>) returns (ok: bool)
      requires Writable() && ledger.started && Linked() && Counted() && Planned(items)
      requires MetadataDir(root) in directories
      requires pending.None? && publishedMetadata.None? && !metadataPublished && metadataBacked == metadata.Some?
      modifies disk, this`extra, this`stranded, this`ledger, this`pending, this`publishedMetadata
      modifies this`metadataPublished, this`done
      modifies disk.tally
      ensures Sound(Now()) && Counted() && Linked() && !stranded && disk.faults >= old(disk.faults)
      ensures old(Steady(Now())) ==> Steady(Now())
      ensures done == old(done).(metadata := done.metadata)
      ensures metadataPublished ==> pending.None?
      ensures publishedMetadata.Some? && !metadataPublished ==> pending == publishedMetadata
      ensures ok ==> disk.faults == old(disk.faults) && Writable() && ledger.started && metadataPublished
      ensures ok ==> publishedMetadata.Some? && NewMetadata(publishedMetadata.value, desired)
      ensures !ok && disk.faults == old(disk.faults) ==> !old(Steady(Now()))
      ensures Tallied() && (old(Steady(Now())) && Unsnapped() ==> disk.tally.slips > old(disk.tally.slips))
    {
      hide Sound, Steady, Identity, MadeLinked, AbsentPlanned, Arranged, Finals, Accounted, Sources, SameElsewhere;
      ok := WriteNext(desired);
      if !ok { return; }
      ok := InstallNext(items);
    }

    /** The metadata directory, and the checks before the metadata is touched. */
    method OpenMetadata(ghost items: seq<Item>) returns (ok: bool)
      requires Writable() && ledger.started && Linked() && Counted() && Planned(items)
      modifies disk, this`extra, this`stranded, this`ledger, this`done, this`created, this`directories, this`absent
      modifies disk.tally
      ensures Sound(Now()) && Counted() && Linked() && disk.faults >= old(disk.faults)
      ensures Planned(items) && Grew(old(Frozen()), Frozen())
      ensures old(Steady(Now())) && !stranded ==> Steady(Now())
      ensures done == old(done).(made := done.made)
      ensures ok ==> disk.faults == old(disk.faults) && Writable() && ledger.started && MetadataDir(root) in directories
      ensures ok ==> Steady(Now())
      ensures !ok && disk.faults == old(disk.faults) ==> !old(Steady(Now()))
      ensures Tallied()
    {
      hide Sound, Identity, MadeLinked, AbsentPlanned, Arranged, Accounted, Sources, Grew, Covers;
      MetadataCovered(Frozen(), ground, before, outputs, metadata, items);
      ok := MakeRoom(MetadataDir(root), items);
      if !ok { return; }
      ok := disk.Step();
      if !ok { return; }
      ok := VerifyIdentity();
    }

    method ReplaceMetadata(desired: Files, ghost items: seq<Item>) returns (ok: bool)
      requires Writable() && ledger.started && Linked() && Counted() && Planned(items) && Sourced(items)
      requires MetadataUntouched()
      requires MetadataDir(root) in directories
      modifies disk, this`extra, this`stranded, this`ledger, this`done
      modifies this`pending, this`publishedMetadata, this`metadataPublished, this`metadataBacked
      modifies disk.tally
      ensures Sound(Now()) && Counted() && Linked() && !stranded && disk.faults >= old(disk.faults)
      ensures old(Steady(Now())) ==> Steady(Now())
      ensures done == old(done).(metadataBacked := metadataBacked, metadata := done.metadata)
      ensures metadataPublished ==> pending.None?
      ensures publishedMetadata.Some? && !metadataPublished ==> pending == publishedMetadata
      ensures metadataBacked ==> metadata.Some?
      ensures ok ==>
        && disk.faults == old(disk.faults) && Writable() && ledger.started && metadataPublished
        && metadataBacked == metadata.Some?
      ensures ok ==> publishedMetadata.Some? && NewMetadata(publishedMetadata.value, desired)
      ensures !ok && disk.faults == old(disk.faults) ==> !old(Steady(Now()))
      ensures Tallied() && (old(Steady(Now())) && Unsnapped() ==> disk.tally.slips > old(disk.tally.slips))
    {
      hide Sound, Steady, Identity, MadeLinked, AbsentPlanned, Arranged, Accounted, Sources;
      ok := true;
      if metadata.Some? {
        ok := BackUpMetadata(items);
      }
      if !ok { return; }
      ok := PublishMetadata(desired, items);
    }

    /** The ownership metadata is replaced. */
    method CommitMetadata(desired: Files, ghost items: seq<Item>) returns (ok: bool)
      requires Writable() && ledger.started && Linked() && Counted() && Planned(items) && Sourced(items)
      requires MetadataUntouched()
      modifies disk, this`extra, this`stranded, this`ledger, this`done, this`created, this`directories, this`absent
      modifies this`pending, this`publishedMetadata, this`metadataPublished, this`metadataBacked
      modifies disk.tally
      ensures Sound(Now()) && Counted() && Linked() && disk.faults >= old(disk.faults)
      ensures Planned(items) && Grew(old(Frozen()), Frozen())
      ensures old(Steady(Now())) && !stranded ==> Steady(Now())
      ensures done == old(done).(metadataBacked := metadataBacked, metadata := done.metadata, made := done.made)
      ensures metadataPublished ==> pending.None?
      ensures publishedMetadata.Some? && !metadataPublished ==> pending == publishedMetadata
      ensures metadataBacked ==> metadata.Some?
      ensures ok ==>
        && disk.faults == old(disk.faults) && Writable() && ledger.started && metadataPublished
        && metadataBacked == metadata.Some?
      ensures ok ==> publishedMetadata.Some? && NewMetadata(publishedMetadata.value, desired)
      ensures !ok && disk.faults == old(disk.faults) ==> !old(Steady(Now()))
      ensures Tallied() && (old(Steady(Now())) && Unsnapped() ==> disk.tally.slips > old(disk.tally.slips))
    {
      hide Sound, Steady, Identity, MadeLinked, AbsentPlanned, Arranged, Accounted, Sources, Grew;
      ok := OpenMetadata(items);
      if !ok { return; }
      ok := ReplaceMetadata(desired, items);
    }

    // -------------------------------------------------------------- reconcile

    /** `syncDirectories`. */
    method SyncDirectories() returns (ok: bool)
      modifies disk`faults
      ensures disk.faults == old(disk.faults) || disk.faults == old(disk.faults) + 1
      ensures ok ==> disk.faults == old(disk.faults)
      ensures !ok && disk.faults == old(disk.faults) ==> !Steady(Now())
    {
      var lucky := disk.Try();
      ok := lucky && forall q :: q in directories && Prefix(root, q) ==> IsDir(disk.names, q);
    }

    /** The outputs and every directory are synced. */
    method SyncAll(items: seq<Item>) returns (ok: bool)
      modifies disk`faults, disk.tally`checkpoints
      ensures disk.Checked()
      ensures disk.faults >= old(disk.faults)
      ensures ok ==> disk.faults == old(disk.faults)
      ensures !ok && disk.faults == old(disk.faults) ==>
        !Steady(Now()) || exists d :: d in items && d.final !in disk.names
    {
      hide Identity;
      ok := disk.Step();
      if !ok { return; }
      ok := forall d :: d in items ==> d.final in disk.names;
      if !ok { return; }
      ok := disk.Try();
      if !ok { return; }
      ok := SyncDirectories();
    }

    /** What was done is compared with what was wanted. */
    method Reconcile(desired: Files, items: seq<Item>, obsolete: seq<Item>) returns (ok: bool)
      requires publishedMetadata.Some?
      modifies disk`faults, disk.tally`checkpoints
      ensures disk.Checked()
      ensures disk.faults >= old(disk.faults)
      ensures ok ==> disk.faults == old(disk.faults) && Steady(Now())
      ensures ok ==>
        Reconciled(disk.names, root, desired, items, obsolete, before, outputs, publishedMetadata.value, Finals(backed))
      ensures !ok && disk.faults == old(disk.faults) && Steady(Now()) ==>
        !Reconciled(disk.names, root, desired, items, obsolete, before, outputs, publishedMetadata.value,
          Finals(backed))
    {
      hide Identity, VerifyState;
      ok := SyncAll(items);
      if !ok { return; }
      ok := disk.Step();
      if !ok { return; }
      ok := VerifyIdentity();
      if !ok { return; }
      var lucky := disk.Try();
      ok := lucky
        && Reconciled(disk.names, root, desired, items, obsolete, before, outputs, publishedMetadata.value,
            Finals(backed));
    }

    // ---------------------------------------------------------------- forward

    /** The first ledger entry, then every original out of the way. */
    method ClearAll(items: seq<Item>, obsolete: seq<Item>) returns (ok: bool)
      requires Writable() && Linked() && Counted() && Planned(items) && Early() && backed == []
      modifies disk, this`extra, this`stranded, this`ledger, this`backed, this`done
      modifies disk.tally
      ensures Sound(Now()) && Counted() && Linked() && Traced() && disk.faults >= old(disk.faults)
      ensures old(Steady(Now())) ==> Steady(Now())
      ensures done == old(done).(backed := backed)
      ensures ok ==>
        disk.faults == old(disk.faults) && Writable() && ledger.started && backed == Managed(before, items + obsolete)
      ensures !ok && disk.faults == old(disk.faults) ==>
        !old(Steady(Now())) || !DistinctFinals(Managed(before, items + obsolete))
      ensures Tallied()
    {
      hide Sound, Steady, Identity, MadeLinked, AbsentPlanned, Arranged, Finals, Accounted, DistinctFinals, Managed;
      hide Sources, SameElsewhere;
      ok := PersistLedger();
      if !ok { return; }
      ok := disk.Try();
      if !ok { return; }
      ok := BackUpAll(items + obsolete, items);
    }

    /** Every output into its place, then the metadata. */
    method Replace(desired: Files, items: seq<Item>) returns (ok: bool)
      requires Writable() && ledger.started && Linked() && Counted() && Planned(items) && Traced()
      requires MetadataUntouched()
      requires published == [] && done.made == map[]
      modifies disk, this`extra, this`stranded, this`ledger, this`published, this`done, this`created, this`directories
      modifies this`absent
      modifies this`pending, this`publishedMetadata, this`metadataPublished, this`metadataBacked
      modifies disk.tally
      ensures Sound(Now()) && Counted() && Linked() && Planned(items) && Sourced(items)
      ensures disk.faults >= old(disk.faults)
      ensures Grew(old(Frozen()), Frozen()) && done.backed == old(done.backed)
      ensures old(Steady(Now())) && !Knotted(items, published) && !stranded ==> Steady(Now())
      ensures metadataPublished ==> pending.None?
      ensures publishedMetadata.Some? && !metadataPublished ==> pending == publishedMetadata
      ensures metadataBacked ==> metadata.Some?
      ensures ok ==>
        && disk.faults == old(disk.faults) && !stranded && published == items && metadataPublished
        && metadataBacked == metadata.Some?
      ensures ok ==> publishedMetadata.Some? && NewMetadata(publishedMetadata.value, desired)
      ensures !ok && disk.faults == old(disk.faults) ==>
        !old(Steady(Now())) || !Ordered(items) || !Cleared(before, items, Finals(backed)) || Knotted(items, published)
      ensures Tallied()
      ensures (old(Steady(Now())) && !Knotted(items, published) && Unsnapped() ==>
        disk.tally.slips > old(disk.tally.slips))
    {
      hide Sound, Steady, Identity, MadeLinked, AbsentPlanned, Arranged, Finals, Accounted, Sources, Grew, Ordered;
      hide Knotted, Cleared;
      ghost var f := Frozen();
      ok := PublishAll(items);
      if !ok { return; }
      ghost var g := Frozen();
      ok := CommitMetadata(desired, items);
      GrewTwice(f, g, Frozen());
    }

    method Check(desired: Files, items: seq<Item>, obsolete: seq<Item>) returns (ok: bool)
      requires Sound(Now()) && !stranded && Linked() && Counted() && Planned(items)
      requires published == items && backed == Managed(before, items + obsolete) && metadataPublished
      requires publishedMetadata.Some? && NewMetadata(publishedMetadata.value, desired)
      requires Settled(root, before, outputs, desired, items, obsolete)
      modifies disk`faults, disk.tally`checkpoints
      ensures disk.Checked()
      ensures disk.faults >= old(disk.faults)
      ensures ok ==> disk.faults == old(disk.faults) && Steady(Now())
      ensures ok ==>
        Reconciled(disk.names, root, desired, items, obsolete, before, outputs, publishedMetadata.value, Finals(backed))
      ensures !ok && disk.faults == old(disk.faults) && Steady(Now()) ==> !Disjoint(root, desired, items, obsolete)
    {
      hide Sound, Steady, Identity, MadeLinked, AbsentPlanned, Arranged, Finals, Accounted, Sources, Managed, Settled;
      hide Disjoint, Reconciled, NewMetadata;
      if Disjoint(root, desired, items, obsolete) {
        Reconciles(Now(), created, before, outputs, metadata, desired, items, obsolete, publishedMetadata.value);
      }
      ok := Reconcile(desired, items, obsolete);
    }

    /** Everything after the originals are out of the way. */
    method Proceed(desired: Files, items: seq<Item>, obsolete: seq<Item>) returns (ok: bool)
      requires Writable() && ledger.started && Linked() && Counted() && Planned(items) && Traced()
      requires MetadataUntouched()
      requires published == [] && done.made == map[] && backed == Managed(before, items + obsolete)
      requires Settled(root, before, outputs, desired, items, obsolete)
      modifies disk, this`extra, this`stranded, this`ledger, this`published, this`done, this`created, this`directories
      modifies this`absent
      modifies this`pending, this`publishedMetadata, this`metadataPublished, this`metadataBacked
      modifies disk.tally
      ensures Sound(Now()) && Counted() && Linked() && Planned(items) && Sourced(items)
      ensures disk.faults >= old(disk.faults)
      ensures Grew(old(Frozen()), Frozen())
      ensures old(Steady(Now())) && !Knotted(items, published) && !stranded ==> Steady(Now())
      ensures metadataPublished ==> pending.None?
      ensures publishedMetadata.Some? && !metadataPublished ==> pending == publishedMetadata
      ensures metadataBacked ==> metadata.Some?
      ensures ok ==>
        && disk.faults == old(disk.faults) && !stranded && pending.None? && Steady(Now())
        && metadataBacked == metadata.Some?
      ensures ok ==> published == items && metadataPublished
      ensures ok ==> NewMetadata(publishedMetadata.value, desired)
      ensures ok ==>
        Reconciled(disk.names, root, desired, items, obsolete, before, outputs, publishedMetadata.value, Finals(backed))
      ensures !ok && disk.faults == old(disk.faults) ==>
        !old(Steady(Now())) || !Feasible(root, before, desired, items, obsolete)
      ensures !ok && disk.faults == old(disk.faults) ==>
        !old(Steady(Now())) || !Doable(before, items, obsolete) || PrefixFree(items) || Knotted(items, published)
      ensures Tallied()
      ensures (old(Steady(Now())) && !Knotted(items, published) && Unsnapped() ==>
        disk.tally.slips > old(disk.tally.slips))
    {
      hide Sound, Steady, Identity, MadeLinked, AbsentPlanned, Arranged, Finals, Accounted, Sources, Grew, Managed;
      hide DistinctFinals, Ordered, Knotted, PrefixFree, Cleared, Settled, Feasible, Doable, Disjoint, Reconciled;
      hide NewMetadata;
      DoableParts(before, items, obsolete);
      ManagedCleared(before, items, obsolete);
      if Feasible(root, before, desired, items, obsolete) {
        FeasibleParts(root, before, desired, items, obsolete);
      }
      ok := Replace(desired, items);
      FreeIsLoose(items, published);
      if !ok { return; }
      ok := Check(desired, items, obsolete);
    }

    lemma EarlyMade()
      requires Linked() && Early()
      ensures done.made == map[] && published == []
    {
      hide PlannedDirectory, AbsentPlanned;
      NoneMade(root, ground.base, created, directories, done.made);
    }

    /** Everything `commit` does before it cleans up or rolls back. */
    method Carry(desired: Files, items: seq<Item>, obsolete: seq<Item>) returns (ok: bool)
      requires Writable() && Linked() && Counted() && Planned(items) && Early() && MetadataUntouched() && backed == []
      requires Settled(root, before, outputs, desired, items, obsolete)
      modifies disk, this`extra, this`stranded, this`ledger, this`published, this`done, this`created, this`directories
      modifies this`absent
      modifies this`backed, this`pending, this`publishedMetadata, this`metadataPublished, this`metadataBacked
      modifies disk.tally
      ensures Sound(Now()) && Counted() && Linked() && Planned(items) && Sourced(items) && Traced()
      ensures disk.faults >= old(disk.faults)
      ensures Grew(old(Frozen()), Frozen())
      ensures old(Steady(Now())) && !Knotted(items, published) && !stranded ==> Steady(Now())
      ensures metadataPublished ==> pending.None?
      ensures publishedMetadata.Some? && !metadataPublished ==> pending == publishedMetadata
      ensures metadataBacked ==> metadata.Some?
      ensures ok ==>
        && disk.faults == old(disk.faults) && !stranded && pending.None? && Steady(Now())
        && metadataBacked == metadata.Some?
      ensures ok ==> published == items && backed == Managed(before, items + obsolete) && metadataPublished
      ensures ok ==> NewMetadata(publishedMetadata.value, desired)
      ensures ok ==>
        Reconciled(disk.names, root, desired, items, obsolete, before, outputs, publishedMetadata.value, Finals(backed))
      ensures !ok && disk.faults == old(disk.faults) ==>
        !old(Steady(Now())) || !Feasible(root, before, desired, items, obsolete)
      ensures !ok && disk.faults == old(disk.faults) ==>
        !old(Steady(Now())) || !Doable(before, items, obsolete) || PrefixFree(items) || Knotted(items, published)
      ensures Tallied()
      ensures (old(Steady(Now())) && !Knotted(items, published) && Unsnapped() ==>
        disk.tally.slips > old(disk.tally.slips))
    {
      hide Linked, Early, Sound, Steady, Identity, MadeLinked, AbsentPlanned, Arranged, Finals, Accounted, Sources;
      hide Grew, Managed, DistinctFinals, Ordered, Knotted, PrefixFree, Cleared, Settled, Feasible, Doable, Disjoint;
      hide Reconciled, NewMetadata;
      GrewNone(Frozen());
      EarlyMade();
      DoableParts(before, items, obsolete);
      if Feasible(root, before, desired, items, obsolete) {
        FeasibleParts(root, before, desired, items, obsolete);
      }
      ok := ClearAll(items, obsolete);
      if ok {
        ok := Proceed(desired, items, obsolete);
      }
    }

    // --------------------------------------------------------------- rollback

    // Every check of the rollback holds of the transaction's own partial work,
    // so that once the identity check has passed only a fault can stop it.

    method WithdrawMetadata(ghost items: seq<Item>) returns (ok: bool)
      requires Sound(Now()) && Steady(Now()) && Linked() && Counted() && Planned(items)
      modifies disk, this`done
      ensures Sound(Now()) && Steady(Now()) && disk.faults >= old(disk.faults)
      ensures done == old(done).(metadata := if ok then None else old(done.metadata))
      ensures ok <==> disk.faults == old(disk.faults)
    {
      hide Sound, Identity, ParentOpens, MadeLinked, AbsentPlanned, Arranged, Tree, Sources, CanRemove, MetadataPath;
      ok := true;
      if metadataPublished {
        ghost var s := Now();
        ReadyToWithdrawMetadata(s, before, outputs, metadata, items);
        ok := publishedMetadata.Some?;
        if ok {
          ok := StillMatches(MetadataPath(root), publishedMetadata.value);
        }
        if ok {
          ok := RemoveName(MetadataPath(root));
        }
        if ok {
          done := done.(metadata := None);
          MetadataWithdrawn(s, Now());
        }
      }
    }

    method RestoreMetadata(ghost items: seq<Item>) returns (ok: bool)
      requires Sound(Now()) && Steady(Now()) && Linked() && Planned(items)
      requires done.metadata.None? && done.metadataBacked == metadataBacked && (metadataBacked ==> metadata.Some?)
      modifies disk, this`done
      ensures Sound(Now()) && Steady(Now()) && disk.faults >= old(disk.faults)
      ensures done == old(done).(metadataBacked := !ok && old(done.metadataBacked))
      ensures ok <==> disk.faults == old(disk.faults)
    {
      hide Sound, Identity, ParentOpens, MadeLinked, AbsentPlanned, Arranged, Tree, CanRename, MetadataPath;
      hide OldMetadataPath;
      ok := true;
      if metadataBacked {
        ghost var s := Now();
        ReadyToRestoreMetadata(s, before, outputs, metadata, items);
        ok := StillMatches(OldMetadataPath(backup), metadata.value);
        if ok {
          ok := RenameTo(OldMetadataPath(backup), MetadataPath(root));
        }
        if ok {
          done := done.(metadataBacked := false);
          MetadataRestored(s, Now());
        }
      }
    }

    /** Takes away the output that was published last and is still there. */
    method Withdraw(d: Item, ghost items: seq<Item>) returns (ok: bool)
      requires Sound(Now()) && Steady(Now()) && Planned(items) && d in items
      requires |done.published| > 0 && done.published[|done.published| - 1] == d
      modifies disk, this`done
      ensures Sound(Now()) && Steady(Now()) && disk.faults >= old(disk.faults)
      ensures done == old(done).(published := if ok then old(done.published[..|done.published| - 1])
        else old(done.published))
      ensures ok <==> disk.faults == old(disk.faults)
    {
      hide Sound, Identity, ParentOpens, Arranged, Tree, CanRemove, InScheme;
      ghost var s := Now();
      assert d in done.published;
      ReadyToWithdraw(s, before, outputs, metadata, items, d);
      ok := StillMatches(d.final, outputs[d.final]);
      if !ok { return; }
      ok := RemoveName(d.final);
      if ok {
        done := done.(published := done.published[..|done.published| - 1]);
        assert s.done.published == done.published + [d];
        Withdrawn(s, Now(), d, done.published);
      }
    }

    method WithdrawAll(ghost items: seq<Item>) returns (ok: bool)
      requires Sound(Now()) && Steady(Now()) && Planned(items) && Sourced(items) && done.published == published
      modifies disk, this`done
      ensures Sound(Now()) && Steady(Now()) && disk.faults >= old(disk.faults)
      ensures done == old(done).(published := done.published)
      ensures ok <==> disk.faults == old(disk.faults)
      ensures ok ==> done.published == []
    {
      hide Sound, Identity, Arranged;
      ok := true;
      var i := |published|;
      while ok && i > 0
        invariant 0 <= i <= |published|
        invariant Sound(Now()) && Steady(Now()) && disk.faults >= old(disk.faults)
        invariant done == old(done).(published := done.published)
        invariant ok <==> disk.faults == old(disk.faults)
        invariant ok ==> done.published == published[..i]
        decreases ok, i
      {
        i := i - 1;
        assert published[..i + 1][..i] == published[..i];
        ok := Withdraw(published[i], items);
      }
    }

    /** Puts back the original that was moved away last and is still away. */
    method Restore(d: Item, i: nat, ghost items: seq<Item>) returns (ok: bool)
      requires Sound(Now()) && Steady(Now()) && Linked() && Planned(items)
      requires done.published == [] && done.metadata.None? && !done.metadataBacked
      requires |done.backed| == i + 1 && done.backed[i] == d && d.final in before && before[d.final].Some?
      modifies disk, this`done
      ensures Sound(Now()) && Steady(Now()) && disk.faults >= old(disk.faults)
      ensures done == old(done).(backed := if ok then old(done.backed[..i]) else old(done.backed))
      ensures ok <==> disk.faults == old(disk.faults)
    {
      hide Sound, Identity, ParentOpens, MadeLinked, AbsentPlanned, Arranged, Tree, CanRename, InScheme, BackupFile;
      ghost var s := Now();
      ReadyToRestore(s, created, before, outputs, metadata, items, i, d.final);
      ok := StillMatches(BackupFile(backup, i), before[d.final].value);
      if !ok { return; }
      ok := RenameTo(BackupFile(backup, i), d.final);
      if ok {
        done := done.(backed := done.backed[..i]);
        Restored(s, Now());
      }
    }

    method RestoreAll(ghost items: seq<Item>) returns (ok: bool)
      requires Sound(Now()) && Steady(Now()) && Linked() && Planned(items) && Traced()
      requires done.published == [] && done.metadata.None? && !done.metadataBacked && done.backed == backed
      modifies disk, this`done
      ensures Sound(Now()) && Steady(Now()) && disk.faults >= old(disk.faults)
      ensures done == old(done).(backed := done.backed)
      ensures ok <==> disk.faults == old(disk.faults)
      ensures ok ==> done.backed == []
      ensures forall d :: d in done.backed ==> d in backed
    {
      hide Sound, Identity, Arranged, MadeLinked, AbsentPlanned;
      ok := true;
      var i := |backed|;
      while ok && i > 0
        invariant 0 <= i <= |backed|
        invariant Sound(Now()) && Steady(Now()) && disk.faults >= old(disk.faults)
        invariant done == old(done).(backed := done.backed)
        invariant ok <==> disk.faults == old(disk.faults)
        invariant forall d :: d in done.backed ==> d in backed
        invariant ok ==> done.backed == backed[..i]
        decreases ok, i
      {
        i := i - 1;
        assert backed[..i + 1][..i] == backed[..i];
        ok := Restore(backed[i], i, items);
      }
    }

    method RemoveMade(p: Path, ghost made: seq<Path>, ghost items: seq<Item>) returns (ok: bool)
      requires Sound(Now()) && Steady(Now()) && Planned(items)
      requires MadeLinked(root, ground.base, made, directories, done.made)
      requires AbsentPlanned(root, ground.base, absent, directories)
      requires done.published == [] && done.metadata.None? && |made| > 0 && made[|made| - 1] == p
      modifies disk, this`done, this`directories, this`absent
      ensures Sound(Now()) && Steady(Now()) && Planned(items) && disk.faults >= old(disk.faults)
      ensures done == old(done).(made := done.made)
      ensures ok <==> disk.faults == old(disk.faults)
      ensures ok ==> MadeLinked(root, ground.base, made[..|made| - 1], directories, done.made)
      ensures ok ==> AbsentPlanned(root, ground.base, absent, directories)
    {
      hide Sound, Identity, ParentOpens, MadeLinked, AbsentPlanned, Arranged, Tree, CanRemove, IsDir;
      ghost var s := Now();
      ReadyToUnmake(s, made, before, outputs, metadata, items);
      ok := RemoveName(p);
      if ok {
        directories, absent := directories - {p}, absent + {p};
        done := done.(made := done.made - {p});
        UnmadeAll(s, Now(), made, before, outputs, metadata, items, p);
      }
    }

    /** Removes the directory that was made last and is still there. */
    method Unmake(p: Path, ghost made: seq<Path>, ghost items: seq<Item>) returns (ok: bool)
      requires Sound(Now()) && Steady(Now()) && Planned(items)
      requires MadeLinked(root, ground.base, made, directories, done.made)
      requires AbsentPlanned(root, ground.base, absent, directories)
      requires done.published == [] && done.metadata.None? && |made| > 0 && made[|made| - 1] == p
      modifies disk, this`done, this`directories, this`absent
      ensures Sound(Now()) && Steady(Now()) && Planned(items) && disk.faults >= old(disk.faults)
      ensures done == old(done).(made := done.made)
      ensures ok <==> disk.faults == old(disk.faults)
      ensures ok ==> MadeLinked(root, ground.base, made[..|made| - 1], directories, done.made)
      ensures ok ==> AbsentPlanned(root, ground.base, absent, directories)
    {
      hide Sound, Identity, MadeLinked, AbsentPlanned, Arranged;
      ReadyToUnmake(Now(), made, before, outputs, metadata, items);
      ok := disk.Try();
      if !ok { return; }
      ok := p in directories && p in disk.names && disk.names[p].inode == directories[p].inode;
      if !ok { return; }
      ok := RemoveMade(p, made, items);
    }

    method UnmakeAll(ghost items: seq<Item>) returns (ok: bool)
      requires Sound(Now()) && Steady(Now()) && Planned(items) && Linked()
      requires done.published == [] && done.metadata.None?
      modifies disk, this`done, this`directories, this`absent
      ensures Sound(Now()) && Steady(Now()) && Planned(items) && disk.faults >= old(disk.faults)
      ensures done == old(done).(made := done.made)
      ensures ok <==> disk.faults == old(disk.faults)
      ensures ok ==> done.made == map[]
    {
      hide Sound, Identity, MadeLinked, AbsentPlanned, Arranged;
      ok := true;
      var i := |created|;
      assert created[..i] == created;
      while ok && i > 0
        invariant 0 <= i <= |created|
        invariant Sound(Now()) && Steady(Now()) && Planned(items) && disk.faults >= old(disk.faults)
        invariant done == old(done).(made := done.made)
        invariant ok <==> disk.faults == old(disk.faults)
        invariant ok ==> MadeLinked(root, ground.base, created[..i], directories, done.made)
        invariant ok ==> AbsentPlanned(root, ground.base, absent, directories)
        decreases ok, i
      {
        i := i - 1;
        assert created[..i + 1][..i] == created[..i];
        ok := Unmake(created[i], created[..i + 1], items);
      }
      if ok {
        NoneMade(root, ground.base, created[..i], directories, done.made);
      }
    }

    /** `verifyState` of the old table, `checkBefore` and the last sync. */
    method CheckRestored(ghost items: seq<Item>) returns (ok: bool)
      requires Sound(Now()) && Steady(Now()) && Planned(items) && Undone(done) && SourcesApart(root, done.consumed)
      requires CurrentDescribed(root, before, current)
      modifies disk`faults
      ensures disk.faults >= old(disk.faults)
      ensures ok <==> disk.faults == old(disk.faults)
    {
      hide Sound, Identity, Arranged, VerifyState, BeforeHolds, SourcesApart, CurrentDescribed;
      AllRestored(Now(), before, outputs, metadata, items, current);
      var lucky := disk.Try();
      ok := lucky && VerifyState(disk.names, root, current);
      if !ok { return; }
      ok := VerifyIdentity();
      if !ok { return; }
      lucky := disk.Try();
      ok := lucky && BeforeHolds(disk.names, root, before, metadata);
      if !ok { return; }
      ok := SyncDirectories();
    }

    method UndoMetadata(ghost items: seq<Item>) returns (ok: bool)
      requires Sound(Now()) && Steady(Now()) && Linked() && Counted() && Planned(items)
      requires (metadataBacked ==> metadata.Some?)
      modifies disk, this`done
      ensures Sound(Now()) && Steady(Now()) && disk.faults >= old(disk.faults)
      ensures done == old(done).(metadata := done.metadata, metadataBacked := done.metadataBacked)
      ensures ok <==> disk.faults == old(disk.faults)
      ensures ok ==> done.metadata.None? && !done.metadataBacked
    {
      hide Sound, Identity, Arranged, MadeLinked, AbsentPlanned, Sources;
      ok := WithdrawMetadata(items);
      if !ok { return; }
      ok := RestoreMetadata(items);
    }

    method UndoFiles(ghost items: seq<Item>) returns (ok: bool)
      requires Sound(Now()) && Steady(Now()) && Linked() && Planned(items) && Sourced(items) && Traced()
      requires done.metadata.None? && !done.metadataBacked && done.published == published && done.backed == backed
      modifies disk, this`done
      ensures Sound(Now()) && Steady(Now()) && disk.faults >= old(disk.faults)
      ensures done == old(done).(published := done.published, backed := done.backed)
      ensures ok <==> disk.faults == old(disk.faults)
      ensures ok ==> done.published == [] && done.backed == []
      ensures forall d :: d in done.backed ==> d in backed
    {
      hide Sound, Identity, Arranged, MadeLinked, AbsentPlanned;
      ok := WithdrawAll(items);
      if !ok { return; }
      ok := RestoreAll(items);
    }

    method UndoDirectories(ghost items: seq<Item>) returns (ok: bool)
      requires Sound(Now()) && Steady(Now()) && Linked() && Planned(items) && SourcesApart(root, done.consumed)
      requires done.metadata.None? && !done.metadataBacked && done.published == [] && done.backed == []
      requires CurrentDescribed(root, before, current)
      modifies disk, this`done, this`directories, this`absent
      ensures Sound(Now()) && Steady(Now()) && disk.faults >= old(disk.faults)
      ensures Planned(items)
      ensures done == old(done).(made := done.made)
      ensures ok <==> disk.faults == old(disk.faults)
      ensures ok ==> Undone(done)
    {
      hide Sound, Identity, Arranged, MadeLinked, AbsentPlanned, SourcesApart, CurrentDescribed;
      ok := UnmakeAll(items);
      if !ok { return; }
      ok := CheckRestored(items);
    }

    method UndoAll(ghost items: seq<Item>) returns (ok: bool)
      requires Sound(Now()) && Steady(Now()) && Linked() && Counted() && Planned(items) && Sourced(items) && Traced()
      requires (metadataBacked ==> metadata.Some?) && CurrentDescribed(root, before, current)
      modifies disk, this`done, this`directories, this`absent
      ensures Sound(Now()) && Steady(Now()) && disk.faults >= old(disk.faults)
      ensures Planned(items)
      ensures done.consumed == old(done.consumed)
      ensures ok <==> disk.faults == old(disk.faults)
      ensures ok ==> Undone(done)
      ensures forall d :: d in done.backed ==> d in backed
    {
      hide Sound, Identity, Arranged, MadeLinked, AbsentPlanned, CurrentDescribed, SourcesApart, Sources;
      SourcesOf(Frozen(), ground, before, outputs, metadata, items, published);
      ok := UndoMetadata(items);
      if !ok { return; }
      ok := UndoFiles(items);
      if !ok { return; }
      ok := UndoDirectories(items);
    }

    /** `rollback`.  Once the identity check has passed, only a fault can stop
        it. */
    method Rollback(ghost items: seq<Item>) returns (ok: bool)
      requires Sound(Now()) && Linked() && Counted() && Planned(items) && Sourced(items) && Traced()
      requires (metadataBacked ==> metadata.Some?) && CurrentDescribed(root, before, current)
      modifies disk, this`done, this`directories, this`absent
      ensures Sound(Now()) && disk.faults >= old(disk.faults)
      ensures Planned(items)
      ensures done.consumed == old(done.consumed)
      ensures ok <==> disk.faults == old(disk.faults) && old(Steady(Now()))
      ensures ok ==> Undone(done) && Steady(Now())
      ensures ok ==> disk.names == (ground.base - done.consumed) + extra
      ensures forall d :: d in done.backed ==> d in backed
    {
      hide Sound, Identity, Arranged, MadeLinked, AbsentPlanned, CurrentDescribed, Sources;
      ok := disk.Try();
      if !ok { return; }
      ok := VerifyIdentity();
      if !ok { return; }
      ok := UndoAll(items);
      if ok {
        BackWhereItWas(Now());
      }
    }

    // ---------------------------------------------------------------- cleanup

    /** What the cleanup has a record of. */
    ghost function Expected(originals: bool): Inventory
      reads `ground, `backed, `metadataBacked, `metadataPublished, `publishedMetadata, `ledger
    {
      Inventory(ground.backup, RecordsOf(ground, backed, metadataBacked, originals,
                                         if metadataPublished then None else publishedMetadata),
                ledger.identity, ledger.entries)
    }

    method CollectOriginals() returns (records: Names)
      requires Traced() && BeforeKept(root, ground.base, before)
      ensures records == BackupFiles(ground.base, backup, backed)
    {
      hide BackupFiles, BackupFile, InScheme;
      records := map[];
      var i := 0;
      NoBackupFiles(ground.base, backup, backed);
      while i < |backed|
        invariant 0 <= i <= |backed|
        invariant records == BackupFiles(ground.base, backup, backed[..i])
      {
        assert backed[i] in backed;
        BackupFilesSnoc(ground.base, backup, backed, i);
        records := records[BackupFile(backup, i) := before[backed[i].final].value];
        i := i + 1;
      }
      assert backed[..i] == backed;
    }

    method CollectRecords(originals: bool) returns (records: Names)
      requires Traced() && BeforeKept(root, ground.base, before) && MetadataKept(root, ground.base, metadata)
      requires ground.backup == backup && ground.meta == MetadataPath(root) && (metadataBacked ==> metadata.Some?)
      ensures records == Expected(originals).records
    {
      hide BackupFiles, OldMetadataPath, NextMetadataPath, InScheme, MetadataPath, BeforeKept;
      records := map[];
      if originals {
        records := CollectOriginals();
        if metadataBacked {
          records := records[OldMetadataPath(backup) := metadata.value];
        }
      }
      if !metadataPublished && publishedMetadata.Some? {
        records := records[NextMetadataPath(backup) := publishedMetadata.value];
      }
    }

    /** The entries are counted, and each of them is looked up. */
    method CheckInventory(i: Inventory) returns (ok: bool)
      requires Named(i)
      modifies disk`faults
      ensures disk.faults >= old(disk.faults)
      ensures ok <==> disk.faults == old(disk.faults) && InventoryHolds(disk.names, i)
    {
      hide Named, Wanted, MemberKnown, InventoryHolds;
      if InventoryHolds(disk.names, i) {
        HeldInventory(disk.names, i);
      }
      ok := disk.Try();
      if !ok { return; }
      var entries := Children(disk.names, i.backup);
      ok := |entries| == |i.records| + (if i.ledger.Some? then 1 else 0);
      var todo := entries;
      while ok && todo != {}
        invariant todo <= entries && disk.faults >= old(disk.faults)
        invariant ok ==> disk.faults == old(disk.faults) && |entries| == |i.records| + (if i.ledger.Some? then 1 else 0)
        invariant ok ==> forall q :: q in entries - todo ==> MemberKnown(disk.names, i, q)
        invariant !ok && disk.faults == old(disk.faults) ==> !InventoryHolds(disk.names, i)
        decreases ok, |todo|
      {
        var q :| q in todo;
        var lucky := disk.Try();
        ok := lucky && MemberKnown(disk.names, i, q);
        todo := todo - {q};
      }
      if ok {
        CountedInventory(disk.names, i);
      }
    }

    /** The backup directory and the checks around it. */
    ghost predicate Sweeping()
      reads `guard, `config, `directories, `absent, `backup, disk`names
    {
      Sweepable(disk.names, Frozen(), backup)
    }

    /** One recorded member, compared and removed. */
    method RemoveRecord(q: Path, i: Inventory, ghost start: Names, ghost gone: set<Path>) returns (ok: bool)
      requires Named(i) && i.backup == backup && Sweeping() && q in i.records && q !in gone
      requires Swept(start, disk.names, gone, i)
      modifies disk
      ensures Sweeping() && disk.faults >= old(disk.faults)
      ensures Swept(start, disk.names, if ok then gone + {q} else gone, i)
      ensures old(Steady(Now())) ==> Steady(Now())
      ensures ok ==> disk.faults == old(disk.faults)
      ensures !ok && disk.faults == old(disk.faults) ==> !old(Steady(Now())) || !InventoryHolds(start, i)
    {
      hide Named, Sweepable, Identity, InventoryHolds, CanRemove, ParentOpens, Tree;
      RecordNames(i, q);
      SweepableTree(disk.names, Frozen(), backup);
      if Steady(Now()) && InventoryHolds(start, i) {
        Readied(start, Frozen(), i, gone, q);
      }
      ok := StillMatches(q, i.records[q]);
      if !ok { return; }
      ghost var was := disk.names;
      ok := RemoveName(q);
      if ok {
        AfterRemove(was, Frozen(), backup, q);
        SweptMore(start, gone, i, q);
      }
    }

    /** The recorded members, in no particular order. */
    method RemoveRecords(i: Inventory) returns (ok: bool, ghost gone: set<Path>)
      requires Named(i) && i.backup == backup && Sweeping()
      modifies disk
      ensures Sweeping() && disk.faults >= old(disk.faults)
      ensures Swept(old(disk.names), disk.names, gone, i)
      ensures old(Steady(Now())) ==> Steady(Now())
      ensures ok ==> disk.faults == old(disk.faults) && gone == i.records.Keys
      ensures !ok && disk.faults == old(disk.faults) ==> !old(Steady(Now())) || !InventoryHolds(old(disk.names), i)
    {
      hide Sweepable, Steady, Identity, InventoryHolds, Swept, Named;
      ok, gone := true, {};
      SweptNone(disk.names, i);
      var todo := i.records.Keys;
      assert i.records.Keys - todo == {};
      while ok && todo != {}
        invariant todo <= i.records.Keys
        invariant Sweeping() && disk.faults >= old(disk.faults)
        invariant Swept(old(disk.names), disk.names, gone, i)
        invariant old(Steady(Now())) ==> Steady(Now())
        invariant ok ==> disk.faults == old(disk.faults) && gone == i.records.Keys - todo
        invariant !ok && disk.faults == old(disk.faults) ==> !old(Steady(Now())) || !InventoryHolds(old(disk.names), i)
        decreases ok, |todo|
      {
        var q :| q in todo;
        ok := RemoveRecord(q, i, old(disk.names), gone);
        if ok {
          gone := gone + {q};
          assert gone == i.records.Keys - (todo - {q});
        }
        todo := todo - {q};
      }
      assert todo == {} ==> i.records.Keys - todo == i.records.Keys;
    }

    /** The ledger, compared and removed. */
    method RemoveLedger(i: Inventory, ghost start: Names) returns (ok: bool)
      requires Named(i) && i.backup == backup && Sweeping() && Swept(start, disk.names, i.records.Keys, i)
      modifies disk
      ensures Sweeping() && disk.faults >= old(disk.faults)
      ensures exists gone :: Swept(start, disk.names, gone, i)
      ensures old(Steady(Now())) ==> Steady(Now())
      ensures ok ==> disk.faults == old(disk.faults) && Swept(start, disk.names, Wanted(i), i)
      ensures !ok && disk.faults == old(disk.faults) ==> !old(Steady(Now())) || !InventoryHolds(start, i)
    {
      hide Named, Sweepable, Identity, InventoryHolds, CanRemove, ParentOpens, Tree, LedgerRecordMatches;
      ok := true;
      if i.ledger.None? { return; }
      if Steady(Now()) && InventoryHolds(start, i) {
        LedgerLeft(start, Frozen(), i);
      }
      SweepableTree(disk.names, Frozen(), backup);
      ok := disk.Try();
      if !ok { return; }
      ok := LedgerRecordMatches(disk.names, i);
      if !ok { return; }
      LedgerIsFile(disk.names, i);
      ghost var was := disk.names;
      ok := RemoveName(LedgerPath(backup));
      if ok {
        AfterRemove(was, Frozen(), backup, LedgerPath(backup));
        LedgerSwept(start, i);
      }
    }

    /** The emptied directory itself. */
    method RemoveDirectory(i: Inventory, ghost start: Names) returns (ok: bool)
      requires i.backup == backup && Sweeping() && Swept(start, disk.names, Wanted(i), i) && InventoryHolds(start, i)
      modifies disk
      ensures Tree(disk.names) && disk.faults >= old(disk.faults)
      ensures Cleaned(start, disk.names, i, ok)
      ensures ok ==> disk.faults == old(disk.faults)
      ensures !ok && disk.faults == old(disk.faults) ==> !old(Steady(Now()))
    {
      hide Sweepable, Identity, InventoryHolds, CanRemove, ParentOpens, Tree, PathIdentity, Wanted;
      CleanedPartly(start, disk.names, Wanted(i), i);
      SweepableTree(disk.names, Frozen(), backup);
      if Steady(Now()) {
        LastRemoval(start, Frozen(), i);
      }
      ok := VerifyPathIdentity(backup);
      if !ok { return; }
      ok := RemoveName(backup);
      if ok {
        CleanedFully(start, i);
      }
    }

    method RemoveMembers(i: Inventory) returns (ok: bool)
      requires Named(i) && i.backup == backup && Sweeping() && InventoryHolds(disk.names, i)
      modifies disk
      ensures Tree(disk.names) && disk.faults >= old(disk.faults)
      ensures Cleaned(old(disk.names), disk.names, i, ok)
      ensures ok ==> disk.faults == old(disk.faults)
      ensures !ok && disk.faults == old(disk.faults) ==> !old(Steady(Now()))
    {
      hide Named, Sweepable, Identity, InventoryHolds, Tree, Wanted, Swept, Cleaned;
      ghost var gone;
      ok, gone := RemoveRecords(i);
      CleanedPartly(old(disk.names), disk.names, gone, i);
      SweepableTree(disk.names, Frozen(), backup);
      if !ok { return; }
      ok := RemoveLedger(i, old(disk.names));
      SweepableTree(disk.names, Frozen(), backup);
      if !ok {
        ghost var some :| Swept(old(disk.names), disk.names, some, i);
        CleanedPartly(old(disk.names), disk.names, some, i);
        return;
      }
      ok := RemoveDirectory(i, old(disk.names));
    }

    /** `removeBackup`. */
    method RemoveBackup(originals: bool) returns (ok: bool)
      requires Sweeping() && Traced() && BeforeKept(root, ground.base, before)
      requires MetadataKept(root, ground.base, metadata)
      requires ground.backup == backup && ground.meta == MetadataPath(root) && (metadataBacked ==> metadata.Some?)
      modifies disk
      ensures Tree(disk.names) && disk.faults >= old(disk.faults)
      ensures Cleaned(old(disk.names), disk.names, old(Expected(originals)), ok)
      ensures ok ==> disk.faults == old(disk.faults)
      ensures !ok && disk.faults == old(disk.faults) && old(Steady(Now())) ==>
        !InventoryHolds(old(disk.names), old(Expected(originals)))
    {
      hide Sweepable, Identity, InventoryHolds, Tree, Cleaned, PathIdentity, BeforeKept, MetadataKept, RecordsOf;
      ghost var i0 := Expected(originals);
      RecordsNamed(ground, backed, metadataBacked, originals, if metadataPublished then None
        else publishedMetadata, ledger.identity, ledger.entries);
      SweepableTree(disk.names, Frozen(), backup);
      NothingCleaned(disk.names, i0);
      if Steady(Now()) {
        BackupPathHolds(disk.names, Frozen(), backup);
      }
      ok := VerifyPathIdentity(backup);
      if !ok { return; }
      var records := CollectRecords(originals);
      var i := Inventory(backup, records, ledger.identity, ledger.entries);
      ok := CheckInventory(i);
      if !ok { return; }
      ok := RemoveMembers(i);
    }

    /** The end of a commit that went through: from here on the new state stands,
        and only the backup directory is at stake. */
    method Finish(ghost items: seq<Item>) returns (ok: bool)
      requires Sound(Now()) && Steady(Now()) && !stranded && Counted() && Planned(items) && Traced()
      requires metadataPublished && pending.None? && (metadataBacked ==> metadata.Some?)
      modifies disk, this`recovery
      ensures Outside(disk.names, backup) == old(Standing(ground, done))
      ensures ok ==> disk.names == old(Standing(ground, done))
      ensures ok <==> disk.faults == old(disk.faults)
      ensures disk.faults >= old(disk.faults) && recovery == (old(recovery) || !ok)
      ensures Tree(disk.names)
    {
      hide Sound, Identity, Arranged, Cleaned, Named, Sweepable, InventoryHolds, BeforeKept, MetadataKept, RecordsOf;
      hide Sources, Outside, Standing;
      ghost var s := Now();
      ghost var i := Expected(true);
      SoundSweepable(s);
      BackupOf(s);
      ArrangedKept(Frozen(), ground, before, outputs, metadata, items);
      ManagedFiles(root, ground, done, before, metadata);
      AllRecorded(s, i, metadataBacked);
      FullInventory(s, i);
      ExtraInBackup(s);
      WhatStands(s);
      RecordsNamed(ground, backed, metadataBacked, true, None, ledger.identity, ledger.entries);
      ok := RemoveBackup(true);
      CleanedStands(s.names, disk.names, i, ok);
      if !ok {
        recovery := true;
      }
      var synced := disk.Try();
      if !synced {
        recovery := true;
        ok := false;
      }
    }

    /** Cleaning up after a rollback. */
    method SweepRestored(ghost items: seq<Item>) returns (ok: bool)
      requires Sound(Now()) && Steady(Now()) && Undone(done) && Planned(items) && Traced()
      requires (metadataBacked ==> metadata.Some?)
      requires metadataPublished ==> pending.None?
      requires publishedMetadata.Some? && !metadataPublished ==> pending == publishedMetadata
      requires Conserved(disk.names, root, backup, before, metadata, [], false)
      modifies disk
      ensures Outside(disk.names, backup) == ground.base - done.consumed == Outside(old(disk.names), backup)
      ensures ok ==> disk.names == ground.base - done.consumed
      ensures Conserved(disk.names, root, backup, before, metadata, [], false)
      ensures disk.faults >= old(disk.faults)
      ensures ok <==> disk.faults == old(disk.faults) && Recorded(extra, Expected(false))
      ensures Tree(disk.names)
    {
      hide Sound, Identity, Arranged, Cleaned, Named, Sweepable, InventoryHolds, BeforeKept, MetadataKept, Conserved;
      hide Outside, Standing, Undone, BackupPath, InScheme, Wanted;
      ghost var s := Now();
      ghost var i := Expected(false);
      SoundSweepable(s);
      BackupOf(s);
      ArrangedKept(Frozen(), ground, before, outputs, metadata, items);
      ExtraInBackup(s);
      WhatStands(s);
      NothingStands(ground, done);
      RecordsNamed(ground, backed, metadataBacked, false, if metadataPublished then None
        else publishedMetadata, ledger.identity, ledger.entries);
      SweepDecided(s, i, backed, metadataBacked, if metadataPublished then None else publishedMetadata);
      ok := RemoveBackup(false);
      CleanedStands(s.names, disk.names, i, ok);
      BeforeInScheme(root, ground.base, before);
      StillConserved(root, s.names, disk.names, i, ok, before, metadata);
      CleanedHeld(s.names, disk.names, i, ok);
    }

    /** The lock is where it was made. */
    ghost predicate LockHeld()
      reads `guard, disk`names
    {
      LockPath(root) in disk.names && disk.names[LockPath(root)] == guard
    }

    /** The rollback, and where it leaves every original. */
    method Return(ghost items: seq<Item>) returns (ok: bool)
      requires Sound(Now()) && Linked() && Counted() && Planned(items) && Sourced(items) && Traced()
      requires (metadataBacked ==> metadata.Some?) && CurrentDescribed(root, before, current)
      modifies disk, this`done, this`directories, this`absent
      ensures Tree(disk.names) && disk.faults >= old(disk.faults)
      ensures ok <==> disk.faults == old(disk.faults) && old(Steady(Now()))
      ensures ok ==> Sound(Now()) && Steady(Now()) && Undone(done) && Planned(items) && BackupPath(root, backup)
      ensures done.consumed == Sources(published)
      ensures Conserved(disk.names, root, backup, before, metadata, done.backed, done.metadataBacked)
      ensures LockHeld()
    {
      hide Sound, Steady, Identity, Arranged, MadeLinked, AbsentPlanned, CurrentDescribed, Sources, Conserved;
      hide BackupPath, Tree, Undone, LockPath;
      SourcesOf(Frozen(), ground, before, outputs, metadata, items, published);
      ArrangedKept(Frozen(), ground, before, outputs, metadata, items);
      BackupOf(Now());
      ok := Rollback(items);
      AlwaysConserved(Now(), before, metadata);
      GuardInPlace(Now(), before);
      TreeOf(Now());
    }

    /** The end of a commit that did not go through. */
    method Abandon(ghost items: seq<Item>)
      requires Sound(Now()) && Linked() && Counted() && Planned(items) && Sourced(items) && Traced()
      requires (metadataBacked ==> metadata.Some?) && CurrentDescribed(root, before, current)
      requires metadataPublished ==> pending.None?
      requires publishedMetadata.Some? && !metadataPublished ==> pending == publishedMetadata
      requires !recovery
      modifies disk, this`done, this`directories, this`absent, this`recovery
      ensures Tree(disk.names) && disk.faults >= old(disk.faults)
      ensures recovery <==> disk.faults > old(disk.faults) || !old(Steady(Now())) || !Recorded(extra, Expected(false))
      ensures !recovery ==> disk.names == ground.base - Sources(published)
      ensures Conserved(disk.names, root, backup, before, metadata, done.backed, done.metadataBacked)
      ensures LockHeld()
    {
      hide Sound, Steady, Identity, Arranged, MadeLinked, AbsentPlanned, CurrentDescribed, Sources, Conserved, Recorded;
      hide RecordsOf, Outside, BackupPath, Tree, LockPath, Linked, Counted, Sourced;
      var back := Return(items);
      if !back {
        recovery := true;
        return;
      }
      LockOutside(disk.names, root, backup);
      var swept := SweepRestored(items);
      LockOutside(disk.names, root, backup);
      var synced := disk.Try();
      recovery := !swept || !synced;
    }

    // ---------------------------------------------------------------- prepare

    /** Nothing has been changed yet. */
    ghost predicate Calm()
      reads `guard, `config, `directories, `absent, disk`names
    {
      Tree(disk.names) && Identity(disk.names, Frozen()) && KnownUp(Frozen())
    }

    /** One path, unless it is frozen already. */
    method FreezeOne(q: Path) returns (ok: bool)
      requires FrameTrue(disk.names, Frozen())
      modifies disk`faults, this`directories, this`absent
      ensures disk.faults >= old(disk.faults)
      ensures Frozen() == if ok then Frozen1(disk.names, old(Frozen()), q) else old(Frozen())
      ensures ok ==> disk.faults == old(disk.faults) && (q in disk.names ==> disk.names[q].Dir?)
      ensures !ok && disk.faults == old(disk.faults) ==> q in disk.names && disk.names[q].File?
    {
      ok := true;
      if q !in directories && q !in absent {
        ok := disk.Try();
        if !ok { return; }
        if q !in disk.names {
          absent := absent + {q};
        } else if disk.names[q].File? {
          ok := false;
        } else {
          directories := directories[q := disk.names[q]];
        }
      } else {
        KnownTrue(disk.names, Frozen(), q);
      }
    }

    /** `freezeParents`: a path and everything above it. */
    method FreezeParents(path: Path) returns (ok: bool)
      requires FrameTrue(disk.names, Frozen())
      modifies disk`faults, this`directories, this`absent
      ensures FrameTrue(disk.names, Frozen()) && Froze(old(Frozen()), Frozen(), path)
      ensures disk.faults >= old(disk.faults)
      ensures ok ==> disk.faults == old(disk.faults) && Covers(Frozen(), path) && Freezable(disk.names, path)
      ensures !ok && disk.faults == old(disk.faults) ==> !Freezable(disk.names, path)
    {
      hide FrameTrue, Froze, FrozenAbove, Covers, Freezable, Frozen1;
      FrozeNone(Frozen(), path);
      ok := true;
      var k := |path| + 1;
      FrozenFrom(disk.names, Frozen(), path);
      while ok && k > 0
        invariant 0 <= k <= |path| + 1
        invariant FrameTrue(disk.names, Frozen()) && Froze(old(Frozen()), Frozen(), path)
        invariant disk.faults >= old(disk.faults)
        invariant ok ==> disk.faults == old(disk.faults) && FrozenAbove(disk.names, Frozen(), path, k)
        invariant !ok && disk.faults == old(disk.faults) ==> !Freezable(disk.names, path)
        decreases ok, k
      {
        k := k - 1;
        ghost var g := Frozen();
        ok := FreezeOne(path[..k]);
        if ok {
          FrozenNext(disk.names, old(Frozen()), g, path, k);
        } else if disk.faults == old(disk.faults) {
          NotFreezable(disk.names, path, k);
        }
      }
      if ok {
        FrozenAll(disk.names, Frozen(), path);
      }
    }

    /** A path is frozen, and nothing else has changed. */
    method FreezeCalmly(path: Path) returns (ok: bool)
      requires Calm()
      modifies disk`faults, this`directories, this`absent
      ensures Identity(disk.names, Frozen()) && Froze(old(Frozen()), Frozen(), path)
      ensures disk.faults >= old(disk.faults)
      ensures ok ==> disk.faults == old(disk.faults) && Calm() && Covers(Frozen(), path) && Freezable(disk.names, path)
      ensures !ok && disk.faults == old(disk.faults) ==> !Freezable(disk.names, path)
    {
      hide Identity, FrameTrue, Froze, Covers, Freezable, KnownUp, Tree;
      ghost var f := Frozen();
      IdentityTrue(disk.names, f);
      ok := FreezeParents(path);
      FrozeFixed(f, Frozen(), path);
      IdentityExtended(disk.names, f, Frozen());
      if ok {
        KnownUpFroze(f, Frozen(), path);
      }
    }

    /** The source of one destination, compared and recorded. */
    method TakeOutput(d: Destination, final: Path) returns (ok: bool)
      requires Calm()
      modifies disk`faults, this`outputs
      ensures disk.faults >= old(disk.faults)
      ensures ok ==>
        disk.faults == old(disk.faults) && d.source in disk.names && HoldsBytes(disk.names[d.source], d.owned)
      ensures ok ==> outputs == old(outputs)[final := disk.names[d.source]]
      ensures !ok && disk.faults == old(disk.faults) ==>
        !(d.source in disk.names && HoldsBytes(disk.names[d.source], d.owned))
    {
      ok := disk.Try();
      if !ok { return; }
      ok := d.source in disk.names && HoldsBytes(disk.names[d.source], d.owned);
      if ok {
        outputs := outputs[final := disk.names[d.source]];
      }
    }

    /** One destination: its output is recorded, nothing unmanaged is at its
        final path, and both parents are frozen. */
    method Admit(d: Destination, ghost ds: seq<Destination>, ghost start: Before, ghost first: Frame) returns (ok: bool)
      requires Calm() && ManagedStart(disk.names, root, current, start)
      requires Admitted(disk.names, root, current, start, before, outputs, ds)
      requires FrameReaches(first, Frozen(), Items(root, ds))
      requires Bind(root, d).Some? && ValidOwners(d.owned) && Bind(root, d).value !in Finals(Items(root, ds))
      modifies disk`faults, this`directories, this`absent, this`outputs, this`before
      ensures Identity(disk.names, Frozen()) && guard == old(guard) && config == old(config)
      ensures disk.faults >= old(disk.faults)
      ensures ok ==> disk.faults == old(disk.faults) && Calm()
      ensures ok ==> Admitted(disk.names, root, current, start, before, outputs, ds + [d])
      ensures ok ==> FrameReaches(first, Frozen(), Items(root, ds + [d]))
      ensures !ok && disk.faults == old(disk.faults) ==> !Admissible(disk.names, root, current, d)
    {
      hide Identity, KnownUp, Tree, Froze, Covers, Freezable, ManagedStart, Admitted, FrameReaches, Bind, Items;
      hide ValidOwners;
      var final := Bind(root, d).value;
      ghost var g := Frozen();
      ok := TakeOutput(d, final);
      if !ok { return; }
      SourceFreezable(disk.names, d.source);
      ok := FreezeCalmly(Up(d.source));
      ghost var h := Frozen();
      if !ok { return; }
      if Key(d.owned) !in current {
        ok := disk.Try();
        if !ok { return; }
        ok := final !in disk.names;
        if !ok { return; }
        before := before[final := None];
      } else {
        ManagedKey(disk.names, root, current, start, d);
      }
      ok := FreezeCalmly(Up(final));
      if !ok { return; }
      NotManaged(disk.names, root, current, start, final);
      AdmittedSnoc(disk.names, root, current, start, old(before), old(outputs), ds, d);
      AdmittedBind(disk.names, root, current, start, old(before), old(outputs), ds);
      ItemsSnoc(root, ds, d);
      FrameReachesMore(first, g, h, Frozen(), Items(root, ds), Item(d.owned, d.source, final));
    }

    /** The next destination, with the checks that need the ones before it. */
    method AdmitNext(ds: seq<Destination>, k: nat, finals: set<Path>, projects: map<string, string>,
        ghost start: Before, ghost first: Frame)
      returns (ok: bool, joined: map<string, string>)
      requires Calm() && ManagedStart(disk.names, root, current, start) && k < |ds|
      requires Admitted(disk.names, root, current, start, before, outputs, ds[..k])
      requires FrameReaches(first, Frozen(), Items(root, ds[..k]))
      requires finals == Finals(Items(root, ds[..k])) && ProjectsOf(projects, Owneds(ds[..k]))
      modifies disk`faults, this`directories, this`absent, this`outputs, this`before
      ensures Identity(disk.names, Frozen()) && guard == old(guard) && config == old(config)
      ensures disk.faults >= old(disk.faults)
      ensures ok ==> disk.faults == old(disk.faults) && Calm() && Bind(root, ds[k]).Some?
      ensures ok ==> Admitted(disk.names, root, current, start, before, outputs, ds[..k + 1])
      ensures ok ==> FrameReaches(first, Frozen(), Items(root, ds[..k + 1])) && ProjectsOf(joined, Owneds(ds[..k + 1]))
      ensures !ok && disk.faults == old(disk.faults) ==> !Acceptable(disk.names, root, current, ds)
    {
      hide Identity, KnownUp, Tree, ManagedStart, Admitted, FrameReaches, Bind, Items, ValidOwners, ProjectsOf;
      hide Acceptable, Finals, Owneds, SameVersion, HoldsBytes, Freezable;
      var d := ds[k];
      joined := projects;
      OwnedsSnoc(ds, k);
      AdmittedBind(disk.names, root, current, start, before, outputs, ds[..k]);
      AdmittedOwners(disk.names, root, current, start, before, outputs, ds[..k]);
      ok := Bind(root, d).Some? && ValidOwners(d.owned);
      if !ok {
        NotAdmissible(disk.names, root, current, ds, k);
        return;
      }
      ok := Bind(root, d).value !in finals;
      if !ok {
        NotApart(disk.names, root, current, ds, k);
        return;
      }
      ok, joined := JoinProjects(projects, d.owned, Owneds(ds[..k]));
      if !ok {
        NotOneVersion(disk.names, root, current, ds, k);
        return;
      }
      ok := Admit(d, ds[..k], start, first);
      if !ok && disk.faults == old(disk.faults) {
        NotAdmissible(disk.names, root, current, ds, k);
      }
    }

    method AdmitAll(ds: seq<Destination>) returns (ok: bool, desired: Files, projects: map<string, string>)
      requires Calm() && ManagedStart(disk.names, root, current, before)
      modifies disk`faults, this`directories, this`absent, this`outputs, this`before
      ensures Identity(disk.names, Frozen()) && guard == old(guard) && config == old(config)
      ensures disk.faults >= old(disk.faults)
      ensures ok ==> disk.faults == old(disk.faults) && Calm()
      ensures ok ==> Admitted(disk.names, root, current, old(before), before, outputs, ds)
      ensures ok ==> AllBind(root, ds) && FrameReaches(old(Frozen()), Frozen(), Items(root, ds))
      ensures ok ==> desired == NewFiles(Owneds(ds)) && ProjectsOf(projects, Owneds(ds))
      ensures !ok && disk.faults == old(disk.faults) ==> !Acceptable(disk.names, root, current, ds)
    {
      hide Identity, KnownUp, Tree, ManagedStart, Admitted, FrameReaches, Bind, Items, ProjectsOf, Acceptable, Finals;
      hide Owneds, NewFiles;
      outputs, desired, projects := map[], map[], map[];
      var finals := {};
      ok := true;
      var k := 0;
      AdmissionBegins(disk.names, root, current, before, Frozen(), ds);
      while ok && k < |ds|
        invariant 0 <= k <= |ds|
        invariant Identity(disk.names, Frozen()) && guard == old(guard) && config == old(config)
        invariant disk.faults >= old(disk.faults)
        invariant ok ==> disk.faults == old(disk.faults) && Calm()
        invariant ok ==> Admitted(disk.names, root, current, old(before), before, outputs, ds[..k])
        invariant ok ==> AllBind(root, ds[..k]) && FrameReaches(old(Frozen()), Frozen(), Items(root, ds[..k]))
        invariant ok ==> finals == Finals(Items(root, ds[..k]))
        invariant ok ==> desired == NewFiles(Owneds(ds[..k])) && ProjectsOf(projects, Owneds(ds[..k]))
        invariant !ok && disk.faults == old(disk.faults) ==> !Acceptable(disk.names, root, current, ds)
        decreases ok, |ds| - k
      {
        ok, projects := AdmitNext(ds, k, finals, projects, old(before), old(Frozen()));
        if ok {
          var d := ds[k];
          OwnedsSnoc(ds, k);
          ItemsSnoc(root, ds[..k], d);
          NewFilesSnoc(Owneds(ds[..k]), d.owned);
          finals := finals + {Bind(root, d).value};
          desired := desired[Key(d.owned) := d.owned];
        }
        k := k + 1;
      }
      assert k == |ds| ==> ds[..k] == ds;
    }

    /** `checkBefore`. */
    method CheckBefore() returns (ok: bool)
      modifies disk`faults
      ensures disk.faults >= old(disk.faults)
      ensures ok ==> disk.faults == old(disk.faults)
      ensures !ok && disk.faults == old(disk.faults) && Identity(disk.names, Frozen()) ==>
        !BeforeHolds(disk.names, root, before, metadata)
    {
      hide Identity, BeforeHolds;
      ok := VerifyIdentity();
      if !ok { return; }
      var lucky := disk.Try();
      ok := lucky && BeforeHolds(disk.names, root, before, metadata);
    }

    /** The old table is divided and the state before is checked. */
    method DivideOld(ds: seq<Destination>, projects: map<string, string>, newest: Files, ghost start: Before)
      returns (ok: bool, desired: Files, obsolete: seq<Item>, ghost unsorted: seq<Item>)
      requires Identity(disk.names, Frozen()) && KeyedFiles(root, current) && |ds| > 0
      requires ProjectsOf(projects, Owneds(ds)) && newest == NewFiles(Owneds(ds))
      requires Admitted(disk.names, root, current, start, before, outputs, ds)
      requires BeforeStarts(disk.names, root, current, start) && MetadataKept(root, disk.names, metadata)
      modifies disk`faults
      ensures disk.faults >= old(disk.faults)
      ensures ok ==>
        disk.faults == old(disk.faults) && Compatible(current, Owneds(ds)) && Acceptable(disk.names, root, current, ds)
      ensures ok ==> desired == Desired(current, Owneds(ds))
      ensures ok ==> ObsoleteItems(root, current, Owneds(ds), current.Keys, unsorted) && obsolete == Sorted(unsorted)
      ensures !ok && disk.faults == old(disk.faults) ==> !Acceptable(disk.names, root, current, ds)
    {
      hide *;
      AdmittedParts(disk.names, root, current, start, before, outputs, ds);
      var items;
      ok, desired, items := SortOut(root, current, projects, newest, Owneds(ds));
      unsorted := items;
      obsolete := Sorted(items);
      if !ok {
        OldRefused(disk.names, root, current, ds);
        return;
      }
      BothAccept(disk.names, root, current, ds, projects);
      StartHolds(disk.names, root, current, start, before, Finals(Items(root, ds)), metadata);
      ok := CheckBefore();
    }

    /** `prepare`: the destinations are looked at one by one, then the old table
        is divided.  Nothing on the disk changes. */
    method Prepare(ds: seq<Destination>)
      returns (ok: bool, desired: Files, obsolete: seq<Item>, ghost unsorted: seq<Item>)
      requires StartsFrom(disk.names, Frozen(), current, before, metadata)
      modifies disk`faults, this`directories, this`absent, this`outputs, this`before
      ensures Identity(disk.names, Frozen()) && guard == old(guard) && config == old(config)
      ensures disk.faults >= old(disk.faults)
      ensures ok ==> disk.faults == old(disk.faults) && Acceptable(disk.names, root, current, ds)
      ensures ok ==> Prepared(disk.names, old(Frozen()), Frozen(), current, old(before), before, outputs, metadata, ds)
      ensures ok ==> KnownUp(Frozen()) && desired == Desired(current, Owneds(ds))
      ensures ok ==> ObsoleteItems(root, current, Owneds(ds), current.Keys, unsorted) && obsolete == Sorted(unsorted)
      ensures !ok && disk.faults == old(disk.faults) ==> !Acceptable(disk.names, root, current, ds)
    {
      hide Identity, KnownUp, Tree, ManagedStart, Admitted, FrameReaches, ProjectsOf, Acceptable, Compatible;
      hide StartsFrom, Prepared, ObsoleteItems, KeyedFiles, BeforeStarts, MetadataKept, NewFiles, Desired, Items;
      hide AllBind;
      ghost var first := Frozen();
      StartParts(disk.names, first, current, before, metadata);
      var projects;
      ok, desired, projects := AdmitAll(ds);
      obsolete, unsorted := [], [];
      if !ok { return; }
      ok := |ds| != 0;
      if !ok {
        EmptyRefused(disk.names, root, current, ds);
        return;
      }
      ok, desired, obsolete, unsorted := DivideOld(ds, projects, desired, old(before));
      if ok {
        PreparedFrom(disk.names, first, Frozen(), current, old(before), before, outputs, metadata, ds);
      }
    }

    // ----------------------------------------------------------------- commit

    /** A transaction that has done nothing yet. */
    ghost predicate Unused()
      reads `created, `published, `backed, `ledger, `metadataPublished, `metadataBacked, `publishedMetadata, `recovery
    {
      && created == [] && published == [] && backed == [] && ledger == NO_LEDGER
      && !metadataPublished && !metadataBacked && publishedMetadata.None? && !recovery
    }

    /** `MkdirTemp` in the root, and the frame extended by it. */
    method MakeBackup() returns (ok: bool, made: Object)
      requires Tree(disk.names) && Identity(disk.names, Frozen()) && NoBackup(disk.names, root) && !recovery
      requires IsDir(disk.names, root)
      requires NoBackupPlanned(root, absent)
      modifies disk, this`backup, this`directories, this`absent, this`recovery
      modifies disk.tally
      ensures Tree(disk.names) && disk.faults >= old(disk.faults)
      ensures !ok && !recovery ==> disk.names == old(disk.names)
      ensures !ok ==> disk.faults > old(disk.faults)
      ensures ok ==> !recovery && disk.faults == old(disk.faults)
      ensures ok || recovery ==> BackupPath(root, backup) && made.Dir? && disk.names == old(disk.names)[backup := made]
      ensures ok ==> BackupFrozen(old(disk.names), old(Frozen()), Frozen(), backup, made)
      ensures disk.tally.slips == old(disk.tally.slips) + (if recovery then disk.faults - old(disk.faults) else 0)
      ensures disk.tally.checkpoints == old(disk.tally.checkpoints)
    {
      hide Tree, NoBackup, FrameTrue, Froze, Covers, Identity;
      var suffix: string := *;
      var inode: nat := *;
      backup := root + [COMMIT_PREFIX + suffix];
      made := Dir(inode, 448);
      TempName(root, suffix);
      BackupIsNew(disk.names, root, backup);
      BackupParent(root, backup);
      ok := disk.Create(backup, made);
      if !ok { return; }
      IdentityTrue(old(disk.names), Frozen());
      StillTrue(old(disk.names), Frozen(), backup, made);
      ok := FreezeParents(backup);
      if !ok {
        OpenFreezable(disk.names, backup);
        disk.tally.Count(disk.faults - old(disk.faults));
        recovery := true;
      }
    }

    /** Everything is planned, the backup directory is there, and nothing else
        has been touched. */
    ghost predicate Ready(items: seq<Item>, obsolete: seq<Item>, desired: Files)
      reads this, disk`names
    {
      && Writable() && Linked() && Counted() && Planned(items) && Early() && MetadataUntouched() && backed == []
      && Settled(root, before, outputs, desired, items, obsolete) && CurrentDescribed(root, before, current)
      && |desired| > 0 && !recovery && Steady(Now())
    }

    /** The proof state at the start of the way forward. */
    ghost method Begin0(names: Names, made: Object)
      requires Unused()
      modifies this`ground, this`done, this`extra, this`stranded, this`pending
      ensures ground == Ground(names, backup, MetadataPath(root), outputs) && done == NOTHING_DONE
      ensures extra == map[backup := made] && !stranded && pending.None?
    {
      ground, done, extra := Ground(names, backup, MetadataPath(root), outputs), NOTHING_DONE, map[backup := made];
      stranded, pending := false, None;
    }

    /** The last look at the state before, then the backup directory. */
    method Open(ds: seq<Destination>, ghost first: Frame, ghost start: Before, ghost unsorted: seq<Item>,
        ghost desired: Files) returns (ok: bool)
      requires Prepared(disk.names, first, Frozen(), current, start, before, outputs, metadata, ds)
      requires SourcesPrivate(root, ds)
      requires first.root == root && AllBind(root, ds) && Unused()
      requires ObsoleteItems(root, current, Owneds(ds), current.Keys, unsorted)
      requires desired == Desired(current, Owneds(ds))
      modifies disk, this`backup, this`directories, this`absent, this`recovery
      modifies this`ground, this`done, this`extra, this`stranded, this`pending
      modifies disk.tally
      ensures disk.faults >= old(disk.faults)
      ensures ok <==> disk.faults == old(disk.faults)
      ensures ok ==> Ready(Sorted(Items(root, ds)), Sorted(unsorted), desired) && ground.base == old(disk.names)
      ensures !ok && !recovery ==> disk.names == old(disk.names)
      ensures !ok && recovery ==> BackupPath(root, backup) && Outside(disk.names, backup) == old(disk.names)
      ensures !ok && recovery ==> Saved(root, old(disk.names), disk.names, backup, current)
      ensures Tree(disk.names)
      ensures old(disk.tally.slips) <= disk.tally.slips && old(disk.tally.checkpoints) <= disk.tally.checkpoints
      ensures disk.tally.slips - old(disk.tally.slips) + disk.tally.checkpoints - old(disk.tally.checkpoints)
              <= disk.faults - old(disk.faults)
      ensures ok ==> disk.tally.slips == old(disk.tally.slips)
      ensures !ok && recovery ==> disk.tally.slips > old(disk.tally.slips)
    {
      hide *;
      PreparedStart(disk.names, first, Frozen(), current, start, before, outputs, metadata, ds);
      PreparedParts(disk.names, first, Frozen(), current, start, before, outputs, metadata, ds);
      StartHolds(disk.names, root, current, start, before, Finals(Items(root, ds)), metadata);
      BackupNotPlanned(disk.names, first, Frozen(), current, start, before, outputs, metadata, ds);
      StartLock(disk.names, first);
      StartNoBackup(disk.names, root);
      UnusedMeans();
      FrozenParts();
      ok := disk.Step();
      if !ok { return; }
      ok := CheckBefore();
      if !ok { return; }
      ghost var names, f := old(disk.names), old(Frozen());
      var made;
      ok, made := MakeBackup();
      if !ok {
        if recovery {
          OutsideNew(names, backup, made);
          BackupIsNew(names, root, backup);
          EmptyBackup(names, backup, made);
          SavedEarly(root, names, disk.names, backup, current);
        }
        return;
      }
      FrozenParts();
      OpenedWell(names, first, f, Frozen(), current, start, before, outputs, metadata, ds, backup, made);
      OpenedSettled(names, first, f, current, start, before, outputs, metadata, ds, unsorted);
      SomethingWanted(names, first, f, current, start, before, outputs, metadata, ds);
      Begin0(names, made);
      ReadyNow(names, made, Sorted(Items(root, ds)), Sorted(unsorted), desired);
    }

    lemma FrozenParts()
      ensures Frozen().root == root && Frozen().absent == absent && Frozen().directories == directories
    {
    }

    lemma UnusedMeans()
      requires Unused()
      ensures !recovery
    {
    }

    lemma ReadyNow(names: Names, made: Object, items: seq<Item>, obsolete: seq<Item>, desired: Files)
      requires Unused() && disk.names == names[backup := made]
      requires ground == Ground(names, backup, MetadataPath(root), outputs) && done == NOTHING_DONE
      requires extra == map[backup := made] && !stranded && pending.None?
      requires Sound(Opened(names, backup, made, Frozen(), outputs)) && Identity(disk.names, Frozen())
      requires AbsentPlanned(root, names, absent, directories)
      requires Arranged(Frozen(), ground, before, outputs, metadata, items)
      requires Settled(root, before, outputs, desired, items, obsolete) && CurrentDescribed(root, before, current)
      requires |desired| > 0
      ensures Ready(items, obsolete, desired)
    {
      hide Sound, Identity, AbsentPlanned, Arranged, Settled, CurrentDescribed, MadeLinked;
      NothingMade(root, names, directories);
      assert Now() == Opened(names, backup, made, Frozen(), outputs);
    }

    /** The way forward went through. */
    ghost predicate Carried(desired: Files, items: seq<Item>, obsolete: seq<Item>)
      reads this, disk`names
    {
      && Sound(Now()) && Steady(Now()) && !stranded && Counted() && Linked() && Planned(items) && Traced()
      && published == items && backed == Managed(before, items + obsolete) && metadataPublished && pending.None?
      && NewMetadata(publishedMetadata.value, desired) && (metadataBacked ==> metadata.Some?)
      && Settled(root, before, outputs, desired, items, obsolete) && |desired| > 0
      && Reconciled(disk.names, root, desired, items, obsolete, before, outputs, publishedMetadata.value,
          Finals(backed))
    }

    /** The way forward stopped. */
    ghost predicate Stopped(items: seq<Item>)
      reads this, disk`names
    {
      && Sound(Now()) && Linked() && Counted() && Planned(items) && Sourced(items) && Traced()
      && (metadataBacked ==> metadata.Some?) && CurrentDescribed(root, before, current)
      && (metadataPublished ==> pending.None?)
      && (publishedMetadata.Some? && !metadataPublished ==> pending == publishedMetadata)
      && (!Knotted(items, published) && !stranded ==> Steady(Now()))
    }

    method Succeed(desired: Files, items: seq<Item>, obsolete: seq<Item>) returns (ok: bool)
      requires Carried(desired, items, obsolete)
      modifies disk, this`recovery
      ensures disk.faults >= old(disk.faults) && recovery == (old(recovery) || !ok)
      ensures ok <==> disk.faults == old(disk.faults)
      ensures ok ==> disk.names == Outside(disk.names, backup)
      ensures PrefixFree(items) && Recorded(extra, Expected(false))
      ensures Installed(root, ground.base, Outside(disk.names, backup), items, Finals(obsolete), desired)
      ensures Describes(Outside(disk.names, backup), root, desired)
      ensures LockHeld()
      ensures Tree(disk.names)
    {
      hide Sound, Steady, Identity, MadeLinked, AbsentPlanned, Arranged, Finals, Sources, Managed, Settled, Reconciled;
      hide NewMetadata, PrefixFree, Installed, Describes, Recorded, RecordsOf, Standing, Outside, BackupPath;
      WentThrough(desired, items, obsolete);
      ok := Finish(items);
      LockOutside(disk.names, root, backup);
    }

    /** Forward.  Only a fault between an effect and its record leaves something
        that cleaning up will not recognize. */
    method Advance(desired: Files, items: seq<Item>, obsolete: seq<Item>) returns (ok: bool)
      requires Ready(items, obsolete, desired)
      modifies disk, this`extra, this`stranded, this`ledger, this`published, this`done, this`created, this`directories
      modifies this`absent
      modifies this`backed, this`pending, this`publishedMetadata, this`metadataPublished, this`metadataBacked
      modifies disk.tally
      ensures disk.faults >= old(disk.faults) && Tallied()
      ensures ok ==> disk.faults == old(disk.faults) && Carried(desired, items, obsolete)
      ensures !ok ==> Stopped(items)
      ensures Sourced(items)
      ensures !ok && PrefixFree(items) && !Recorded(extra, Expected(false)) ==> disk.tally.slips > old(disk.tally.slips)
      ensures Feasible(root, before, desired, items, obsolete) && disk.faults == old(disk.faults) ==> ok
      ensures !ok && Doable(before, items, obsolete) && !PrefixFree(items) && disk.faults == old(disk.faults) ==>
        Knotted(items, published)
    {
      hide Sound, Steady, Identity, MadeLinked, AbsentPlanned, Arranged, Finals, Sources, Grew, Managed, DistinctFinals;
      hide Settled, Feasible, Disjoint, Reconciled, NewMetadata, PrefixFree, Recorded, RecordsOf, CurrentDescribed;
      hide Counted, Linked, Planned, Writable, Traced, Early, Expected, Doable, Knotted;
      ReadyUnstranded(items, obsolete, desired);
      ok := Carry(desired, items, obsolete);
      FreeIsLoose(items, published);
      NotRecorded();
    }

    lemma ReadyUnstranded(items: seq<Item>, obsolete: seq<Item>, desired: Files)
      requires Ready(items, obsolete, desired)
      ensures !stranded
    {
      hide Sound, Steady, Planned, Settled, CurrentDescribed, Linked;
    }

    /** What has been made and is known is what cleaning up expects. */
    lemma NotRecorded()
      requires Sound(Now())
      requires metadataPublished ==> pending.None?
      requires publishedMetadata.Some? && !metadataPublished ==> pending == publishedMetadata
      ensures !Recorded(extra, Expected(false)) ==> stranded || Unsnapped()
    {
      hide Sound, Recorded, RecordsOf;
      BackupOf(Now());
      if !stranded && !Unsnapped() {
        var next := if metadataPublished then None else publishedMetadata;
        NextOnly(ground, backed, metadataBacked, next);
        AccountedRecorded(Now(), Expected(false));
      }
    }

    /** Forward, and then to an end. */
    method Decide(desired: Files, items: seq<Item>, obsolete: seq<Item>) returns (ok: bool, ghost carried: bool)
      requires Ready(items, obsolete, desired)
      modifies disk, this`extra, this`stranded, this`ledger, this`published, this`done, this`created, this`directories
      modifies this`absent
      modifies this`backed, this`pending, this`publishedMetadata, this`metadataPublished, this`metadataBacked
      modifies this`recovery
      modifies disk.tally
      ensures disk.faults >= old(disk.faults)
      ensures old(disk.tally.slips) <= disk.tally.slips && old(disk.tally.checkpoints) <= disk.tally.checkpoints
      ensures disk.tally.slips - old(disk.tally.slips) + disk.tally.checkpoints - old(disk.tally.checkpoints)
              <= disk.faults - old(disk.faults)
      ensures ok ==> carried && !recovery && disk.names == Outside(disk.names, backup)
      ensures ok ==> disk.faults == old(disk.faults)
      ensures !ok && carried ==> recovery
      ensures carried ==> PrefixFree(items)
      ensures carried ==> Installed(root, ground.base, Outside(disk.names, backup), items, Finals(obsolete), desired)
      ensures carried ==> Describes(Outside(disk.names, backup), root, desired)
      ensures !carried ==> Conserved(disk.names, root, backup, before, metadata, done.backed, done.metadataBacked)
      ensures !ok && !recovery ==> disk.names == ground.base - Sources(published)
      ensures forall d :: d in published ==> d in items
      ensures LockHeld()
      ensures PrefixFree(items) && disk.faults == old(disk.faults) ==> !recovery
      ensures Feasible(root, before, desired, items, obsolete) && recovery ==>
        carried || disk.faults > old(disk.faults) + 1 || disk.tally.slips > old(disk.tally.slips)
      ensures Feasible(root, before, desired, items, obsolete) && disk.faults == old(disk.faults) + 1 ==>
        disk.tally.checkpoints > old(disk.tally.checkpoints) ==> !recovery
      ensures Feasible(root, before, desired, items, obsolete) && disk.faults == old(disk.faults) ==> ok
      ensures Doable(before, items, obsolete) && !PrefixFree(items) && disk.faults == old(disk.faults) ==> recovery
      ensures Tree(disk.names)
    {
      hide Finals, Sources, Settled, Feasible, PrefixFree, Conserved, Installed, Describes, Recorded, RecordsOf;
      hide CurrentDescribed, Outside, Tree, LockHeld, Expected, Carried, Stopped, Identity, Sound, Arranged, MadeLinked;
      hide AbsentPlanned, Doable, Knotted;
      FeasibleFree(root, before, desired, items, obsolete);
      var carriedOut := Advance(desired, items, obsolete);
      carried := carriedOut;
      if carriedOut {
        ok := Succeed(desired, items, obsolete);
      } else {
        ok := false;
        GiveUp(items);
      }
    }

    /** Recovery has one of three causes: a fault on the way back, something left
        without a record, or a file where a directory was planned. */
    method GiveUp(ghost items: seq<Item>)
      requires Stopped(items) && !recovery
      modifies disk, this`done, this`directories, this`absent, this`recovery
      ensures Tree(disk.names) && disk.faults >= old(disk.faults)
      ensures recovery <==>
        disk.faults > old(disk.faults) || !Recorded(extra, Expected(false)) || Knotted(items, published)
      ensures PrefixFree(items) ==> !Knotted(items, published)
      ensures !recovery ==> disk.names == ground.base - Sources(published)
      ensures Conserved(disk.names, root, backup, before, metadata, done.backed, done.metadataBacked)
      ensures LockHeld()
    {
      hide Sound, Steady, Identity, Arranged, MadeLinked, AbsentPlanned, CurrentDescribed, Sources, Conserved, Recorded;
      hide RecordsOf, Tree, LockPath, Linked, Counted, Sourced, Traced, PrefixFree, Knotted;
      RecordedNotStranded();
      KnotShows(items);
      Abandon(items);
    }

    lemma KnotShows(items: seq<Item>)
      requires Sound(Now()) && Counted() && Planned(items) && Sourced(items)
      ensures Knotted(items, published) ==> !Steady(Now())
      ensures PrefixFree(items) ==> !Knotted(items, published)
    {
      hide Sound, Steady, Identity, Arranged, Knotted, PrefixFree, Sources;
      FreeIsLoose(items, published);
      if Knotted(items, published) {
        KnottedUnsteady(Now(), before, outputs, metadata, items);
      }
    }

    lemma RecordedNotStranded()
      requires Sound(Now())
      requires metadataPublished ==> pending.None?
      requires publishedMetadata.Some? && !metadataPublished ==> pending == publishedMetadata
      ensures Recorded(extra, Expected(false)) ==> !stranded
    {
      hide Sound, Recorded, RecordsOf;
      var next := if metadataPublished then None else publishedMetadata;
      BackupOf(Now());
      NextOnly(ground, backed, metadataBacked, next);
      if Recorded(extra, Expected(false)) {
        RecordedAccounted(Now(), Expected(false), next);
      }
    }

    /** What a commit that went through has left on the disk. */
    lemma WentThrough(desired: Files, items: seq<Item>, obsolete: seq<Item>)
      requires Sound(Now()) && Steady(Now()) && !stranded && Counted() && Linked() && Planned(items) && Traced()
      requires published == items && backed == Managed(before, items + obsolete) && metadataPublished && pending.None?
      requires NewMetadata(publishedMetadata.value, desired)
      requires Settled(root, before, outputs, desired, items, obsolete) && |desired| > 0
      requires Reconciled(disk.names, root, desired, items, obsolete, before, outputs, publishedMetadata.value,
        Finals(backed))
      ensures PrefixFree(items)
      ensures Installed(root, ground.base, Standing(ground, done), items, Finals(obsolete), desired)
      ensures Describes(Standing(ground, done), root, desired)
      ensures Outside(disk.names, backup) == Standing(ground, done)
      ensures var p := LockPath(root); p in Standing(ground, done) && Standing(ground, done)[p] == guard
      ensures BackupPath(root, backup) && Recorded(extra, Expected(false))
    {
      hide Sound, Steady, Identity, MadeLinked, AbsentPlanned, Arranged, Finals, Sources, Managed, Settled, Reconciled;
      hide NewMetadata, PrefixFree, Installed, Describes, Recorded, Standing, Outside, BackupPath;
      CarriedWell(Now(), created, before, outputs, metadata, desired, items, obsolete, publishedMetadata.value);
      BackupOf(Now());
      ExtraInBackup(Now());
      WhatStands(Now());
      ArrangedKept(Frozen(), ground, before, outputs, metadata, items);
      SourcesOf(Frozen(), ground, before, outputs, metadata, items, published);
      GuardInPlace(Now(), before);
      LockOutside(disk.names, root, backup);
      NextOnly(ground, backed, metadataBacked, None);
      AccountedRecorded(Now(), Expected(false));
    }

    /** A transaction that has begun. */
    ghost predicate Begun()
      reads this, disk`names
    {
      Unused() && StartsFrom(disk.names, Frozen(), current, before, metadata)
    }

    /** What a commit may leave behind when it ends in recovery: the new state, or
        every managed file and the metadata of the old one, each in one place. */
    ghost predicate Recoverable(start: Names, ds: seq<Destination>)
      reads this, disk`names
    {
      && BackupPath(root, backup)
      && (|| Committed(root, start, Outside(disk.names, backup), current, ds)
          || Saved(root, start, disk.names, backup, current))
    }

    /** The end of a commit, in the caller's terms. */
    ghost predicate Ended(start: Names, ds: seq<Destination>, ok: bool)
      reads this, disk`names
    {
      && (ok ==> !recovery && Untangled(root, ds) && Committed(root, start, disk.names, current, ds))
      && (!ok && !recovery ==> exists used :: used <= SourcesUsed(ds) && disk.names == start - used)
      && (recovery ==> Recoverable(start, ds))
      && LockHeld()
      && Tree(disk.names)
    }

    method DecideFor(ds: seq<Destination>, desired: Files, obsolete: seq<Item>, ghost unsorted: seq<Item>,
        ghost start: Before) returns (ok: bool)
      requires AllBind(root, ds) && obsolete == Sorted(unsorted) && desired == Desired(current, Owneds(ds))
      requires Ready(Sorted(Items(root, ds)), obsolete, desired)
      requires ObsoleteItems(root, current, Owneds(ds), current.Keys, unsorted)
      requires ManagedStart(ground.base, root, current, start)
      requires AllAdmissible(ground.base, root, current, ds) && BindsApart(root, ds)
      requires Manages(ground.base, root, current, before) && MetadataKept(root, ground.base, metadata)
      modifies disk, this`extra, this`stranded, this`ledger, this`published, this`done, this`created, this`directories
      modifies this`absent
      modifies this`backed, this`pending, this`publishedMetadata, this`metadataPublished, this`metadataBacked
      modifies this`recovery
      modifies disk.tally
      ensures disk.faults >= old(disk.faults) && Ended(ground.base, ds, ok)
      ensures ok ==> disk.faults == old(disk.faults)
      ensures old(disk.tally.slips) <= disk.tally.slips && old(disk.tally.checkpoints) <= disk.tally.checkpoints
      ensures disk.tally.slips - old(disk.tally.slips) + disk.tally.checkpoints - old(disk.tally.checkpoints)
              <= disk.faults - old(disk.faults)
      ensures Untangled(root, ds) && disk.faults == old(disk.faults) ==> !recovery
      ensures Untangled(root, ds) && OneUse(ds) && InjectiveFinals(root, current) && recovery ==>
        || Committed(root, ground.base, Outside(disk.names, backup), current, ds)
        || disk.faults > old(disk.faults) + 1 || disk.tally.slips > old(disk.tally.slips)
      ensures Untangled(root, ds) && OneUse(ds) && InjectiveFinals(root, current) ==>
        disk.faults == old(disk.faults) + 1 && disk.tally.checkpoints > old(disk.tally.checkpoints) ==> !recovery
      ensures OneUse(ds) && InjectiveFinals(root, current) && disk.faults == old(disk.faults) ==>
        (ok <==> Untangled(root, ds))
      ensures OneUse(ds) && InjectiveFinals(root, current) && AllPlain(ds) && disk.faults == old(disk.faults) ==>
        (recovery <==> !Untangled(root, ds))
    {
      hide *;
      var items := Sorted(Items(root, ds));
      SortedSame(Items(root, ds));
      UntangledIs(root, ds);
      OneUseDistinct(root, ds);
      if OneUse(ds) && InjectiveFinals(root, current) {
        ManagedThere(ground.base, root, current, start);
        if Untangled(root, ds) {
          UpdateFeasible(ground.base, root, current, before, ds, unsorted);
        }
        if AllPlain(ds) {
          UpdateDoable(ground.base, root, current, before, ds, unsorted);
        }
      }
      ReadyParts(items, obsolete, desired);
      ghost var carried;
      ok, carried := Decide(desired, items, obsolete);
      SourcesAmong(items, published);
      if carried {
        CommittedFrom(root, ground.base, Outside(disk.names, backup), current, ds, unsorted);
      } else {
        SavedFrom(root, ground.base, disk.names, backup, current, before, metadata, done.backed, done.metadataBacked);
      }
      EndedFrom(ds, ok, carried);
    }

    lemma ReadyParts(items: seq<Item>, obsolete: seq<Item>, desired: Files)
      requires Ready(items, obsolete, desired)
      ensures BackupPath(root, backup)
    {
      BackupOf(Now());
    }

    lemma EndedFrom(ds: seq<Destination>, ok: bool, carried: bool)
      requires BackupPath(root, backup)
      requires ok ==> carried && !recovery && disk.names == Outside(disk.names, backup)
      requires !ok && carried ==> recovery
      requires carried ==> Untangled(root, ds) && Committed(root, ground.base, Outside(disk.names, backup), current, ds)
      requires !carried ==> Saved(root, ground.base, disk.names, backup, current)
      requires !ok && !recovery ==> disk.names == ground.base - Sources(published)
      requires Sources(published) <= SourcesUsed(ds)
      requires LockHeld() && Tree(disk.names)
      ensures Ended(ground.base, ds, ok)
    {
      hide Tree, Sources, SourcesUsed, Untangled, Committed, Saved, Outside, BackupPath;
    }

    method CommitPlanned(ds: seq<Destination>, desired: Files, obsolete: seq<Item>, ghost first: Frame,
        ghost start: Before, ghost unsorted: seq<Item>) returns (ok: bool)
      requires Prepared(disk.names, first, Frozen(), current, start, before, outputs, metadata, ds)
      requires SourcesPrivate(root, ds)
      requires first.root == root && AllBind(root, ds) && Unused() && guard == first.guard
      requires ObsoleteItems(root, current, Owneds(ds), current.Keys, unsorted)
      requires desired == Desired(current, Owneds(ds)) && obsolete == Sorted(unsorted)
      modifies disk, this`backup, this`ground
      modifies this`extra, this`stranded, this`ledger, this`published, this`done, this`created, this`directories
      modifies this`absent
      modifies this`backed, this`pending, this`publishedMetadata, this`metadataPublished, this`metadataBacked
      modifies this`recovery
      modifies disk.tally
      ensures disk.faults >= old(disk.faults) && Ended(old(disk.names), ds, ok)
      ensures ok ==> disk.faults == old(disk.faults)
      ensures old(disk.tally.slips) <= disk.tally.slips && old(disk.tally.checkpoints) <= disk.tally.checkpoints
      ensures disk.tally.slips - old(disk.tally.slips) + disk.tally.checkpoints - old(disk.tally.checkpoints)
              <= disk.faults - old(disk.faults)
      ensures Untangled(root, ds) && disk.faults == old(disk.faults) ==> !recovery
      ensures Untangled(root, ds) && OneUse(ds) && InjectiveFinals(root, current) && recovery ==>
        || Committed(root, old(disk.names), Outside(disk.names, backup), current, ds)
        || disk.faults > old(disk.faults) + 1 || disk.tally.slips > old(disk.tally.slips)
      ensures Untangled(root, ds) && OneUse(ds) && InjectiveFinals(root, current) ==>
        disk.faults == old(disk.faults) + 1 && disk.tally.checkpoints > old(disk.tally.checkpoints) ==> !recovery
      ensures OneUse(ds) && InjectiveFinals(root, current) && disk.faults == old(disk.faults) ==>
        (ok <==> Untangled(root, ds))
      ensures OneUse(ds) && InjectiveFinals(root, current) && AllPlain(ds) && disk.faults == old(disk.faults) ==>
        (recovery <==> !Untangled(root, ds))
    {
      hide *;
      ghost var names := disk.names;
      PreparedStart(names, first, Frozen(), current, start, before, outputs, metadata, ds);
      PreparedParts(names, first, Frozen(), current, start, before, outputs, metadata, ds);
      StartLock(names, first);
      StartManages(names, root, current, start, before, Finals(Items(root, ds)));
      ok := Open(ds, first, start, unsorted, desired);
      if !ok {
        if recovery {
          LockOutside(disk.names, root, backup);
        }
        Holding();
        EndedEarly(names, ds);
        return;
      }
      ok := DecideFor(ds, desired, obsolete, unsorted, start);
    }

    lemma Holding()
      requires LockPath(root) in disk.names && disk.names[LockPath(root)] == guard
      ensures LockHeld()
    {
    }

    lemma EndedEarly(start: Names, ds: seq<Destination>)
      requires recovery ==> BackupPath(root, backup) && Saved(root, start, disk.names, backup, current)
      requires !recovery ==> disk.names == start
      requires LockHeld() && Tree(disk.names)
      ensures Ended(start, ds, false)
    {
      hide Tree, SourcesUsed, Untangled, Committed, Saved, Outside, BackupPath;
      assert start - {} == start;
    }

    /** `commit`.  Without a fault, an untangled update never ends in recovery, nor
        with a single one at a checkpoint on the way forward.
        One fault leads to recovery only when the new state is in place, or as a
        slip: in freezing the new backup directory (`MakeBackup`), at the first
        look at the ledger (`RecordLedger`) or at a directory just made (`Mkdir`),
        in writing `next-metadata` (`MakeNext`), or from there to its snapshot
        (`InstallNext`).  No other fault is counted as one.  Of plain destinations
        the tangled ones always end in recovery. */
    method Commit(ds: seq<Destination>) returns (ok: bool)
      requires Begun() && SourcesPrivate(root, ds)
      modifies disk, this`outputs, this`before, this`backup, this`ground
      modifies this`extra, this`stranded, this`ledger, this`published, this`done, this`created, this`directories
      modifies this`absent
      modifies this`backed, this`pending, this`publishedMetadata, this`metadataPublished, this`metadataBacked
      modifies this`recovery
      modifies disk.tally
      ensures disk.faults >= old(disk.faults)
      ensures old(disk.tally.slips) <= disk.tally.slips && old(disk.tally.checkpoints) <= disk.tally.checkpoints
      ensures disk.tally.slips - old(disk.tally.slips) + disk.tally.checkpoints - old(disk.tally.checkpoints)
              <= disk.faults - old(disk.faults)
      ensures Ended(old(disk.names), ds, ok) && (ok ==> disk.faults == old(disk.faults))
      ensures ok || recovery || disk.tally.checkpoints > old(disk.tally.checkpoints) ==>
        Acceptable(old(disk.names), root, current, ds)
      ensures Untangled(root, ds) && disk.faults == old(disk.faults) ==> !recovery
      ensures Untangled(root, ds) && OneUse(ds) && InjectiveFinals(root, current) && recovery ==>
        || Committed(root, old(disk.names), Outside(disk.names, backup), current, ds)
        || disk.faults > old(disk.faults) + 1 || disk.tally.slips > old(disk.tally.slips)
      ensures Untangled(root, ds) && OneUse(ds) && InjectiveFinals(root, current) ==>
        disk.faults == old(disk.faults) + 1 && disk.tally.checkpoints > old(disk.tally.checkpoints) ==> !recovery
      ensures OneUse(ds) && InjectiveFinals(root, current) && disk.faults == old(disk.faults) ==>
        (ok <==> Acceptable(old(disk.names), root, current, ds) && Untangled(root, ds))
      ensures OneUse(ds) && InjectiveFinals(root, current) && AllPlain(ds) && disk.faults == old(disk.faults) ==>
        (recovery <==> Acceptable(old(disk.names), root, current, ds) && !Untangled(root, ds))
    {
      hide *;
      BegunParts();
      ghost var first, start := Frozen(), before;
      var desired, obsolete;
      ghost var unsorted;
      ok, desired, obsolete, unsorted := Prepare(ds);
      EndedEarly(disk.names, ds);
      if !ok { return; }
      AcceptableBinds(disk.names, root, current, ds);
      ok := CommitPlanned(ds, desired, obsolete, first, start, unsorted);
    }

    lemma BegunParts()
      requires Begun()
      ensures StartsFrom(disk.names, Frozen(), current, before, metadata) && !recovery && Unused()
      ensures Frozen().root == root && Frozen().guard == guard && guard.File? && guard.links == 1
      ensures LockHeld() && Tree(disk.names) && ReadState(disk.names, root) == Some(current)
    {
      hide Tree, NoBackup, ReadState, VerifyState, BeforeStarts, MetadataKept;
      StartLock(disk.names, Frozen());
    }

    // ------------------------------------------------------------------ begin

    /** The fixed roots are frozen. */
    method FreezeFixed() returns (ok: bool)
      requires directories == map[] && absent == {} && Tree(disk.names) && Laid(disk.names, root)
      modifies disk`faults, this`directories, this`absent
      ensures disk.faults >= old(disk.faults)
      ensures ok ==> disk.faults == old(disk.faults) && FixedUpTo(disk.names, Frozen(), 6)
      ensures !ok && disk.faults == old(disk.faults) ==> !Startable(disk.names, root)
    {
      hide FixedUpTo, Laid, Tree, FixedList, FixedPaths, FrameTrue, Froze, Covers, Startable, Freezable;
      FixedListed(root);
      NothingFixed(disk.names, Frozen());
      ok := true;
      var k := 0;
      while ok && k < 6
        invariant 0 <= k <= 6
        invariant disk.faults >= old(disk.faults)
        invariant ok ==> disk.faults == old(disk.faults) && FixedUpTo(disk.names, Frozen(), k)
        invariant !ok && disk.faults == old(disk.faults) ==> !Startable(disk.names, root)
        decreases ok, 6 - k
      {
        var p := FixedList(root)[k];
        assert p in FixedList(root);
        ghost var f := Frozen();
        FixedTrue(disk.names, f, k);
        ok := FreezeParents(p);
        if ok {
          FixedMore(disk.names, f, Frozen(), k);
        } else if disk.faults == old(disk.faults) {
          NotStartable(disk.names, root, p);
        }
        k := k + 1;
      }
    }

    /** One file of the table: its snapshot, and the directories above it. */
    method StartWith(key: string, ghost keys: set<string>) returns (ok: bool)
      requires Tree(disk.names) && VerifyState(disk.names, root, current) && key in current
      requires StartUpTo(disk.names, Frozen(), current, before, keys)
      modifies disk`faults, this`directories, this`absent, this`before
      ensures disk.faults >= old(disk.faults)
      ensures ok <==> disk.faults == old(disk.faults)
      ensures ok ==> StartUpTo(disk.names, Frozen(), current, before, keys + {key})
    {
      hide Tree, VerifyState, StartUpTo, Final, FrameTrue, Froze, Covers, Freezable;
      VerifiedFile(disk.names, root, current, key);
      var p := Final(root, current[key]).value;
      ghost var f := Frozen();
      StartUpToParts(disk.names, f, current, before, keys);
      StartHeld(disk.names, f);
      ok := disk.Try();
      if !ok { return; }
      before := before[p := Some(disk.names[p])];
      ok := FreezeParents(Up(p));
      if ok {
        StartMore(disk.names, f, Frozen(), current, old(before), keys, key, p);
      }
    }

    method StartAll() returns (ok: bool)
      requires Tree(disk.names) && VerifyState(disk.names, root, current) && FrameStarts(disk.names, Frozen())
      requires before == map[]
      modifies disk`faults, this`directories, this`absent, this`before
      ensures disk.faults >= old(disk.faults)
      ensures ok <==> disk.faults == old(disk.faults)
      ensures ok ==> StartUpTo(disk.names, Frozen(), current, before, current.Keys)
    {
      hide Tree, VerifyState, StartUpTo, FrameStarts;
      ok := true;
      var todo := current.Keys;
      NothingStarted(disk.names, Frozen(), current);
      assert current.Keys - todo == {};
      while ok && todo != {}
        invariant todo <= current.Keys && disk.faults >= old(disk.faults)
        invariant ok <==> disk.faults == old(disk.faults)
        invariant ok ==> StartUpTo(disk.names, Frozen(), current, before, current.Keys - todo)
        decreases ok, |todo|
      {
        var key :| key in todo;
        ok := StartWith(key, current.Keys - todo);
        assert current.Keys - (todo - {key}) == (current.Keys - todo) + {key};
        todo := todo - {key};
      }
      assert todo == {} ==> current.Keys - todo == current.Keys;
    }

    /** The checks of `begin` before anything is frozen. */
    method Discover(supported: bool) returns (ok: bool)
      modifies disk`faults, this`config, this`current
      ensures disk.faults >= old(disk.faults)
      ensures ok ==>
        && disk.faults == old(disk.faults) && supported && Laid(disk.names, root)
        && SingleLinkFile(disk.names, ConfigPath(root))
      ensures ok ==> NoBackup(disk.names, root) && config == disk.names[ConfigPath(root)]
      ensures ok ==> ReadState(disk.names, root) == Some(current) && VerifyState(disk.names, root, current)
      ensures !ok && disk.faults == old(disk.faults) ==> !supported || !Startable(disk.names, root)
    {
      hide Laid, ReadState, VerifyState, BackupPath;
      ok := disk.Try();
      if !ok { return; }
      ok := supported && Laid(disk.names, root) && SingleLinkFile(disk.names, ConfigPath(root));
      if !ok { return; }
      ok := disk.Try();
      if !ok { return; }
      ok := forall q :: q in disk.names ==> !BackupPath(root, q);
      if !ok { return; }
      ok := disk.Try();
      if !ok { return; }
      config := disk.names[ConfigPath(root)];
      ok := disk.Try();
      if !ok { return; }
      var state := ReadState(disk.names, root);
      ok := state.Some?;
      if !ok { return; }
      current := state.value;
      ok := disk.Try();
      if !ok { return; }
      ok := VerifyState(disk.names, root, current);
    }

    /** The fixed roots, and what the metadata file is. */
    method LookAround(supported: bool) returns (ok: bool)
      requires Tree(disk.names) && directories == map[] && absent == {} && metadata.None?
      requires LockPath(root) in disk.names && disk.names[LockPath(root)] == guard && guard.File? && guard.links == 1
      modifies disk`faults, this`config, this`current, this`directories, this`absent
      ensures disk.faults >= old(disk.faults)
      ensures ok ==>
        disk.faults == old(disk.faults) && supported && Startable(disk.names, root) && NoBackup(disk.names, root)
      ensures ok ==>
        && FrameStarts(disk.names, Frozen()) && ReadState(disk.names, root) == Some(current)
        && VerifyState(disk.names, root, current)
      ensures !ok && disk.faults == old(disk.faults) ==> !supported || !Startable(disk.names, root)
    {
      hide Tree, Laid, ReadState, VerifyState, NoBackup, FixedUpTo, FrameStarts, Startable, LockPath;
      ok := Discover(supported);
      if !ok { return; }
      ok := FreezeFixed();
      if !ok { return; }
      HeldNow();
      AllFixed(disk.names, Frozen());
      LookedAt(disk.names, Frozen());
    }

    lemma HeldNow()
      requires LockPath(root) in disk.names && disk.names[LockPath(root)] == guard && guard.File? && guard.links == 1
      requires SingleLinkFile(disk.names, ConfigPath(root)) && config == disk.names[ConfigPath(root)]
      ensures Held(disk.names, Frozen())
    {
    }

    /** Everything `begin` does once it holds the lock. */
    method Look(supported: bool) returns (ok: bool)
      requires Tree(disk.names) && Unused() && directories == map[] && absent == {} && before == map[] && metadata.None?
      requires LockPath(root) in disk.names && disk.names[LockPath(root)] == guard && guard.File? && guard.links == 1
      modifies disk`faults, this`config, this`current, this`directories, this`absent, this`metadata, this`before
      ensures disk.faults >= old(disk.faults)
      ensures ok ==> disk.faults == old(disk.faults) && Begun() && supported && Startable(disk.names, root)
      ensures !ok && disk.faults == old(disk.faults) ==> !supported || !Startable(disk.names, root)
    {
      hide Tree, ReadState, VerifyState, NoBackup, FrameStarts, StartUpTo, StartsFrom, Startable, MetadataPath;
      hide LockPath;
      ok := LookAround(supported);
      if !ok { return; }
      MetadataFound(disk.names, root);
      ok := disk.Try();
      if !ok { return; }
      metadata := if MetadataPath(root) in disk.names then Some(disk.names[MetadataPath(root)]) else None;
      ok := StartAll();
      if ok {
        StartedFrom(disk.names, Frozen(), current, before, metadata);
      }
    }

    lemma EndedParts(start: Names, ds: seq<Destination>, ok: bool)
      requires Ended(start, ds, ok)
      ensures ok ==> !recovery && Untangled(root, ds) && Committed(root, start, disk.names, current, ds)
      ensures !ok && !recovery ==> exists used :: used <= SourcesUsed(ds) && disk.names == start - used
      ensures recovery ==> BackupPath(root, backup)
      ensures recovery ==>
        || Committed(root, start, Outside(disk.names, backup), current, ds)
        || Saved(root, start, disk.names, backup, current)
      ensures LockPath(root) in disk.names && disk.names[LockPath(root)] == guard && Tree(disk.names)
    {
      hide Tree, SourcesUsed, Untangled, Committed, Saved, BackupPath, Outside;
    }

    /** `guard.verify` and, when the outcome is certain, the end of the lock. */
    method Release() returns (ok: bool)
      requires Tree(disk.names) && guard.File? && guard.links == 1
      requires LockPath(root) in disk.names && disk.names[LockPath(root)] == guard
      modifies disk
      ensures Tree(disk.names) && disk.faults >= old(disk.faults)
      ensures ok <==> disk.faults == old(disk.faults)
      ensures disk.names == if ok then old(disk.names) - {LockPath(root)} else old(disk.names)
    {
      hide Tree;
      ok := disk.Try();
      if !ok { return; }
      ok := GuardHeld(disk.names, Frozen());
      if !ok { return; }
      ok := disk.Remove(LockPath(root));
    }

    /** `close`: an uncertain recovery keeps the lock. */
    method Close() returns (ok: bool)
      requires Tree(disk.names) && guard.File? && guard.links == 1
      requires LockPath(root) in disk.names && disk.names[LockPath(root)] == guard
      modifies disk
      ensures Tree(disk.names) && disk.faults >= old(disk.faults)
      ensures ok <==> disk.faults == old(disk.faults)
      ensures disk.names == if ok && !recovery then old(disk.names) - {LockPath(root)} else old(disk.names)
    {
      hide Tree;
      if recovery {
        ok := disk.Try();
        ok := ok && GuardHeld(disk.names, Frozen());
      } else {
        ok := Release();
      }
    }

    /** Looks, and gives the lock back when something is wrong. */
    method LookOrRelease(supported: bool) returns (ok: bool)
      requires Tree(disk.names) && Unused() && directories == map[] && absent == {} && before == map[] && metadata.None?
      requires LockPath(root) in disk.names && disk.names[LockPath(root)] == guard && guard.File? && guard.links == 1
      modifies disk, this`config, this`current, this`directories, this`absent, this`metadata, this`before
      ensures Tree(disk.names) && disk.faults >= old(disk.faults)
      ensures ok ==> disk.faults == old(disk.faults) && Begun() && disk.names == old(disk.names)
      ensures !ok ==>
        || disk.names == old(disk.names) - {LockPath(root)}
        || (disk.names == old(disk.names) && disk.faults > old(disk.faults))
      ensures !ok && disk.faults == old(disk.faults) ==> !supported || !Startable(old(disk.names), root)
      ensures ok ==> supported && Startable(disk.names, root)
    {
      hide Tree, Startable, Begun;
      ok := Look(supported);
      if !ok {
        var released := Release();
      }
    }

    /** `beginPyPIVenvTransaction`.  `supported` says that the configuration names
        a supported interpreter.  A fault between making the lock and recording
        it leaves the lock behind. */
    static method Begin(root: Path, disk: Disk, supported: bool) returns (t: Transaction?)
      requires Tree(disk.names)
      modifies disk
      ensures Tree(disk.names) && disk.faults >= old(disk.faults)
      ensures t != null ==> fresh(t) && t.root == root && t.disk == disk && t.Begun() && disk.faults == old(disk.faults)
      ensures t != null ==>
        LockPath(root) !in old(disk.names) && disk.names == old(disk.names)[LockPath(root) := t.guard]
      ensures t == null ==> Agree(root, old(disk.names), disk.names)
      ensures t != null || disk.names == old(disk.names)
        || (LockPath(root) !in old(disk.names) && LockPath(root) in disk.names && disk.faults > old(disk.faults))
      ensures disk.faults == old(disk.faults) ==>
        (t != null <==> supported && LockPath(root) !in old(disk.names) && Startable(old(disk.names), root))
    {
      hide Tree, Startable, StartsFrom, Agree, LockPath;
      var lock := LockPath(root);
      LockParent(root);
      AgreeItself(root, disk.names);
      StartableRoot(disk.names, root);
      var inode: nat := *;
      var content: Content := *;
      var made := File(inode, content, LEDGER_MODE, 1);
      t := null;
      var ok := disk.Create(lock, made);
      if !ok { return; }
      AddThenRemove(old(disk.names), lock, made);
      LockApart(root, old(disk.names), made);
      AgreeStartable(root, old(disk.names), disk.names);
      ok := disk.Try();
      if !ok { return; }
      var begun := new Transaction(root, disk, made);
      ok := begun.LookOrRelease(supported);
      if ok {
        t := begun;
      }
    }
  }
}
