/** The way back: what `rollback` finds at each of its steps, and that it ends
    where the transaction began. */
module VenvUndo {
  import opened Wrappers
  import opened Records
  import opened FileSystem
  import opened Ownership
  import opened Frames
  import opened Areas
  import opened Layout
  import opened Geometry
  import opened VenvState
  import opened VenvPlan
  import opened VenvOutcome

  lemma {:induction false} CoveredBy(f: Frame, p: Path)
    requires KnownUp(f) && Known(f, p)
    ensures Covers(f, p)
    decreases |p|
  {
    if |p| > 0 {
      CoveredBy(f, Up(p));
      forall k | 0 <= k <= |p| ensures Known(f, p[..k]) {
        if k < |p| {
          assert p[..k] == Up(p)[..k];
        } else {
          assert p[..k] == p;
        }
      }
    }
  }

  /** While the frame holds, everything of the transaction's own is in the
      backup directory. */
  lemma ExtraInBackup(s: State)
    requires Sound(s) && Steady(s)
    ensures forall q :: q in s.extra ==> Prefix(s.backup, q)
  {
    hide BackupKept, FrameKept, LedgerKept, NextKept, Accounted, Tree, Kept, Live, Placed;
    forall q | q in s.extra ensures Prefix(s.backup, q) {
      ExtraMember(s, q);
    }
  }

  lemma VacantNow(s: State, p: Path)
    requires Sound(s) && Steady(s)
    requires !Prefix(s.backup, p) && p !in Kept(s.ground, s.done) && p !in Live(s.ground, s.done)
    ensures p !in s.names
  {
    ExtraInBackup(s);
    hide Partitioned, FrameKept, LedgerKept, NextKept, Accounted, Tree, Live, Kept, Originals, Consistent;
    OriginalsUnderBackup(s.ground, s.done);
  }

  lemma FoundDirectory(names: Names, f: Frame, p: Path)
    requires Identity(names, f) && Tree(names) && p in names && |p| > 0 && Covers(f, Up(p))
    ensures Parent(p) in f.directories
  {
    assert IsDir(names, Parent(p));
    assert Up(p)[..|Up(p)|] == Parent(p);
  }

  /** A known parent of something that exists opens. */
  lemma OpensAt(s: State, p: Path)
    requires Sound(s) && Steady(s) && p in s.names && |p| > 0 && Covers(s.frame, Up(p))
    ensures ParentOpens(s.names, s.frame, p)
  {
    hide Sound, Identity, Tree, Covers, ParentOpens;
    TreeOf(s);
    FoundDirectory(s.names, s.frame, p);
    Opens(s, p);
  }

  // ---------------------------------------------------------------- metadata

  /** The new metadata can be taken away. */
  lemma ReadyToWithdrawMetadata(s: State, before: Before, outputs: Names, metadata: Option<Object>, items: seq<Item>)
    requires Sound(s) && Steady(s) && Arranged(s.frame, s.ground, before, outputs, metadata, items)
    requires s.done.metadata.Some? && s.done.metadata.value.File? && s.done.metadata.value.links == 1
    ensures var meta := MetadataPath(s.frame.root);
      Tree(s.names) && Matches(s.names, meta, s.done.metadata.value) && CanRemove(s.names, meta) &&
        ParentOpens(s.names, s.frame, meta)
  {
    hide Sound, Identity, BeforeKept, MetadataKept, ItemPlanned, Shaped, CoversAll, Tree, Covers, ParentOpens, KnownUp;
    TreeOf(s);
    NewMetadataInPlace(s, s.done.metadata.value);
    MetadataCovered(s.frame, s.ground, before, outputs, metadata, items);
    assert Up(MetadataPath(s.frame.root)) == MetadataDir(s.frame.root);
    OpensAt(s, MetadataPath(s.frame.root));
  }

  lemma OldMetadataInPlace(s: State)
    requires Sound(s) && s.done.metadataBacked
    ensures var from := OldMetadataPath(s.backup);
      from in s.names && s.ground.meta in s.ground.base && s.names[from] == s.ground.base[s.ground.meta]
  {
    hide Partitioned, FrameKept, LedgerKept, NextKept, Accounted, Tree, Live, Kept, Originals, World, Separate, Finals;
    UndoBackupMetadata(s.ground, s.done, s.extra);
  }

  /** The old metadata can be put back. */
  lemma ReadyToRestoreMetadata(s: State, before: Before, outputs: Names, metadata: Option<Object>, items: seq<Item>)
    requires Sound(s) && Steady(s) && Arranged(s.frame, s.ground, before, outputs, metadata, items)
    requires AbsentPlanned(s.frame.root, s.ground.base, s.frame.absent, s.frame.directories)
    requires s.done.metadata.None? && s.done.metadataBacked && metadata.Some?
    ensures var meta, from := MetadataPath(s.frame.root), OldMetadataPath(s.backup);
      && Tree(s.names) && meta !in s.frame.absent && from in s.names && s.names[from].File?
      && Matches(s.names, from, metadata.value) && CanRename(s.names, from, meta)
      && ParentOpens(s.names, s.frame, from) && ParentOpens(s.names, s.frame, meta)
  {
    hide Sound, Identity, BeforeKept, ItemPlanned, Shaped, CoversAll, Tree, Covers, ParentOpens, KnownUp, Live;
    hide AbsentPlanned;
    var meta := MetadataPath(s.frame.root);
    TreeOf(s);
    BackupOf(s);
    MetadataApart(s.frame.root, s.backup);
    MetadataNotAbsent(s.frame.root, s.ground.base, s.frame.absent, s.frame.directories);
    OldMetadataInPlace(s);
    MetadataNotLiveOf(s);
    VacantNow(s, meta);
    MetadataCovered(s.frame, s.ground, before, outputs, metadata, items);
    AbsentNew(s.frame.root, s.ground.base, s.frame.absent, s.frame.directories);
    assert Up(meta) == MetadataDir(s.frame.root);
    ParentFrozen(s.frame, s.ground.base, s.frame.absent, meta);
    Opens(s, meta);
    BackupOpens(s, "metadata");
  }

  lemma MetadataNotLiveOf(s: State)
    requires Sound(s) && s.done.metadata.None?
    ensures s.ground.meta !in Live(s.ground, s.done)
  {
    MetadataIsNotLive(s);
  }

  // ----------------------------------------------------------------- outputs

  /** The last published output can be taken away. */
  lemma ReadyToWithdraw(s: State, before: Before, outputs: Names, metadata: Option<Object>, items: seq<Item>, d: Item)
    requires Sound(s) && Steady(s) && Arranged(s.frame, s.ground, before, outputs, metadata, items)
    requires d in items && d in s.done.published
    ensures Tree(s.names) && InScheme(s.frame.root, d.final) && d.final in outputs
    ensures Matches(s.names, d.final, outputs[d.final]) && CanRemove(s.names, d.final)
    ensures ParentOpens(s.names, s.frame, d.final)
  {
    hide Sound, Identity, BeforeKept, MetadataKept, Shaped, CoversAll, Tree, Covers, ParentOpens, KnownUp, InScheme;
    TreeOf(s);
    PublishedInPlace(s, before, outputs, d);
    ItemOf(s.frame, s.ground, before, outputs, metadata, items, d);
    OpensAt(s, d.final);
  }

  lemma PublishedInPlace(s: State, before: Before, outputs: Names, d: Item)
    requires Sound(s) && s.ground.outputs == outputs && d in s.done.published
    requires ItemPlanned(s.frame.root, s.ground.base, before, outputs, d)
    ensures d.final in s.names && Matches(s.names, d.final, outputs[d.final]) && |d.final| > 0
  {
    OutputInPlace(s, before, outputs, s.done.published, d);
    hide Sound;
  }

  /** A file where a directory is planned fails every identity check. */
  lemma KnottedUnsteady(s: State, before: Before, outputs: Names, metadata: Option<Object>, items: seq<Item>)
    requires Sound(s) && Arranged(s.frame, s.ground, before, outputs, metadata, items)
    requires (forall d :: d in s.done.published ==> d in items) && Knotted(items, s.done.published)
    ensures !Steady(s)
  {
    hide *;
    var d, e := KnotOf(items, s.done.published);
    PlannedParts(s.frame, s.ground, before, outputs, metadata, items, d);
    PublishedInPlace(s, before, outputs, d);
    ItemOf(s.frame, s.ground, before, outputs, metadata, items, e);
    KnownAbove(s.frame, d.final, e.final);
    MatchesFile(s.names, d.final, outputs[d.final]);
    KnownIsNoFile(s, d.final);
  }

  lemma KnotOf(items: seq<Item>, published: seq<Item>) returns (d: Item, e: Item)
    requires Knotted(items, published)
    ensures d in published && e in items && Within(d.final, e.final)
  {
    d :| d in published && !Loose(items, d);
    e :| e in items && Within(d.final, e.final);
  }

  lemma PlannedParts(f: Frame, g: Ground, before: Before, outputs: Names, metadata: Option<Object>, items: seq<Item>,
      d: Item)
    requires Arranged(f, g, before, outputs, metadata, items) && d in items
    ensures g.outputs == outputs && ItemPlanned(f.root, g.base, before, outputs, d) && d.final in outputs
  {
    hide BeforeKept, MetadataKept, Tree, CoversAll, Shaped, KnownUp;
  }

  lemma KnownAbove(f: Frame, p: Path, q: Path)
    requires Covers(f, Up(q)) && Within(p, q)
    ensures Known(f, p)
  {
    assert Up(q)[..|p|] == p;
  }

  lemma KnownIsNoFile(s: State, p: Path)
    requires Known(s.frame, p) && p in s.names && s.names[p].File?
    ensures !Steady(s)
  {
  }

  lemma MatchesFile(names: Names, p: Path, o: Object)
    requires Matches(names, p, o)
    ensures p in names && names[p].File?
  {
  }

  // --------------------------------------------------------------- originals

  lemma NothingLiveAt(g: Ground, done: Progress, created: seq<Path>, f: Frame, p: Path)
    requires done.published == [] && done.metadata.None? && p in g.base
    requires MadeLinked(f.root, g.base, created, f.directories, done.made)
    ensures p !in Live(g, done)
  {
    if p in done.made {
      MadeNew(f.root, g.base, created, f.directories, done.made, p);
    }
  }

  lemma BackupInPlace(s: State)
    requires Sound(s) && |s.done.backed| > 0 && !s.done.metadataBacked
    ensures var n := |s.done.backed| - 1; var p, from := s.done.backed[n].final, BackupFile(s.backup, n);
      p in s.ground.base && from in s.names && s.names[from] == s.ground.base[p] && p !in Kept(s.ground, s.done)
  {
    hide Partitioned, FrameKept, LedgerKept, NextKept, Accounted, Tree, Live, Originals, World, Separate;
    hide DistinctFinals, BackupFile;
    UndoBackup(s.ground, s.done, s.extra);
    assert s.done.backed[|s.done.backed| - 1] in s.done.backed;
  }

  /** The last original moved away can be put back. */
  lemma ReadyToRestore(s: State, created: seq<Path>, before: Before, outputs: Names, metadata: Option<Object>,
      items: seq<Item>, n: nat, p: Path)
    requires Sound(s) && Steady(s) && Arranged(s.frame, s.ground, before, outputs, metadata, items)
    requires AbsentPlanned(s.frame.root, s.ground.base, s.frame.absent, s.frame.directories)
    requires MadeLinked(s.frame.root, s.ground.base, created, s.frame.directories, s.done.made)
    requires s.done.published == [] && s.done.metadata.None? && !s.done.metadataBacked
    requires |s.done.backed| == n + 1 && s.done.backed[n].final == p && p in before && before[p].Some?
    ensures Tree(s.names) && InScheme(s.frame.root, p) && p !in s.frame.absent
    ensures var from := BackupFile(s.backup, n);
      && from in s.names && s.names[from].File? && Matches(s.names, from, before[p].value)
      && CanRename(s.names, from, p) && ParentOpens(s.names, s.frame, from) && ParentOpens(s.names, s.frame, p)
  {
    hide *;
    TreeOf(s);
    BackupOf(s);
    BackupInPlace(s);
    RestoredPath(s, before, outputs, metadata, items, p);
    SchemeApart(s.frame.root, s.backup, p);
    NothingLiveAt(s.ground, s.done, created, s.frame, p);
    VacantNow(s, p);
    AbsentNew(s.frame.root, s.ground.base, s.frame.absent, s.frame.directories);
    ParentFrozen(s.frame, s.ground.base, s.frame.absent, p);
    Opens(s, p);
    Number(s.backup, n);
    BackupOpens(s, BackupFile(s.backup, n)[|s.backup|]);
    Renames(s.names, BackupFile(s.backup, n), p);
    MatchesThere(s.names, BackupFile(s.backup, n), before[p].value);
  }

  lemma MatchesThere(names: Names, p: Path, o: Object)
    requires p in names && names[p] == o && o.File? && o.links == 1
    ensures Matches(names, p, o)
  {
  }

  lemma Renames(names: Names, from: Path, to: Path)
    requires from in names && to !in names && |to| > 0 && IsDir(names, Parent(to))
    ensures CanRename(names, from, to)
  {
  }

  lemma RestoredPath(s: State, before: Before, outputs: Names, metadata: Option<Object>, items: seq<Item>, p: Path)
    requires Arranged(s.frame, s.ground, before, outputs, metadata, items) && p in before && before[p].Some?
    ensures InScheme(s.frame.root, p) && p in s.ground.base && Matches(s.ground.base, p, before[p].value)
    ensures before[p].value == s.ground.base[p] && before[p].value.File? && before[p].value.links == 1
    ensures |p| > 0 && Covers(s.frame, Up(p)) && Tree(s.ground.base)
  {
    hide InScheme, MetadataKept, ItemPlanned, Shaped, Tree, Covers, KnownUp, Sources;
    assert p in before.Keys + Sources(items) + {MetadataPath(s.frame.root)};
  }

  // ------------------------------------------------------------- directories

  lemma ParentInBase(base: Names, q: Path, p: Path)
    requires Tree(base) && q in base && |q| > 0 && p !in base
    ensures Parent(q) != p
  {
  }

  lemma MadeBefore(root: Path, base: Names, created: seq<Path>, directories: Names, made: Names, q: Path)
    requires MadeLinked(root, base, created, directories, made) && |created| > 0 && q in made && |q| > 0
    ensures Parent(q) != created[|created| - 1]
  {
    hide PlannedDirectory;
    assert q in created;
    var j :| 0 <= j < |created| && created[j] == q;
  }

  /** Once the files are back, the last created directory is empty. */
  lemma NoChildLeft(s: State, created: seq<Path>)
    requires Sound(s) && Steady(s) && Tree(s.ground.base)
    requires MadeLinked(s.frame.root, s.ground.base, created, s.frame.directories, s.done.made)
    requires s.done.published == [] && s.done.metadata.None? && |created| > 0
    ensures !HasChild(s.names, created[|created| - 1])
  {
    hide Sound, Steady, MadeLinked, Tree, Prefix;
    var p := created[|created| - 1];
    LastMade(s.frame.root, s.ground.base, created, s.frame.directories, s.done.made);
    forall q | q in s.names && |q| > 0 ensures Parent(q) != p {
      WhereNow(s, q);
      if Prefix(s.backup, q) {
        ChildOfBackup(s, p, q);
      } else if q in s.done.made {
        MadeBefore(s.frame.root, s.ground.base, created, s.frame.directories, s.done.made, q);
      } else {
        ParentInBase(s.ground.base, q, p);
      }
    }
  }

  lemma LastMade(root: Path, base: Names, created: seq<Path>, directories: Names, made: Names)
    requires MadeLinked(root, base, created, directories, made) && |created| > 0
    ensures created[|created| - 1] in made && created[|created| - 1] !in base && |created[|created| - 1]| > 0
    ensures Within(root, created[|created| - 1])
  {
    hide PlannedDirectory;
    assert created[|created| - 1] in created;
    MadeNew(root, base, created, directories, made, created[|created| - 1]);
  }

  lemma WhereNow(s: State, q: Path)
    requires Sound(s) && Steady(s) && s.done.published == [] && s.done.metadata.None? && q in s.names
    ensures q in s.ground.base || Prefix(s.backup, q) || q in s.done.made
  {
    ExtraInBackup(s);
    hide Partitioned, FrameKept, LedgerKept, NextKept, Accounted, Tree, Originals, Consistent;
    OriginalsUnderBackup(s.ground, s.done);
  }

  lemma ChildOfBackup(s: State, p: Path, q: Path)
    requires Sound(s) && p in s.done.made && Prefix(s.backup, q) && |q| > 0
    ensures Parent(q) != p
  {
    hide FrameKept, LedgerKept, NextKept, Accounted, Tree, Kept, Live, Originals, World, Consistent;
    MadeIsLive(s, p);
    if |q| > |s.backup| {
      assert Parent(q)[..|s.backup|] == s.backup;
    }
  }

  function Unfrozen(f: Frame, p: Path): Frame {
    f.(directories := f.directories - {p}, absent := f.absent + {p})
  }

  lemma MadeInPlace(s: State, created: seq<Path>, p: Path)
    requires Sound(s) && Steady(s) && p in created
    requires MadeLinked(s.frame.root, s.ground.base, created, s.frame.directories, s.done.made)
    ensures p in s.frame.directories && p in s.names && s.names[p] == s.frame.directories[p] && s.names[p].Dir?
    ensures Up(p) in s.frame.directories && p in s.done.made
  {
    hide Sound, PlannedDirectory;
    assert SameDirectory(s.names, s.frame.directories, p);
  }

  /** The last created directory can be removed. */
  lemma ReadyToUnmake(s: State, created: seq<Path>, before: Before, outputs: Names, metadata: Option<Object>,
      items: seq<Item>)
    requires Sound(s) && Steady(s) && Arranged(s.frame, s.ground, before, outputs, metadata, items)
    requires MadeLinked(s.frame.root, s.ground.base, created, s.frame.directories, s.done.made)
    requires s.done.published == [] && s.done.metadata.None? && |created| > 0
    ensures var p := created[|created| - 1];
      && Tree(s.names) && p in s.names && p in s.frame.directories && s.names[p] == s.frame.directories[p]
      && s.names[p].Dir?
      && p in s.done.made && CanRemove(s.names, p) && ParentOpens(s.names, s.frame, p)
  {
    hide Sound, Identity, BeforeKept, MetadataKept, ItemPlanned, Shaped, CoversAll, Tree, Covers, ParentOpens, KnownUp;
    hide MadeLinked;
    var p := created[|created| - 1];
    TreeOf(s);
    MadeInPlace(s, created, p);
    LastMade(s.frame.root, s.ground.base, created, s.frame.directories, s.done.made);
    NoChildLeft(s, created);
    CoveredBy(s.frame, Up(p));
    OpensAt(s, p);
  }

  lemma UnmadeLinked(root: Path, base: Names, created: seq<Path>, directories: Names, absent: set<Path>, made: Names)
    requires MadeLinked(root, base, created, directories, made) && AbsentPlanned(root, base, absent, directories)
    requires |created| > 0
    ensures var n := |created| - 1; var p := created[n];
      && MadeLinked(root, base, created[..n], directories - {p}, made - {p})
      && AbsentPlanned(root, base, absent + {p}, directories - {p})
  {
    hide PlannedDirectory;
    var n := |created| - 1;
    var p := created[n];
    var less := created[..n];
    assert created == less + [p] && p in created;
    assert Elements(created) == Elements(less) + {p};
    forall q | q in less
      ensures q != p && Up(q) != p && q in created
    {
      var i :| 0 <= i < n && less[i] == q;
      assert created[i] == q;
    }
    assert (made - {p}).Keys == Elements(less);
  }

  lemma ArrangedUnfrozen(f: Frame, g: Ground, before: Before, outputs: Names, metadata: Option<Object>,
      items: seq<Item>, p: Path)
    requires Arranged(f, g, before, outputs, metadata, items) && p in f.directories
    ensures Arranged(Unfrozen(f, p), g, before, outputs, metadata, items)
  {
    hide Arranged;
    ArrangedSame(f, Unfrozen(f, p), g, before, outputs, metadata, items);
  }

  // ----------------------------------------------------------------- the end

  /** The recorded table is about the managed files. */
  ghost predicate CurrentDescribed(root: Path, before: Before, current: Files) {
    forall key :: key in current ==>
      && Final(root, current[key]).Some? && key == Key(current[key])
      && var p := Final(root, current[key]).value;
         p in before && before[p].Some? && HoldsBytes(before[p].value, current[key])
  }

  /** `checkBefore`, apart from the identity check. */
  predicate BeforeHolds(names: Names, root: Path, before: Before, metadata: Option<Object>) {
    && (forall p :: p in before ==> if before[p].Some? then Matches(names, p, before[p].value) else p !in names)
    && (if metadata.Some? then Matches(names, MetadataPath(root), metadata.value) else MetadataPath(root) !in names)
  }

  /** Everything has been undone. */
  ghost predicate Undone(done: Progress) {
    done.backed == [] && done.published == [] && done.made == map[] && done.metadata.None? && !done.metadataBacked
  }

  lemma BackWhereItWas(s: State)
    requires Sound(s) && Undone(s.done)
    ensures s.names == (s.ground.base - s.done.consumed) + s.extra
  {
    hide Partitioned, BackupKept, FrameKept, LedgerKept, NextKept, Accounted, Tree, Kept, Live, Originals, World;
    hide Consistent;
    NothingDone(s.ground, s.done, s.extra);
  }

  lemma NothingLiveOrMoved(s: State)
    requires Undone(s.done)
    ensures Live(s.ground, s.done) == map[] && Finals(s.done.backed) == {}
    ensures Kept(s.ground, s.done) == s.ground.base - s.done.consumed
  {
  }

  /** With everything undone the disk is what it was before, as far as the
      transaction can tell. */
  lemma AllRestored(s: State, before: Before, outputs: Names, metadata: Option<Object>, items: seq<Item>,
      current: Files)
    requires Sound(s) && Steady(s) && Undone(s.done) && SourcesApart(s.frame.root, s.done.consumed)
    requires Arranged(s.frame, s.ground, before, outputs, metadata, items)
    requires CurrentDescribed(s.frame.root, before, current)
    ensures BeforeHolds(s.names, s.frame.root, before, metadata)
    ensures VerifyState(s.names, s.frame.root, current)
  {
    hide Sound, Identity, ItemPlanned, Shaped, CoversAll, Tree, KnownUp, Live, Kept, InScheme, SourcesApart, Final;
    NothingLiveOrMoved(s);
    BackupOf(s);
    forall p | p in before
      ensures if before[p].Some? then Matches(s.names, p, before[p].value) else p !in s.names
    {
      SchemeApart(s.frame.root, s.backup, p);
      if before[p].Some? {
        OriginalInPlace(s, before, p);
      } else {
        VacantNow(s, p);
      }
    }
    MetadataBack(s, metadata);
  }

  lemma MetadataBack(s: State, metadata: Option<Object>)
    requires Sound(s) && Steady(s) && Undone(s.done) && SourcesApart(s.frame.root, s.done.consumed)
    requires MetadataKept(s.frame.root, s.ground.base, metadata)
    ensures if metadata.Some? then Matches(s.names, MetadataPath(s.frame.root), metadata.value)
      else MetadataPath(s.frame.root) !in s.names
  {
    hide Sound, Identity;
    var meta := MetadataPath(s.frame.root);
    NothingLiveOrMoved(s);
    BackupOf(s);
    MetadataApart(s.frame.root, s.backup);
    if metadata.Some? {
      WithinPrefix(s.frame.root, meta);
      PlacedOf(s);
      hide Live;
      KeptInPlace(s, meta);
    } else {
      VacantNow(s, meta);
    }
  }

  lemma PlacedOf(s: State)
    requires Sound(s)
    ensures Placed(s) && Partitioned(s)
  {
  }

  lemma UnfrozenIs(f: Frame, p: Path)
    ensures Unfrozen(f, p) == f.(directories := f.directories - {p}, absent := f.absent + {p})
  {
  }

  lemma SourcesOf(f: Frame, g: Ground, before: Before, outputs: Names, metadata: Option<Object>, items: seq<Item>,
      published: seq<Item>)
    requires Arranged(f, g, before, outputs, metadata, items) && (forall d :: d in published ==> d in items)
    ensures SourcesApart(f.root, Sources(published))
  {
    hide Tree, BeforeKept, MetadataKept, ItemPlanned, CoversAll, Shaped, KnownUp;
    SourcesOutside(f.root, g.base, before, outputs, items, published);
  }

  /** Removing the last created directory keeps everything in step. */
  lemma UnmadeAll(s: State, t: State, made: seq<Path>, before: Before, outputs: Names, metadata: Option<Object>,
      items: seq<Item>, p: Path)
    requires Sound(s) && Steady(s) && Arranged(s.frame, s.ground, before, outputs, metadata, items)
    requires MadeLinked(s.frame.root, s.ground.base, made, s.frame.directories, s.done.made)
    requires AbsentPlanned(s.frame.root, s.ground.base, s.frame.absent, s.frame.directories)
    requires s.done.published == [] && s.done.metadata.None? && |made| > 0 && made[|made| - 1] == p
    requires p in s.done.made && p in s.frame.directories && CanRemove(s.names, p) && s.names[p].Dir?
    requires t == s.(names := s.names - {p}, done := s.done.(made := s.done.made - {p}),
                     frame := s.frame.(directories := s.frame.directories - {p}, absent := s.frame.absent + {p}))
    ensures Sound(t) && Steady(t) && Arranged(t.frame, t.ground, before, outputs, metadata, items)
    ensures MadeLinked(t.frame.root, t.ground.base, made[..|made| - 1], t.frame.directories, t.done.made)
    ensures AbsentPlanned(t.frame.root, t.ground.base, t.frame.absent, t.frame.directories)
  {
    hide Sound, Steady, Arranged, MadeLinked, AbsentPlanned, CanRemove, Unfrozen;
    UnmadeLinked(s.frame.root, s.ground.base, made, s.frame.directories, s.frame.absent, s.done.made);
    ArrangedUnfrozen(s.frame, s.ground, before, outputs, metadata, items, p);
    UnfrozenIs(s.frame, p);
    DirectoryUnmade(s, t, p);
  }
}
