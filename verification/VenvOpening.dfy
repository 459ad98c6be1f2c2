/** The beginning of a commit: what a transaction starts from, and that the plan
    it has made holds when the backup directory has been made. */
module VenvOpening {
  import opened Wrappers
  import opened Records
  import opened FileSystem
  import opened Ownership
  import opened Frames
  import opened Layout
  import opened Geometry
  import opened VenvState
  import opened VenvPlan
  import opened VenvOutcome
  import opened VenvUndo
  import opened VenvPrepare

  ghost predicate NoBackup(names: Names, root: Path) {
    forall q :: q in names ==> !BackupPath(root, q)
  }

  /** `before` when nothing new has been planned: the files of the table. */
  ghost predicate BeforeStarts(names: Names, root: Path, current: Files, before: Before) {
    && (forall p :: p in before <==> exists key :: key in current && Final(root, current[key]) == Some(p))
    && (forall p :: p in before ==> before[p].Some? && Matches(names, p, before[p].value))
  }

  ghost predicate FrameStarts(names: Names, f: Frame) {
    && Identity(names, f) && KnownUp(f) && CoversFixed(f)
    && f.root in f.directories && [] in f.directories
    && SchemeRoot(f.root, "site").value in f.directories && SchemeRoot(f.root, "scripts").value in f.directories
    && f.absent <= FixedPaths(f.root)
    && LockPath(f.root) in names && names[LockPath(f.root)] == f.guard && f.guard.File? && f.guard.links == 1
  }

  /** What a transaction has when it has begun. */
  ghost predicate StartsFrom(names: Names, f: Frame, current: Files, before: Before, metadata: Option<Object>) {
    && Tree(names) && NoBackup(names, f.root) && FrameStarts(names, f)
    && ReadState(names, f.root) == Some(current) && VerifyState(names, f.root, current)
    && BeforeStarts(names, f.root, current, before) && MetadataKept(f.root, names, metadata)
    && forall p :: p in before ==> |p| > 0 && Covers(f, Up(p))
  }

  // ------------------------------------------------------------ the old table

  lemma StateEntries(names: Names, root: Path, current: Files)
    requires ReadState(names, root) == Some(current)
    ensures forall key :: key in current ==> ValidEntry(root, key, current[key])
    ensures KeyedFiles(root, current)
  {
    hide Final, ValidOwners;
  }

  lemma StartManaged(names: Names, root: Path, current: Files, before: Before)
    requires KeyedFiles(root, current) && BeforeStarts(names, root, current, before)
    ensures ManagedStart(names, root, current, before)
  {
    hide Final;
  }

  lemma StartDescribed(names: Names, root: Path, current: Files, start: Before, before: Before)
    requires KeyedFiles(root, current) && VerifyState(names, root, current) && BeforeStarts(names, root, current, start)
    requires forall p :: p in start ==> p in before && before[p] == start[p]
    ensures CurrentDescribed(root, before, current)
  {
    hide Final;
    forall key | key in current
      ensures var p := Final(root, current[key]).value;
        p in before && before[p].Some? && HoldsBytes(before[p].value, current[key])
    {
      var p := Final(root, current[key]).value;
      assert VerifiedEntry(names, root, key, current[key]);
      assert p in start;
    }
  }

  lemma StartHolds(names: Names, root: Path, current: Files, start: Before, before: Before, finals: set<Path>,
      metadata: Option<Object>)
    requires BeforeStarts(names, root, current, start) && BeforeGrew(names, start, before, finals)
    requires MetadataKept(root, names, metadata)
    ensures BeforeHolds(names, root, before, metadata)
  {
  }

  // ------------------------------------------------------------------ the plan

  /** Everything `prepare` has established. */
  ghost predicate Prepared(names: Names, first: Frame, f: Frame, current: Files, start: Before, before: Before,
      outputs: Names,
                           metadata: Option<Object>, ds: seq<Destination>) {
    && StartsFrom(names, first, current, start, metadata)
    && Admitted(names, first.root, current, start, before, outputs, ds)
    && AllBind(first.root, ds) && FrameReaches(first, f, Items(first.root, ds))
    && Identity(names, f) && Compatible(current, Owneds(ds))
  }

  ghost predicate SourcesPrivate(root: Path, ds: seq<Destination>) {
    forall d :: d in ds ==> Private(root, d.source)
  }

  lemma BeforePlanned(names: Names, root: Path, current: Files, start: Before, before: Before, finals: set<Path>)
    requires KeyedFiles(root, current) && BeforeStarts(names, root, current, start)
    requires BeforeGrew(names, start, before, finals)
    requires forall p :: p in finals ==> InScheme(root, p)
    ensures BeforeKept(root, names, before)
  {
    hide Final, InScheme;
    forall p | p in before
      ensures InScheme(root, p) && (if before[p].Some? then Matches(names, p, before[p].value) else p !in names)
    {
      if p in start {
        var key :| key in current && Final(root, current[key]) == Some(p);
        FinalInSomeScheme(root, current[key]);
      }
    }
  }

  lemma FinalsInScheme(root: Path, ds: seq<Destination>)
    requires AllBind(root, ds)
    ensures forall d :: d in Items(root, ds) ==> InScheme(root, d.final)
    ensures forall p :: p in Finals(Items(root, ds)) ==> InScheme(root, p)
  {
    hide InScheme;
    forall d | d in Items(root, ds) ensures InScheme(root, d.final) {
      var i :| 0 <= i < |ds| && Items(root, ds)[i] == d;
      BindIsFinal(root, ds[i]);
      FinalInSomeScheme(root, ds[i].owned);
    }
  }

  /** The outputs are files with the recorded bytes, at their sources. */
  lemma OutputsPlanned(names: Names, root: Path, current: Files, outputs: Names, ds: seq<Destination>, d: Item)
    requires AllBind(root, ds) && AllAdmissible(names, root, current, ds)
    requires OutputsTaken(names, outputs, Items(root, ds))
    requires SourcesPrivate(root, ds) && d in Items(root, ds)
    ensures d.final in outputs && Matches(names, d.source, outputs[d.final]) && Private(root, d.source)
    ensures HoldsBytes(outputs[d.final], d.owned) && Final(root, d.owned) == Some(d.final)
    ensures d.owned in Owneds(ds)
  {
    hide Final, Freezable, ValidOwners;
    var i :| 0 <= i < |ds| && Items(root, ds)[i] == d;
    assert Admissible(names, root, current, ds[i]);
    assert ds[i] in ds;
    BindIsFinal(root, ds[i]);
    assert Owneds(ds)[i] == d.owned;
  }

  lemma AbsentShape(names: Names, first: Frame, f: Frame, items: seq<Item>, q: Path)
    requires Tree(names) && FrameStarts(names, first) && FrameReaches(first, f, items)
    requires forall d :: d in items ==> d.source in names && names[d.source].File? && |d.final| > 0
    requires Known(f, q) && q !in names
    ensures q in FixedPaths(f.root) || exists d :: d in items && Within(q, d.final)
  {
    hide FixedPaths, Tree, KnownUp, CoversFixed;
    if Known(first, q) {
      IdentityTrue(names, first);
      KnownTrue(names, first, q);
    } else {
      var d :| d in items && (Prefix(q, Up(d.source)) || Prefix(q, Up(d.final)));
      if Prefix(q, Up(d.source)) {
        AboveSource(names, d.source, q);
      } else {
        AboveFinal(d.final, q);
      }
    }
  }

  lemma AboveSource(names: Names, p: Path, q: Path)
    requires Tree(names) && p in names && names[p].File? && Prefix(q, Up(p))
    ensures q in names
  {
    assert p != [];
    assert q == Up(p)[..|q|] == p[..|q|];
    AncestorIsDir(names, p, |q|);
  }

  lemma AboveFinal(p: Path, q: Path)
    requires |p| > 0 && Prefix(q, Up(p))
    ensures Within(q, p)
  {
    assert Up(p)[..|q|] == p[..|q|];
  }

  /** A fixed root or a directory above a destination that is not there is one
      the transaction may make. */
  lemma AbsentIsPlanned(names: Names, first: Frame, q: Path, final: Path)
    requires Tree(names) && FrameStarts(names, first) && q !in names
    requires q in FixedPaths(first.root) || (Within(q, final) && InScheme(first.root, final))
    ensures PlannedDirectory(first.root, names, q)
  {
    var root := first.root;
    IdentityTrue(names, first);
    assert SameDirectory(names, first.directories, root);
    assert SameDirectory(names, first.directories, SchemeRoot(root, "site").value);
    assert SameDirectory(names, first.directories, SchemeRoot(root, "scripts").value);
    hide Identity, KnownUp, CoversFixed;
    if q in FixedPaths(root) {
      FixedPlanned(names, root, q);
    } else {
      SchemePlanned(names, root, q, final);
    }
  }

  lemma FixedPlanned(names: Names, root: Path, q: Path)
    requires root in names && SchemeRoot(root, "site").value in names && SchemeRoot(root, "scripts").value in names
    requires q in FixedPaths(root) && q !in names
    ensures PlannedDirectory(root, names, q)
  {
    assert q == SchemeRoot(root, "data").value || q == SchemeRoot(root, "headers").value || q == MetadataDir(root);
    assert q[..|root|] == root;
    assert |q| == |root| + 1;
  }

  lemma SchemePlanned(names: Names, root: Path, q: Path, final: Path)
    requires Tree(names) && root in names && SchemeRoot(root, "site").value in names
    requires SchemeRoot(root, "scripts").value in names
    requires q !in names && Within(q, final) && InScheme(root, final)
    ensures PlannedDirectory(root, names, q)
  {
    if Within(SchemeRoot(root, "site").value, final) {
      BelowScheme(names, SchemeRoot(root, "site").value, q, final);
    } else if Within(SchemeRoot(root, "scripts").value, final) {
      BelowScheme(names, SchemeRoot(root, "scripts").value, q, final);
    } else if Within(SchemeRoot(root, "data").value, final) {
      BelowOptional(names, root, "share", q, final);
    } else {
      BelowOptional(names, root, "include", q, final);
    }
    hide Tree;
    PlaceableInside(root, q);
  }

  lemma BelowScheme(names: Names, scheme: Path, q: Path, final: Path)
    requires Tree(names) && scheme in names && q !in names && Within(q, final) && Within(scheme, final)
    ensures Prefix(scheme, q)
  {
    if |q| < |scheme| {
      assert scheme[..|q|] == final[..|scheme|][..|q|] == q;
      AncestorIsDir(names, scheme, |q|);
    } else {
      assert q[..|scheme|] == final[..|q|][..|scheme|] == scheme;
    }
  }

  lemma BelowOptional(names: Names, root: Path, name: string, q: Path, final: Path)
    requires Tree(names) && root in names && q !in names && Within(q, final) && Within(root + [name], final)
    ensures Prefix(root + [name], q)
  {
    var scheme := root + [name];
    if |q| <= |root| {
      assert final[..|root|] == final[..|scheme|][..|root|] == root;
      assert final[..|root|][..|q|] == final[..|q|];
      if |q| < |root| {
        AncestorIsDir(names, root, |q|);
      }
    } else {
      assert q[..|scheme|] == final[..|q|][..|scheme|] == scheme;
    }
  }

  lemma PlaceableInside(root: Path, q: Path)
    requires Placeable(root, q) && q != MetadataDir(root)
    ensures Within(root, q) && q != MetadataPath(root)
  {
    assert q[..|root|] == root;
    assert q[|root|] == "lib" || q[|root|] == "bin" || q[|root|] == "share" || q[|root|] == "include";
    assert MetadataPath(root)[|root|] == ".heliopause";
  }

  // ------------------------------------------------------- the first directory

  /** The transaction with its backup directory, and nothing done. */
  function Opened(names: Names, backup: Path, made: Object, f: Frame, outputs: Names): State {
    State(names[backup := made], f, backup, Ground(names, backup, MetadataPath(f.root), outputs),
          NOTHING_DONE, map[backup := made], false, None, [], None, false)
  }

  const NOTHING_DONE := Progress([], [], map[], false, None, {})

  /** `f` with the backup directory frozen as well. */
  ghost predicate BackupFrozen(names: Names, f: Frame, g: Frame, backup: Path, made: Object) {
    Froze(f, g, backup) && FrameTrue(names[backup := made], g) && Covers(g, backup)
  }

  lemma BackupIsNew(names: Names, root: Path, backup: Path)
    requires Tree(names) && NoBackup(names, root) && BackupPath(root, backup)
    ensures backup !in names && forall q :: q in names ==> !Prefix(backup, q)
  {
    forall q | q in names ensures !Prefix(backup, q) {
      assert q[..|q|] == q;
      if Prefix(backup, q) && |backup| < |q| {
        AncestorIsDir(names, q, |backup|);
      }
    }
  }

  /** Freezing the backup directory adds nothing else. */
  lemma OnlyBackup(f: Frame, g: Frame, backup: Path)
    requires Froze(f, g, backup) && Covers(f, f.root) && BackupPath(f.root, backup)
    ensures forall q :: Known(g, q) ==> Known(f, q) || q == backup
  {
    forall q | Known(g, q) && !Known(f, q) ensures q == backup {
      AboveBackup(f.root, backup, q);
    }
  }

  lemma AboveBackup(root: Path, backup: Path, q: Path)
    requires BackupPath(root, backup) && Prefix(q, backup)
    ensures q == backup || (|q| <= |root| && q == root[..|q|])
  {
    assert backup[..|backup|] == backup;
    if |q| <= |root| {
      assert backup[..|root|][..|q|] == backup[..|q|];
    }
  }

  lemma IdentityOpened(names: Names, f: Frame, g: Frame, backup: Path, made: Object)
    requires Identity(names, f) && BackupPath(f.root, backup) && backup !in names
    requires FrameTrue(names[backup := made], g) && g.root == f.root && g.guard == f.guard && g.config == f.config
    ensures Identity(names[backup := made], g)
  {
    BackupOrdinary(f.root, backup);
  }

  lemma BackupInFrame(names: Names, f: Frame, g: Frame, backup: Path, made: Object)
    requires BackupFrozen(names, f, g, backup, made) && made.Dir?
    ensures backup in g.directories && g.directories[backup] == made
    ensures g.root == f.root && g.guard == f.guard && g.config == f.config
  {
    assert backup[..|backup|] == backup;
    KnownTrue(names[backup := made], g, backup);
    assert SameDirectory(names[backup := made], g.directories, backup);
  }

  lemma FrameOpened(names: Names, first: Frame, f: Frame, items: seq<Item>, g: Frame, backup: Path, made: Object)
    requires FrameStarts(names, first) && FrameReaches(first, f, items) && Identity(names, f)
    requires BackupPath(first.root, backup) && BackupFrozen(names, f, g, backup, made) && made.Dir? && backup !in names
    ensures backup in g.directories && g.directories[backup] == made
    ensures g.root == first.root && g.guard == first.guard && g.config == first.config
    ensures first.root in g.directories && [] in g.directories
    ensures forall q :: Known(g, q) ==> Known(f, q) || q == backup
    ensures Identity(names[backup := made], g)
    ensures KnownUp(g) && CoversFixed(g)
  {
    hide Identity, FrameTrue, KnownUp, Covers, FixedPaths, BackupPath;
    RootKnown(names, first, f, items);
    BackupInFrame(names, f, g, backup, made);
    OnlyBackup(f, g, backup);
    IdentityOpened(names, f, g, backup, made);
    KnownUpFroze(f, g, backup);
  }

  lemma BackupOrdinary(root: Path, backup: Path)
    requires BackupPath(root, backup)
    ensures Ordinary(root, backup) && Prefix(backup, backup)
  {
    BackupApart(root, backup, backup);
  }

  lemma RootKnown(names: Names, first: Frame, f: Frame, items: seq<Item>)
    requires FrameStarts(names, first) && FrameReaches(first, f, items)
    ensures Covers(f, first.root) && CoversFixed(f) && first.root in f.directories && [] in f.directories
  {
    CoveredBy(f, first.root);
  }

  // --------------------------------------------------------- the opening state

  lemma OpenedPlaced(names: Names, backup: Path, made: Object, f: Frame, outputs: Names)
    requires backup !in names && MetadataPath(f.root) != backup
    ensures Placed(Opened(names, backup, made, f, outputs))
    ensures Kept(Opened(names, backup, made, f, outputs).ground, NOTHING_DONE) == names
    ensures Live(Opened(names, backup, made, f, outputs).ground, NOTHING_DONE) == map[]
  {
    var s := Opened(names, backup, made, f, outputs);
    assert Kept(s.ground, s.done) == names;
    assert Live(s.ground, s.done) == map[];
    assert Originals(s.ground, s.done) == map[];
  }

  ghost predicate AbsentApart(f: Frame, backup: Path) {
    forall q :: q in f.absent ==> !Prefix(backup, q)
  }

  lemma OpenedSound(names: Names, backup: Path, made: Object, f: Frame, outputs: Names)
    requires Tree(names) && backup !in names && (forall q :: q in names ==> !Prefix(backup, q))
    requires BackupPath(f.root, backup) && made.Dir? && IsDir(names, f.root)
    requires Identity(names[backup := made], f) && KnownUp(f) && CoversFixed(f)
    requires backup in f.directories && f.directories[backup] == made && f.root in f.directories && [] in f.directories
    requires AbsentApart(f, backup)
    requires LockPath(f.root) in names && names[LockPath(f.root)] == f.guard && f.guard.File? && f.guard.links == 1
    ensures Sound(Opened(names, backup, made, f, outputs))
  {
    hide *;
    BackupOrdinary(f.root, backup);
    MetadataNotPrefix(f.root, backup);
    OpenedPlaced(names, backup, made, f, outputs);
    OpenedFrame(f, backup);
    BackupParent(f.root, backup);
    OpenedTree(names, f.root, backup, made);
    OpenedKept(names, backup, made, f, outputs);
    OpenedPartitioned(names, backup, made, f, outputs);
    OpenedAll(names, backup, made, f, outputs);
  }

  lemma MetadataNotPrefix(root: Path, backup: Path)
    requires BackupPath(root, backup)
    ensures MetadataPath(root) != backup
  {
    MetadataApart(root, backup);
    BackupOrdinary(root, backup);
  }

  lemma OpenedKept(names: Names, backup: Path, made: Object, f: Frame, outputs: Names)
    requires BackupPath(f.root, backup) && backup in f.directories && f.directories[backup] == made && made.Dir?
    requires LockPath(f.root) in names && names[LockPath(f.root)] == f.guard && f.guard.File? && f.guard.links == 1
    ensures BackupKept(Opened(names, backup, made, f, outputs))
  {
    hide BackupPath, LockPath;
  }

  lemma OpenedPartitioned(names: Names, backup: Path, made: Object, f: Frame, outputs: Names)
    requires (forall q :: q in names ==> !Prefix(backup, q)) && Prefix(backup, backup)
    requires Kept(Opened(names, backup, made, f, outputs).ground, NOTHING_DONE) == names
    requires Live(Opened(names, backup, made, f, outputs).ground, NOTHING_DONE) == map[]
    ensures Partitioned(Opened(names, backup, made, f, outputs))
  {
    hide Kept, Live, Prefix;
  }

  lemma OpenedAll(names: Names, backup: Path, made: Object, f: Frame, outputs: Names)
    requires Tree(names[backup := made]) && FrameKept(f, backup)
    requires var s := Opened(names, backup, made, f, outputs); Placed(s) && Partitioned(s) && BackupKept(s)
    ensures Sound(Opened(names, backup, made, f, outputs))
  {
    hide Tree, FrameKept, Placed, Partitioned, BackupKept, LedgerPath, NextMetadataPath;
  }

  lemma OpenedFrame(f: Frame, backup: Path)
    requires KnownUp(f) && CoversFixed(f) && backup in f.directories && f.root in f.directories && [] in f.directories
    requires AbsentApart(f, backup)
    ensures FrameKept(f, backup)
  {
    CoveredBy(f, backup);
  }

  lemma BackupParent(root: Path, backup: Path)
    requires BackupPath(root, backup)
    ensures |backup| > 0 && Parent(backup) == root
  {
  }

  lemma OpenedTree(names: Names, root: Path, backup: Path, made: Object)
    requires Tree(names) && |backup| > 0 && Parent(backup) == root && IsDir(names, root) && backup !in names
    requires made.Dir?
    ensures Tree(names[backup := made])
  {
  }

  /** `ItemPlanned` and the like for the sorted destinations. */
  lemma ItemsPlanned(names: Names, first: Frame, f: Frame, current: Files, start: Before, before: Before,
      outputs: Names,
                     metadata: Option<Object>, ds: seq<Destination>, d: Item)
    requires Prepared(names, first, f, current, start, before, outputs, metadata, ds) && SourcesPrivate(first.root, ds)
    requires d in Items(first.root, ds)
    ensures ItemPlanned(first.root, names, before, outputs, d)
    ensures HoldsBytes(outputs[d.final], d.owned) && Final(first.root, d.owned) == Some(d.final)
    ensures d.owned in Owneds(ds) && d.source in names && names[d.source].File? && |d.final| > 0
    ensures Covers(f, Up(d.source)) && Covers(f, Up(d.final))
  {
    hide StartsFrom, Identity, Compatible, AllAdmissible, InScheme, BindsApart, Items, SourcesPrivate, HoldsBytes;
    hide Final, KnownUp;
    OutputsPlanned(names, first.root, current, outputs, ds, d);
    FinalsInScheme(first.root, ds);
    InSchemeLong(first.root, d.final);
    assert d.final in Finals(Items(first.root, ds));
  }

  lemma InSchemeLong(root: Path, p: Path)
    requires InScheme(root, p)
    ensures |p| > 0
  {
  }

  lemma OpenedShape(names: Names, first: Frame, f: Frame, items: seq<Item>, g: Frame, backup: Path, q: Path)
    requires Tree(names) && FrameStarts(names, first) && FrameReaches(first, f, items) && g.root == first.root
    requires forall d :: d in items ==> d.source in names && names[d.source].File? && |d.final| > 0
    requires forall r :: Known(g, r) ==> Known(f, r) || r == backup
    requires Known(g, q) && q !in names && q != backup
    ensures q in FixedPaths(g.root) || exists d :: d in items && Within(q, d.final)
  {
    hide FrameStarts, FrameReaches, FixedPaths, Tree;
    FrameRoot(first, f, items);
    AbsentShape(names, first, f, items, q);
  }

  lemma FrameRoot(first: Frame, f: Frame, items: seq<Item>)
    requires FrameReaches(first, f, items)
    ensures f.root == first.root
  {
  }

  /** What may be made is neither in the backup directory nor there already. */
  lemma OpenedAbsent(names: Names, first: Frame, f: Frame, items: seq<Item>, g: Frame, backup: Path, made: Object)
    requires Tree(names) && FrameStarts(names, first) && FrameReaches(first, f, items) && g.root == first.root
    requires forall d ::
      d in items ==> d.source in names && names[d.source].File? && |d.final| > 0 && InScheme(first.root, d.final)
    requires forall r :: Known(g, r) ==> Known(f, r) || r == backup
    requires Identity(names[backup := made], g) && BackupPath(first.root, backup)
    ensures AbsentApart(g, backup)
    ensures AbsentPlanned(first.root, names, g.absent, g.directories)
  {
    IdentityTrue(names[backup := made], g);
    DirectoriesThere(names[backup := made], g);
    hide FrameStarts, FrameReaches, Tree, Identity, BackupPath, FixedPaths, PlannedDirectory, InScheme, FrameTrue;
    forall q | q in g.absent
      ensures !Prefix(backup, q) && PlannedDirectory(first.root, names, q) && q !in g.directories
    {
      assert q !in names && q != backup;
      assert Known(g, q);
      OpenedShape(names, first, f, items, g, backup, q);
      if q in FixedPaths(g.root) {
        AbsentIsPlanned(names, first, q, q);
        if Prefix(backup, q) {
          BackupApart(first.root, backup, q);
        }
      } else {
        var d :| d in items && Within(q, d.final);
        AbsentIsPlanned(names, first, q, d.final);
        SchemeApart(first.root, backup, d.final);
        WithinPrefix(q, d.final);
        if Prefix(backup, q) {
          PrefixTransitive(backup, q, d.final);
        }
      }
    }
  }

  lemma DirectoriesThere(names: Names, g: Frame)
    requires FrameTrue(names, g)
    ensures forall q :: q in g.directories ==> q in names
    ensures forall q :: q in g.absent ==> q !in names
  {
    forall q | q in g.directories ensures q in names {
      assert SameDirectory(names, g.directories, q);
    }
  }

  lemma ItemCovers(names: Names, first: Frame, f: Frame, g: Frame, current: Files, start: Before, before: Before,
      outputs: Names,
                   metadata: Option<Object>, ds: seq<Destination>, backup: Path, d: Item)
    requires Prepared(names, first, f, current, start, before, outputs, metadata, ds) && SourcesPrivate(first.root, ds)
    requires Froze(f, g, backup) && d in Items(first.root, ds)
    ensures |d.final| > 0 && Covers(g, Up(d.final)) && |d.source| > 0 && Covers(g, Up(d.source))
  {
    PreparedTree(names, first, f, current, start, before, outputs, metadata, ds);
    hide Prepared, Items, SourcesPrivate, Covers, Froze, ItemPlanned, Final, HoldsBytes, Tree;
    ItemsPlanned(names, first, f, current, start, before, outputs, metadata, ds, d);
    SourceNotRoot(names, d.source);
    FrozeCovers(f, g, backup, Up(d.final));
    FrozeCovers(f, g, backup, Up(d.source));
  }

  lemma PreparedTree(names: Names, first: Frame, f: Frame, current: Files, start: Before, before: Before,
      outputs: Names,
                     metadata: Option<Object>, ds: seq<Destination>)
    requires Prepared(names, first, f, current, start, before, outputs, metadata, ds)
    ensures Tree(names) && f.root == first.root && AllBind(first.root, ds)
    ensures before.Keys == start.Keys + Finals(Items(first.root, ds))
  {
    hide Identity, Compatible, AllAdmissible, OutputsTaken, BindsApart, Items, KnownUp, Covers, Final;
  }

  lemma PathCovered(names: Names, first: Frame, f: Frame, g: Frame, current: Files, start: Before, before: Before,
      outputs: Names,
                    metadata: Option<Object>, ds: seq<Destination>, backup: Path, p: Path)
    requires Prepared(names, first, f, current, start, before, outputs, metadata, ds) && SourcesPrivate(first.root, ds)
    requires Froze(f, g, backup) && KnownUp(g) && CoversFixed(g)
    requires p in start || p in Finals(Items(first.root, ds)) || p in Sources(Items(first.root, ds)) ||
      p == MetadataPath(g.root)
    ensures |p| > 0 && Covers(g, Up(p))
  {
    PreparedTree(names, first, f, current, start, before, outputs, metadata, ds);
    hide Prepared, Items, SourcesPrivate, KnownUp, CoversFixed, Covers, Froze, MetadataPath, AllBind;
    if p == MetadataPath(g.root) {
      MetadataDirCovered(g);
    } else if p in start {
      StartItemCovers(names, first, f, g, current, start, before, outputs, metadata, ds, backup, p);
    } else if p in Finals(Items(first.root, ds)) {
      var d :| d in Items(first.root, ds) && d.final == p;
      ItemCovers(names, first, f, g, current, start, before, outputs, metadata, ds, backup, d);
    } else {
      var d :| d in Items(first.root, ds) && d.source == p;
      ItemCovers(names, first, f, g, current, start, before, outputs, metadata, ds, backup, d);
    }
  }

  lemma OpenedCovers(names: Names, first: Frame, f: Frame, g: Frame, current: Files, start: Before, before: Before,
      outputs: Names,
                     metadata: Option<Object>, ds: seq<Destination>, backup: Path)
    requires Prepared(names, first, f, current, start, before, outputs, metadata, ds) && SourcesPrivate(first.root, ds)
    requires Froze(f, g, backup) && KnownUp(g) && CoversFixed(g)
    ensures CoversAll(g, before.Keys + Sources(Items(first.root, ds)) + {MetadataPath(g.root)})
  {
    hide Prepared, Items, SourcesPrivate, KnownUp, CoversFixed, Covers, Froze, MetadataPath, AllBind, Finals, Sources;
    hide Tree;
    PreparedTree(names, first, f, current, start, before, outputs, metadata, ds);
    ghost var items := Items(first.root, ds);
    forall p | p in before.Keys + Sources(items) + {MetadataPath(g.root)}
      ensures |p| > 0 && Covers(g, Up(p))
    {
      PathCovered(names, first, f, g, current, start, before, outputs, metadata, ds, backup, p);
    }
  }

  lemma StartItemCovers(names: Names, first: Frame, f: Frame, g: Frame, current: Files, start: Before, before: Before,
      outputs: Names,
                        metadata: Option<Object>, ds: seq<Destination>, backup: Path, p: Path)
    requires Prepared(names, first, f, current, start, before, outputs, metadata, ds)
    requires Froze(f, g, backup) && p in start
    ensures |p| > 0 && Covers(g, Up(p))
  {
    hide Identity, Admitted, Compatible, Items, Covers, Froze, FrameReaches, StartsFrom;
    StartCovers(names, first, current, start, metadata, p);
    ReachesCovers(first, f, Items(first.root, ds), Up(p));
    FrozeCovers(f, g, backup, Up(p));
  }

  lemma SourceNotRoot(names: Names, p: Path)
    requires Tree(names) && p in names && names[p].File?
    ensures |p| > 0
  {
  }

  lemma MetadataDirCovered(g: Frame)
    requires KnownUp(g) && CoversFixed(g)
    ensures |MetadataPath(g.root)| > 0 && Covers(g, Up(MetadataPath(g.root)))
  {
    assert Up(MetadataPath(g.root)) == MetadataDir(g.root);
    CoveredBy(g, MetadataDir(g.root));
  }

  lemma StartCovers(names: Names, first: Frame, current: Files, start: Before, metadata: Option<Object>, p: Path)
    requires StartsFrom(names, first, current, start, metadata) && p in start
    ensures |p| > 0 && Covers(first, Up(p))
  {
  }

  lemma ReachesCovers(first: Frame, f: Frame, items: seq<Item>, p: Path)
    requires FrameReaches(first, f, items) && Covers(first, p)
    ensures Covers(f, p)
  {
    CoversGrow(first, f, p);
  }

  // ---------------------------------------------------------- what is settled

  /** Destinations at distinct paths have distinct keys. */
  lemma KeyOfItem(root: Path, ds: seq<Destination>, news: seq<Owned>, d: Item, e: Owned)
    requires AllBind(root, ds) && BindsApart(root, ds) && news == Owneds(ds)
    requires d in Items(root, ds) && e in news && Key(e) == Key(d.owned)
    ensures e == d.owned
  {
    hide Final, Bind;
    var i :| 0 <= i < |ds| && Items(root, ds)[i] == d;
    var j :| 0 <= j < |ds| && news[j] == e;
    BindIsFinal(root, ds[i]);
    BindIsFinal(root, ds[j]);
    SameKeySameFinal(root, ds[i].owned, ds[j].owned);
    assert Bind(root, ds[i]) == Bind(root, ds[j]);
    ItemsApart(root, ds);
    assert Items(root, ds)[i].final == Items(root, ds)[j].final;
  }

  lemma OwnedHasItem(root: Path, ds: seq<Destination>, e: Owned)
    requires AllBind(root, ds) && e in Owneds(ds)
    ensures exists d :: d in Items(root, ds) && d.owned == e
  {
    hide Bind;
    var i :| 0 <= i < |ds| && Owneds(ds)[i] == e;
    assert Items(root, ds)[i] in Items(root, ds);
  }

  lemma DesiredNew(current: Files, news: seq<Owned>, key: string)
    ensures key in NewFiles(news) ==>
      key in Desired(current, news) && Desired(current, news)[key] == NewFiles(news)[key]
    ensures key in Desired(current, news) && key !in NewFiles(news) ==>
      key in current && Desired(current, news)[key] == current[key] && !Replaced(news, current[key])
  {
    hide NewFiles, Replaced;
  }

  lemma ItemInTable(root: Path, ds: seq<Destination>, current: Files, d: Item)
    requires AllBind(root, ds) && BindsApart(root, ds) && d in Items(root, ds) && d.owned in Owneds(ds)
    ensures var desired := Desired(current, Owneds(ds));
      Key(d.owned) in desired && desired[Key(d.owned)] == d.owned && Key(d.owned) in NewFiles(Owneds(ds))
  {
    hide Bind, Items, Desired, NewFiles, Owneds;
    NewFilesEntries(Owneds(ds));
    DesiredNew(current, Owneds(ds), Key(d.owned));
    KeyOfItem(root, ds, Owneds(ds), d, NewFiles(Owneds(ds))[Key(d.owned)]);
  }

  lemma EntryOfItem(root: Path, outputs: Names, d: Item, key: string)
    requires d.final in outputs && HoldsBytes(outputs[d.final], d.owned) && Final(root, d.owned) == Some(d.final)
    requires ValidOwners(d.owned) && key == Key(d.owned)
    ensures ValidEntry(root, key, d.owned)
  {
  }

  lemma TableEntry(names: Names, first: Frame, f: Frame, current: Files, start: Before, before: Before, outputs: Names,
                   metadata: Option<Object>, ds: seq<Destination>, key: string)
    requires Prepared(names, first, f, current, start, before, outputs, metadata, ds) && SourcesPrivate(first.root, ds)
    requires CurrentDescribed(first.root, before, current) && key in Desired(current, Owneds(ds))
    requires AllBind(first.root, ds)
    ensures RowDescribed(first.root, before, Items(first.root, ds), key, Desired(current, Owneds(ds))[key])
  {
    hide *;
    var root := first.root;
    var news := Owneds(ds);
    PreparedParts(names, first, f, current, start, before, outputs, metadata, ds);
    NewFilesEntries(news);
    DesiredNew(current, news, key);
    if key in NewFiles(news) {
      var e := NewFiles(news)[key];
      OwnedHasItem(root, ds, e);
      var d :| d in Items(root, ds) && d.owned == e;
      ItemsPlanned(names, first, f, current, start, before, outputs, metadata, ds, d);
      ItemFinalTaken(root, names, before, outputs, d);
      EntryOfItem(root, outputs, d, key);
      NewRow(root, before, Items(root, ds), key, d);
    } else {
      StateEntries(names, root, current);
      OldEntry(root, before, current, key);
      OldRow(root, before, Items(root, ds), key, current[key]);
    }
  }

  lemma NewRow(root: Path, before: Before, items: seq<Item>, key: string, d: Item)
    requires d in items && ValidEntry(root, key, d.owned)
    ensures RowDescribed(root, before, items, key, d.owned)
  {
  }

  lemma OldRow(root: Path, before: Before, items: seq<Item>, key: string, d: Owned)
    requires ValidEntry(root, key, d) && Final(root, d).Some?
    requires var p := Final(root, d).value; p in before && before[p].Some? && HoldsBytes(before[p].value, d)
    ensures RowDescribed(root, before, items, key, d)
  {
  }

  lemma ItemFinalTaken(root: Path, names: Names, before: Before, outputs: Names, d: Item)
    requires ItemPlanned(root, names, before, outputs, d)
    ensures d.final in outputs && d.final in before
  {
  }

  lemma OldEntry(root: Path, before: Before, current: Files, key: string)
    requires CurrentDescribed(root, before, current) && key in current
    ensures Final(root, current[key]).Some?
    ensures var p := Final(root, current[key]).value;
      && p in before && before[p].Some?
      && HoldsBytes(before[p].value, current[key])
  {
    hide Final, HoldsBytes;
  }

  lemma PreparedParts(names: Names, first: Frame, f: Frame, current: Files, start: Before, before: Before,
      outputs: Names,
                      metadata: Option<Object>, ds: seq<Destination>)
    requires Prepared(names, first, f, current, start, before, outputs, metadata, ds)
    ensures AllBind(first.root, ds) && BindsApart(first.root, ds)
    ensures ReadState(names, first.root) == Some(current) && KeyedFiles(first.root, current)
    ensures forall e :: e in Owneds(ds) ==> ValidOwners(e)
    ensures ManagedStart(names, first.root, current, start)
    ensures BeforeStarts(names, first.root, current, start) && VerifyState(names, first.root, current)
    ensures BeforeGrew(names, start, before, Finals(Items(first.root, ds)))
    ensures AllAdmissible(names, first.root, current, ds)
  {
    hide Identity, Compatible, Items, Final, ValidOwners, FrameReaches, FrameStarts, Tree, VerifyState, Bind;
    hide BeforeStarts, ReadState, Owneds, KeyedFiles;
    StateEntries(names, first.root, current);
    StartManaged(names, first.root, current, start);
    AdmittedOwners(names, first.root, current, start, before, outputs, ds);
  }

  lemma ObsoleteAreManaged(root: Path, before: Before, current: Files, news: seq<Owned>, obsolete: seq<Item>)
    requires CurrentDescribed(root, before, current) && ObsoleteItems(root, current, news, current.Keys, obsolete)
    ensures ObsoleteManaged(before, obsolete)
  {
    hide Final, HoldsBytes, Replaced, NewFiles;
    forall d | d in obsolete ensures d.final in before && before[d.final].Some? {
      OldEntry(root, before, current, Key(d.owned));
    }
  }

  lemma OpenedSettled(names: Names, first: Frame, f: Frame, current: Files, start: Before, before: Before,
      outputs: Names,
                      metadata: Option<Object>, ds: seq<Destination>, obsolete: seq<Item>)
    requires Prepared(names, first, f, current, start, before, outputs, metadata, ds) && SourcesPrivate(first.root, ds)
    requires ObsoleteItems(first.root, current, Owneds(ds), current.Keys, obsolete)
    requires AllBind(first.root, ds)
    ensures CurrentDescribed(first.root, before, current)
    ensures Settled(first.root, before, outputs, Desired(current, Owneds(ds)), Sorted(Items(first.root, ds)),
      Sorted(obsolete))
  {
    hide *;
    var root := first.root;
    var items := Items(root, ds);
    var desired := Desired(current, Owneds(ds));
    PreparedParts(names, first, f, current, start, before, outputs, metadata, ds);
    GrewKeeps(names, start, before, Finals(items));
    StartDescribed(names, root, current, start, before);
    ObsoleteAreManaged(root, before, current, Owneds(ds), obsolete);
    SortedSame(items);
    SortedSame(obsolete);
    forall d | d in Sorted(items)
      ensures d.final in outputs && HoldsBytes(outputs[d.final], d.owned) && Final(root, d.owned) == Some(d.final)
        && Key(d.owned) in desired && desired[Key(d.owned)] == d.owned
    {
      ItemsPlanned(names, first, f, current, start, before, outputs, metadata, ds, d);
      ItemFinalTaken(root, names, before, outputs, d);
      ItemInTable(root, ds, current, d);
    }
    forall key | key in desired
      ensures RowDescribed(root, before, Sorted(items), key, desired[key])
    {
      TableEntry(names, first, f, current, start, before, outputs, metadata, ds, key);
      RowSame(root, before, items, Sorted(items), key, desired[key]);
    }
    SettledFrom(root, before, outputs, desired, Sorted(items), obsolete, Sorted(obsolete));
  }

  lemma GrewKeeps(names: Names, start: Before, before: Before, finals: set<Path>)
    requires BeforeGrew(names, start, before, finals)
    ensures forall p :: p in start ==> p in before && before[p] == start[p]
  {
  }

  lemma RowSame(root: Path, before: Before, a: seq<Item>, b: seq<Item>, key: string, d: Owned)
    requires RowDescribed(root, before, a, key, d) && forall e :: e in b <==> e in a
    ensures RowDescribed(root, before, b, key, d)
  {
    hide ValidEntry;
    assert Installs(a, d) ==> Installs(b, d);
  }

  lemma SettledFrom(root: Path, before: Before, outputs: Names, desired: Files, items: seq<Item>, obsolete: seq<Item>,
      sorted: seq<Item>)
    requires forall d :: d in items ==>
      && d.final in outputs && HoldsBytes(outputs[d.final], d.owned) && Final(root, d.owned) == Some(d.final)
      && Key(d.owned) in desired && desired[Key(d.owned)] == d.owned
    requires forall key :: key in desired ==> RowDescribed(root, before, items, key, desired[key])
    requires ObsoleteManaged(before, obsolete) && forall d :: d in sorted <==> d in obsolete
    ensures Settled(root, before, outputs, desired, items, sorted)
  {
    hide RowDescribed, Final, HoldsBytes;
  }

  lemma OpenedArranged(names: Names, first: Frame, f: Frame, g: Frame, current: Files, start: Before, before: Before,
      outputs: Names,
                       metadata: Option<Object>, ds: seq<Destination>, backup: Path)
    requires Prepared(names, first, f, current, start, before, outputs, metadata, ds) && SourcesPrivate(first.root, ds)
    requires AllBind(first.root, ds) && g.root == first.root && Froze(f, g, backup) && KnownUp(g) && CoversFixed(g)
    requires forall q :: Known(g, q) ==> Known(f, q) || q == backup
    ensures Arranged(g, Ground(names, backup, MetadataPath(g.root), outputs), before, outputs, metadata,
      Sorted(Items(first.root, ds)))
  {
    hide *;
    var root := first.root;
    var items := Items(root, ds);
    PreparedParts(names, first, f, current, start, before, outputs, metadata, ds);
    PreparedStart(names, first, f, current, start, before, outputs, metadata, ds);
    FinalsInScheme(root, ds);
    BeforePlanned(names, root, current, start, before, Finals(items));
    OpenedCovers(names, first, f, g, current, start, before, outputs, metadata, ds, backup);
    SortedSame(items);
    forall d | d in items
      ensures ItemPlanned(root, names, before, outputs, d) && d.source in names && names[d.source].File?
      ensures |d.final| > 0
    {
      ItemsPlanned(names, first, f, current, start, before, outputs, metadata, ds, d);
    }
    forall q | Known(g, q) && q !in names && q != backup
      ensures q in FixedPaths(root) || exists d :: d in Sorted(items) && Within(q, d.final)
    {
      OpenedShape(names, first, f, items, g, backup, q);
      if q !in FixedPaths(root) {
        var d :| d in items && Within(q, d.final);
        assert d in Sorted(items);
      }
    }
    ArrangedFrom(g, Ground(names, backup, MetadataPath(g.root), outputs), before, outputs, metadata, Sorted(items));
  }

  lemma PreparedStart(names: Names, first: Frame, f: Frame, current: Files, start: Before, before: Before,
      outputs: Names,
                      metadata: Option<Object>, ds: seq<Destination>)
    requires Prepared(names, first, f, current, start, before, outputs, metadata, ds)
    ensures Tree(names) && FrameStarts(names, first) && FrameReaches(first, f, Items(first.root, ds))
    ensures MetadataKept(first.root, names, metadata)
    ensures NoBackup(names, first.root) && Identity(names, f)
  {
    hide Identity, Compatible, Items, FrameReaches, FrameStarts, Tree, VerifyState, BeforeStarts, ReadState, Admitted;
  }

  lemma ArrangedFrom(f: Frame, g: Ground, before: Before, outputs: Names, metadata: Option<Object>, items: seq<Item>)
    requires Tree(g.base) && g.outputs == outputs && BeforeKept(f.root, g.base, before)
    requires MetadataKept(f.root, g.base, metadata)
    requires forall d :: d in items ==> ItemPlanned(f.root, g.base, before, outputs, d)
    requires CoversAll(f, before.Keys + Sources(items) + {MetadataPath(f.root)}) && KnownUp(f)
    requires forall q :: Known(f, q) && q !in g.base && q != g.backup ==>
      q in FixedPaths(f.root) || exists d :: d in items && Within(q, d.final)
    ensures Arranged(f, g, before, outputs, metadata, items)
  {
    hide Tree, BeforeKept, MetadataKept, ItemPlanned, CoversAll, KnownUp;
  }

  /** What the two halves of `prepare` accept, together. */
  lemma BothAccept(names: Names, root: Path, current: Files, ds: seq<Destination>, projects: map<string, string>)
    requires AllAdmissible(names, root, current, ds) && BindsApart(root, ds) && |ds| > 0
    requires ProjectsOf(projects, Owneds(ds)) && forall e :: e in Owneds(ds) ==> ValidOwners(e)
    requires forall key :: key in current ==> Settles(Owneds(ds), NewFiles(Owneds(ds)), key, current[key])
    ensures Compatible(current, Owneds(ds)) && Acceptable(names, root, current, ds)
  {
    hide Admissible, ValidOwners, NewFiles, Replaced, Untouched, SameVersion, ProjectsOf;
    ProjectsAreUpdated(projects, Owneds(ds));
  }

  lemma EmptyRefused(names: Names, root: Path, current: Files, ds: seq<Destination>)
    requires |ds| == 0
    ensures !Acceptable(names, root, current, ds)
  {
  }

  lemma OldRefused(names: Names, root: Path, current: Files, ds: seq<Destination>)
    requires exists key :: key in current && !Settles(Owneds(ds), NewFiles(Owneds(ds)), key, current[key])
    ensures !Acceptable(names, root, current, ds)
  {
    hide Admissible, ValidOwners, NewFiles, Replaced, Untouched, SameVersion;
  }

  lemma StartParts(names: Names, f: Frame, current: Files, before: Before, metadata: Option<Object>)
    requires StartsFrom(names, f, current, before, metadata)
    ensures Tree(names) && Identity(names, f) && KnownUp(f)
    ensures KeyedFiles(f.root, current) && ManagedStart(names, f.root, current, before)
    ensures BeforeStarts(names, f.root, current, before) && MetadataKept(f.root, names, metadata)
  {
    hide Identity, KnownUp, Tree, Final, BeforeStarts, MetadataKept, ReadState, VerifyState, KeyedFiles;
    StateEntries(names, f.root, current);
    StartManaged(names, f.root, current, before);
  }

  lemma AdmittedParts(names: Names, root: Path, current: Files, start: Before, before: Before, outputs: Names,
      ds: seq<Destination>)
    requires Admitted(names, root, current, start, before, outputs, ds)
    ensures AllAdmissible(names, root, current, ds) && BindsApart(root, ds) && AllBind(root, ds)
    ensures BeforeGrew(names, start, before, Finals(Items(root, ds))) && forall e :: e in Owneds(ds) ==> ValidOwners(e)
  {
    AdmittedOwners(names, root, current, start, before, outputs, ds);
  }

  lemma PreparedFrom(names: Names, first: Frame, f: Frame, current: Files, start: Before, before: Before,
      outputs: Names,
                     metadata: Option<Object>, ds: seq<Destination>)
    requires StartsFrom(names, first, current, start, metadata)
    requires Admitted(names, first.root, current, start, before, outputs, ds)
    requires AllBind(first.root, ds) && FrameReaches(first, f, Items(first.root, ds))
    requires Identity(names, f) && Compatible(current, Owneds(ds))
    ensures Prepared(names, first, f, current, start, before, outputs, metadata, ds)
  {
  }

  lemma StartLock(names: Names, first: Frame)
    requires FrameStarts(names, first) && Tree(names)
    ensures LockPath(first.root) in names && names[LockPath(first.root)] == first.guard && first.guard.File?
    ensures first.guard.links == 1
    ensures IsDir(names, first.root)
  {
    assert SameDirectory(names, first.directories, first.root);
  }

  /** With the backup directory made and frozen, the plan stands. */
  lemma OpenedWell(names: Names, first: Frame, f: Frame, g: Frame, current: Files, start: Before, before: Before,
      outputs: Names,
                   metadata: Option<Object>, ds: seq<Destination>, backup: Path, made: Object)
    requires Prepared(names, first, f, current, start, before, outputs, metadata, ds) && SourcesPrivate(first.root, ds)
    requires AllBind(first.root, ds) && BackupFrozen(names, f, g, backup, made) && made.Dir?
    requires BackupPath(first.root, backup)
    ensures g.root == first.root && Sound(Opened(names, backup, made, g, outputs)) && Identity(names[backup := made], g)
    ensures AbsentPlanned(g.root, names, g.absent, g.directories)
    ensures Arranged(g, Ground(names, backup, MetadataPath(g.root), outputs), before, outputs, metadata,
      Sorted(Items(first.root, ds)))
  {
    hide *;
    var items := Items(first.root, ds);
    PreparedStart(names, first, f, current, start, before, outputs, metadata, ds);
    BackupIsNew(names, first.root, backup);
    FrameOpened(names, first, f, items, g, backup, made);
    FinalsInScheme(first.root, ds);
    forall d | d in items
      ensures d.source in names && names[d.source].File? && |d.final| > 0 && InScheme(first.root, d.final)
    {
      ItemsPlanned(names, first, f, current, start, before, outputs, metadata, ds, d);
    }
    OpenedAbsent(names, first, f, items, g, backup, made);
    StartLock(names, first);
    OpenedSound(names, backup, made, g, outputs);
    FrozenOf(names, f, g, backup, made);
    OpenedArranged(names, first, f, g, current, start, before, outputs, metadata, ds, backup);
  }

  lemma FrozenOf(names: Names, f: Frame, g: Frame, backup: Path, made: Object)
    requires BackupFrozen(names, f, g, backup, made)
    ensures Froze(f, g, backup)
  {
  }

  lemma NothingMade(root: Path, base: Names, directories: Names)
    ensures MadeLinked(root, base, [], directories, map[])
  {
  }

  lemma SomethingDesired(current: Files, news: seq<Owned>)
    requires |news| > 0
    ensures |Desired(current, news)| > 0
  {
    NewFilesEntries(news);
    hide NewFiles, Replaced;
    assert Key(news[0]) in NewFiles(news);
    assert Key(news[0]) in Desired(current, news);
  }

  lemma TempName(root: Path, suffix: string)
    ensures BackupPath(root, root + [COMMIT_PREFIX + suffix])
  {
  }

  ghost predicate NoBackupPlanned(root: Path, absent: set<Path>) {
    forall q :: q in absent ==> !BackupPath(root, q)
  }

  lemma StillTrue(names: Names, f: Frame, backup: Path, made: Object)
    requires FrameTrue(names, f) && backup !in names && backup !in f.absent
    ensures FrameTrue(names[backup := made], f)
  {
    forall q | q in f.directories ensures SameDirectory(names[backup := made], f.directories, q) {
      assert SameDirectory(names, f.directories, q);
    }
  }

  lemma OpenFreezable(names: Names, p: Path)
    requires Tree(names) && IsDir(names, p)
    ensures Freezable(names, p)
  {
    forall k | 0 <= k <= |p| && p[..k] in names ensures names[p[..k]].Dir? {
      if k < |p| {
        AncestorIsDir(names, p, k);
      } else {
        assert p[..k] == p;
      }
    }
  }

  /** The backup directory is never among the directories to make. */
  lemma BackupNotPlanned(names: Names, first: Frame, f: Frame, current: Files, start: Before, before: Before,
      outputs: Names,
                         metadata: Option<Object>, ds: seq<Destination>)
    requires Prepared(names, first, f, current, start, before, outputs, metadata, ds) && SourcesPrivate(first.root, ds)
    ensures NoBackupPlanned(first.root, f.absent)
  {
    hide *;
    PreparedTree(names, first, f, current, start, before, outputs, metadata, ds);
    PreparedStart(names, first, f, current, start, before, outputs, metadata, ds);
    var items := Items(first.root, ds);
    FinalsInScheme(first.root, ds);
    IdentityTrue(names, f);
    DirectoriesThere(names, f);
    forall d | d in items
      ensures d.source in names && names[d.source].File? && |d.final| > 0 && InScheme(first.root, d.final)
    {
      ItemsPlanned(names, first, f, current, start, before, outputs, metadata, ds, d);
    }
    forall q | q in f.absent ensures !BackupPath(first.root, q) {
      AbsentKnown(f, q);
      AbsentShape(names, first, f, items, q);
      if q in FixedPaths(first.root) {
        FixedNotBackup(first.root, q);
      } else {
        var d :| d in items && Within(q, d.final);
        AboveNotBackup(first.root, q, d.final);
      }
    }
    PlannedMeans(first.root, f.absent);
  }

  lemma PlannedMeans(root: Path, absent: set<Path>)
    requires forall q :: q in absent ==> !BackupPath(root, q)
    ensures NoBackupPlanned(root, absent)
  {
  }

  lemma AbsentKnown(f: Frame, q: Path)
    requires q in f.absent
    ensures Known(f, q)
  {
  }

  lemma FixedNotBackup(root: Path, q: Path)
    requires q in FixedPaths(root)
    ensures !BackupPath(root, q)
  {
    if BackupPath(root, q) {
      BackupOrdinary(root, q);
      BackupApart(root, q, q);
    }
  }

  lemma AboveNotBackup(root: Path, q: Path, final: Path)
    requires Within(q, final) && InScheme(root, final)
    ensures !BackupPath(root, q)
  {
    if BackupPath(root, q) {
      SchemeApart(root, q, final);
      WithinPrefix(q, final);
    }
  }

  lemma SomethingWanted(names: Names, first: Frame, f: Frame, current: Files, start: Before, before: Before,
      outputs: Names,
                        metadata: Option<Object>, ds: seq<Destination>)
    requires Prepared(names, first, f, current, start, before, outputs, metadata, ds)
    ensures |Desired(current, Owneds(ds))| > 0
  {
    hide Identity, StartsFrom, Admitted, FrameReaches, Items, Replaced, Untouched, NewFiles, ValidOwners, Desired;
    SomethingDesired(current, Owneds(ds));
  }

  lemma StartNoBackup(names: Names, root: Path)
    requires NoBackup(names, root) && Tree(names)
    ensures forall p, q :: BackupPath(root, p) && q in names ==> !Prefix(p, q)
  {
    forall p | BackupPath(root, p) ensures forall q :: q in names ==> !Prefix(p, q) {
      BackupIsNew(names, root, p);
    }
  }

  // ------------------------------------------------------------------ beginning

  function FixedList(root: Path): seq<Path> {
    [root, SchemeRoot(root, "site").value, SchemeRoot(root, "scripts").value,
     SchemeRoot(root, "data").value, SchemeRoot(root, "headers").value, MetadataDir(root)]
  }

  predicate DirIfThere(names: Names, p: Path) {
    p in names ==> names[p].Dir?
  }

  /** The directories of a virtual environment that can be worked on. */
  predicate Laid(names: Names, root: Path) {
    && IsDir(names, root) && IsDir(names, SchemeRoot(root, "site").value)
    && IsDir(names, SchemeRoot(root, "scripts").value)
    && DirIfThere(names, SchemeRoot(root, "data").value) && DirIfThere(names, SchemeRoot(root, "headers").value)
  }

  /** What `begin` accepts once it holds the lock. */
  predicate Startable(names: Names, root: Path) {
    && Laid(names, root) && DirIfThere(names, MetadataDir(root)) && SingleLinkFile(names, ConfigPath(root))
    && (forall q :: q in names ==> !BackupPath(root, q))
    && ReadState(names, root).Some? && VerifyState(names, root, ReadState(names, root).value)
  }

  lemma FixedListed(root: Path)
    ensures forall q :: q in FixedPaths(root) <==> q in FixedList(root)
    ensures |FixedList(root)| == 6
  {
  }

  lemma FixedChild(names: Names, root: Path, p: Path)
    requires Laid(names, root) && p in FixedPaths(root) && p !in names
    ensures |p| == |root| + 1 && Parent(p) == root && IsDir(names, root)
  {
    assert p == root + [p[|root|]];
  }

  lemma AboveThere(names: Names, p: Path, q: Path)
    requires Tree(names) && p in names && Prefix(q, p) && |q| < |p|
    ensures IsDir(names, q)
  {
    AncestorIsDir(names, p, |q|);
  }

  /** A path above a fixed root is there, or is the root itself. */
  lemma AboveFixed(names: Names, root: Path, p: Path, q: Path)
    requires Tree(names) && Laid(names, root) && p in FixedPaths(root) && Prefix(q, p)
    ensures q == p || IsDir(names, q)
  {
    hide FixedPaths, Laid, Tree;
    assert p[..|p|] == p;
    if |q| < |p| {
      if p in names {
        AboveThere(names, p, q);
      } else {
        FixedChild(names, root, p);
        assert p[..|root|][..|q|] == p[..|q|];
        if |q| < |root| {
          AboveThere(names, root, q);
        } else {
          assert q == root;
        }
      }
    }
  }

  lemma FixedFreezable(names: Names, root: Path, p: Path)
    requires Tree(names) && p in FixedPaths(root) && Laid(names, root) && DirIfThere(names, p)
    ensures Freezable(names, p)
  {
    hide FixedPaths, Laid, Tree;
    forall k | 0 <= k <= |p| && p[..k] in names ensures names[p[..k]].Dir? {
      AboveFixed(names, root, p, p[..k]);
    }
  }

  lemma FixedDirs(names: Names, root: Path, p: Path)
    requires Laid(names, root) && DirIfThere(names, MetadataDir(root)) && p in FixedPaths(root)
    ensures DirIfThere(names, p)
  {
  }

  lemma NotStartable(names: Names, root: Path, p: Path)
    requires Tree(names) && p in FixedPaths(root) && !Freezable(names, p)
    ensures !Startable(names, root)
  {
    if Startable(names, root) {
      hide Freezable, ReadState, VerifyState, BackupPath, FixedPaths, Laid, Tree;
      FixedDirs(names, root, p);
      FixedFreezable(names, root, p);
    }
  }

  /** The first `k` fixed roots are frozen. */
  ghost predicate FixedUpTo(names: Names, f: Frame, k: nat) {
    && FrameTrue(names, f) && KnownUp(f) && f.absent <= FixedPaths(f.root)
    && forall j :: 0 <= j < k && j < 6 ==> Covers(f, FixedList(f.root)[j])
  }

  lemma FixedMore(names: Names, f: Frame, g: Frame, k: nat)
    requires FixedUpTo(names, f, k) && k < 6 && Tree(names) && Laid(names, f.root)
    requires FrameTrue(names, g) && Froze(f, g, FixedList(f.root)[k]) && Covers(g, FixedList(f.root)[k])
    ensures FixedUpTo(names, g, k + 1)
  {
    var root := f.root;
    var p := FixedList(root)[k];
    FixedListed(root);
    assert p in FixedList(root);
    hide FixedPaths, FixedList, Laid, Tree, FrameTrue;
    KnownUpFroze(f, g, p);
    forall q | q in g.absent ensures q in FixedPaths(root) {
      KnownTrue(names, g, q);
      if q !in f.absent {
        NotKnownBefore(names, f, g, p, q);
        AboveFixed(names, root, p, q);
      }
    }
    forall j | 0 <= j < k + 1 && j < 6 ensures Covers(g, FixedList(root)[j]) {
      if j < k {
        FrozeCovers(f, g, p, FixedList(root)[j]);
      }
    }
  }

  lemma NotKnownBefore(names: Names, f: Frame, g: Frame, p: Path, q: Path)
    requires FrameTrue(names, f) && FrameTrue(names, g) && Froze(f, g, p) && q in g.absent && q !in f.absent
    ensures Prefix(q, p) && q !in names
  {
    DirectoriesThere(names, f);
    DirectoriesThere(names, g);
    assert Known(g, q);
  }

  /** The lock and the configuration are as recorded. */
  ghost predicate Held(names: Names, f: Frame) {
    && GuardHeld(names, f) && Matches(names, ConfigPath(f.root), f.config)
    && LockPath(f.root) in names && names[LockPath(f.root)] == f.guard && f.guard.File? && f.guard.links == 1
  }

  lemma AllFixed(names: Names, f: Frame)
    requires FixedUpTo(names, f, 6) && Laid(names, f.root) && Tree(names) && Held(names, f)
    ensures FrameStarts(names, f)
  {
    hide Tree, KnownUp, Matches, FixedPaths, SchemeRoot, Covers, GuardHeld;
    FixedKnown(names, f);
    SchemesFrozen(names, f);
  }

  lemma FixedKnown(names: Names, f: Frame)
    requires FixedUpTo(names, f, 6)
    ensures CoversFixed(f) && Covers(f, f.root) && FrameTrue(names, f)
  {
    FixedListed(f.root);
    assert FixedList(f.root)[0] == f.root;
    forall q | q in FixedPaths(f.root) ensures Known(f, q) {
      assert q in FixedList(f.root);
      var j :| 0 <= j < 6 && FixedList(f.root)[j] == q;
      assert q[..|q|] == q;
    }
  }

  lemma SchemesFrozen(names: Names, f: Frame)
    requires CoversFixed(f) && Covers(f, f.root) && FrameTrue(names, f) && Laid(names, f.root) && Tree(names)
    ensures f.root in f.directories && [] in f.directories
    ensures SchemeRoot(f.root, "site").value in f.directories && SchemeRoot(f.root, "scripts").value in f.directories
  {
    hide Tree, FrameTrue;
    KnownTrue(names, f, f.root);
    KnownTrue(names, f, SchemeRoot(f.root, "site").value);
    KnownTrue(names, f, SchemeRoot(f.root, "scripts").value);
    RootFrozen(names, f, f.root);
  }

  lemma RootFrozen(names: Names, f: Frame, p: Path)
    requires FrameTrue(names, f) && Tree(names) && Covers(f, p)
    ensures [] in f.directories
  {
    assert p[..0] == [];
    KnownTrue(names, f, []);
  }

  // --------------------------------------------------- the files of the table

  ghost predicate PathsOf(root: Path, current: Files, keys: set<string>, before: Before) {
    forall p :: p in before <==> exists key :: key in keys && key in current && Final(root, current[key]) == Some(p)
  }

  ghost predicate AsFound(names: Names, before: Before) {
    forall p :: p in before ==> before[p].Some? && Matches(names, p, before[p].value)
  }

  ghost predicate ParentsFrozen(f: Frame, before: Before) {
    forall p :: p in before ==> |p| > 0 && Covers(f, Up(p))
  }

  /** The files looked at so far. */
  ghost predicate StartUpTo(names: Names, f: Frame, current: Files, before: Before, keys: set<string>) {
    && FrameStarts(names, f) && PathsOf(f.root, current, keys, before) && AsFound(names, before)
    && ParentsFrozen(f, before)
  }

  lemma PathsMore(root: Path, current: Files, keys: set<string>, before: Before, key: string, o: Option<Object>)
    requires PathsOf(root, current, keys, before) && key in current && Final(root, current[key]).Some?
    ensures PathsOf(root, current, keys + {key}, before[Final(root, current[key]).value := o])
  {
    hide Final;
    var more := before[Final(root, current[key]).value := o];
    forall p
      ensures p in more <==> exists k :: k in keys + {key} && k in current && Final(root, current[k]) == Some(p) {
      if p in before {
        var k :| k in keys && k in current && Final(root, current[k]) == Some(p);
        assert k in keys + {key};
      } else if p in more {
        assert key in keys + {key};
      }
    }
  }

  lemma ParentsMore(f: Frame, g: Frame, before: Before, p: Path, o: Option<Object>)
    requires ParentsFrozen(f, before) && Froze(f, g, Up(p)) && |p| > 0 && Covers(g, Up(p))
    ensures ParentsFrozen(g, before[p := o])
  {
    hide Froze, Covers;
    forall q | q in before ensures Covers(g, Up(q)) {
      FrozeCovers(f, g, Up(p), Up(q));
    }
  }

  lemma FoundMore(names: Names, before: Before, p: Path)
    requires AsFound(names, before) && SingleLinkFile(names, p)
    ensures AsFound(names, before[p := Some(names[p])])
  {
  }

  lemma StartMore(names: Names, f: Frame, g: Frame, current: Files, before: Before, keys: set<string>, key: string,
      p: Path)
    requires StartUpTo(names, f, current, before, keys) && Tree(names) && key in current
    requires Final(f.root, current[key]) == Some(p) && SingleLinkFile(names, p)
    requires FrameTrue(names, g) && Froze(f, g, Up(p)) && Covers(g, Up(p))
    ensures StartUpTo(names, g, current, before[p := Some(names[p])], keys + {key})
  {
    hide *;
    FileThere(names, p);
    StartUpToParts(names, f, current, before, keys);
    SourceNotRoot(names, p);
    StartFrameMore(names, f, g, p);
    PathsMore(f.root, current, keys, before, key, Some(names[p]));
    ParentsMore(f, g, before, p, Some(names[p]));
    FoundMore(names, before, p);
    FrozeFixed(f, g, Up(p));
    StartUpToFrom(names, g, current, before[p := Some(names[p])], keys + {key});
  }

  lemma FileThere(names: Names, p: Path)
    requires SingleLinkFile(names, p)
    ensures p in names && names[p].File?
  {
  }

  lemma StartUpToParts(names: Names, f: Frame, current: Files, before: Before, keys: set<string>)
    requires StartUpTo(names, f, current, before, keys)
    ensures FrameStarts(names, f) && PathsOf(f.root, current, keys, before) && AsFound(names, before)
    ensures ParentsFrozen(f, before)
  {
  }

  lemma StartUpToFrom(names: Names, f: Frame, current: Files, before: Before, keys: set<string>)
    requires FrameStarts(names, f) && PathsOf(f.root, current, keys, before) && AsFound(names, before)
    requires ParentsFrozen(f, before)
    ensures StartUpTo(names, f, current, before, keys)
  {
  }

  /** Freezing above a file that is there adds only directories that are there. */
  lemma StartFrameMore(names: Names, f: Frame, g: Frame, p: Path)
    requires FrameStarts(names, f) && Tree(names) && p in names && |p| > 0
    requires FrameTrue(names, g) && Froze(f, g, Up(p)) && Covers(g, Up(p))
    ensures FrameStarts(names, g)
  {
    IdentityTrue(names, f);
    FrozeFixed(f, g, Up(p));
    IdentityExtended(names, f, g);
    KnownUpFroze(f, g, Up(p));
    CoversFixedMore(f, g, Up(p));
    hide Identity, KnownUp, CoversFixed, FixedPaths, Tree, FrameTrue;
    forall q | q in g.absent ensures q in f.absent {
      if q !in f.absent {
        NotKnownBefore(names, f, g, Up(p), q);
        ParentThere(names, p);
        PrefixThere(names, Up(p), q);
      }
    }
  }

  lemma ParentThere(names: Names, p: Path)
    requires Tree(names) && p in names && |p| > 0
    ensures Up(p) in names
  {
  }

  lemma PrefixThere(names: Names, p: Path, q: Path)
    requires Tree(names) && p in names && Prefix(q, p)
    ensures q in names
  {
    assert p[..|p|] == p;
    if |q| < |p| {
      AboveThere(names, p, q);
    }
  }

  lemma CoversFixedMore(f: Frame, g: Frame, p: Path)
    requires CoversFixed(f) && Froze(f, g, p)
    ensures CoversFixed(g)
  {
    hide FixedPaths;
    forall q | Known(f, q) ensures Known(g, q) {
    }
  }

  lemma BeforeAll(names: Names, root: Path, current: Files, before: Before)
    requires PathsOf(root, current, current.Keys, before) && AsFound(names, before)
    ensures BeforeStarts(names, root, current, before)
  {
    hide Final, Matches;
  }

  lemma StartedFrom(names: Names, f: Frame, current: Files, before: Before, metadata: Option<Object>)
    requires StartUpTo(names, f, current, before, current.Keys) && Tree(names) && NoBackup(names, f.root)
    requires ReadState(names, f.root) == Some(current) && VerifyState(names, f.root, current)
    requires MetadataKept(f.root, names, metadata)
    ensures StartsFrom(names, f, current, before, metadata)
  {
    hide Tree, FrameStarts, Laid, BackupPath, BeforeStarts, PathsOf, AsFound, ReadState, VerifyState, MetadataKept;
    hide Covers;
    BeforeAll(names, f.root, current, before);
  }

  lemma NothingFixed(names: Names, f: Frame)
    requires f.directories == map[] && f.absent == {}
    ensures FixedUpTo(names, f, 0)
  {
  }

  lemma NothingStarted(names: Names, f: Frame, current: Files)
    requires FrameStarts(names, f)
    ensures StartUpTo(names, f, current, map[], {})
  {
  }

  /** Every file the table names is a file, so its parents can be frozen. */
  lemma VerifiedFile(names: Names, root: Path, current: Files, key: string)
    requires VerifyState(names, root, current) && key in current && Tree(names)
    ensures Final(root, current[key]).Some?
    ensures var p := Final(root, current[key]).value;
      && SingleLinkFile(names, p) && p in names && names[p].File?
      && Freezable(names, Up(p))
  {
    hide Final, Tree;
    assert VerifiedEntry(names, root, key, current[key]);
    SourceFreezable(names, Final(root, current[key]).value);
  }

  lemma MetadataFound(names: Names, root: Path)
    requires ReadState(names, root).Some?
    ensures var meta := MetadataPath(root); meta in names ==> SingleLinkFile(names, meta)
  {
    hide Final, ValidOwners;
  }

  lemma StartHeld(names: Names, f: Frame)
    requires FrameStarts(names, f)
    ensures FrameTrue(names, f) && KnownUp(f)
  {
    IdentityTrue(names, f);
  }

  lemma FixedTrue(names: Names, f: Frame, k: nat)
    requires FixedUpTo(names, f, k)
    ensures FrameTrue(names, f)
  {
  }

  lemma LockParent(root: Path)
    ensures |LockPath(root)| > 0 && Parent(LockPath(root)) == root
  {
  }

  lemma AddThenRemove(names: Names, p: Path, made: Object)
    requires p !in names
    ensures names[p := made] - {p} == names
  {
  }

  lemma StartableRoot(names: Names, root: Path)
    ensures Startable(names, root) ==> IsDir(names, root)
  {
    hide ReadState, VerifyState, BackupPath;
  }

  lemma LookedAt(names: Names, f: Frame)
    requires Laid(names, f.root) && SingleLinkFile(names, ConfigPath(f.root)) && NoBackup(names, f.root)
    requires FixedUpTo(names, f, 6)
    requires ReadState(names, f.root).Some? && VerifyState(names, f.root, ReadState(names, f.root).value)
    ensures Startable(names, f.root)
  {
    FixedListed(f.root);
    assert FixedList(f.root)[5] == MetadataDir(f.root);
    var p := MetadataDir(f.root);
    assert p[..|p|] == p;
    KnownTrue(names, f, p);
    hide ReadState, VerifyState, BackupPath, Laid;
  }
}
