/** What `prepare` fixes before the first mutation, and why every step of a
    commit finds the disk as the plan says. */
module VenvPlan {
  import opened Wrappers
  import opened Records
  import opened FileSystem
  import opened Ownership
  import opened Frames
  import opened Areas
  import opened Layout
  import opened Geometry
  import opened VenvState

  type Before = map<Path, Option<Object>>

  /** `before` holds what is at the managed paths, and that nothing is at the
      other destinations. */
  ghost predicate BeforeKept(root: Path, base: Names, before: Before) {
    forall p :: p in before ==>
      InScheme(root, p) && (if before[p].Some? then Matches(base, p, before[p].value) else p !in base)
  }

  ghost predicate MetadataKept(root: Path, base: Names, metadata: Option<Object>) {
    if metadata.Some? then Matches(base, MetadataPath(root), metadata.value) else MetadataPath(root) !in base
  }

  ghost predicate ItemPlanned(root: Path, base: Names, before: Before, outputs: Names, d: Item) {
    && d.final in before && d.final in outputs && InScheme(root, d.final)
    && Matches(base, d.source, outputs[d.final]) && Private(root, d.source)
  }

  /** `freezeParents` has been at the parents of all these paths. */
  ghost predicate CoversAll(f: Frame, paths: set<Path>) {
    forall p :: p in paths ==> |p| > 0 && Covers(f, Up(p))
  }

  /** A known directory that was not there is a fixed root, above a destination,
      or the backup directory. */
  ghost predicate Shaped(f: Frame, base: Names, backup: Path, items: seq<Item>) {
    forall q :: Known(f, q) && q !in base && q != backup ==>
      q in FixedPaths(f.root) || exists d :: d in items && Within(q, d.final)
  }

  /** Whoever freezes a path freezes everything above it. */
  ghost predicate KnownUp(f: Frame) {
    forall q :: Known(f, q) ==> Known(f, Up(q))
  }

  ghost predicate Arranged(f: Frame, g: Ground, before: Before, outputs: Names, metadata: Option<Object>,
      items: seq<Item>) {
    && Tree(g.base) && g.outputs == outputs
    && BeforeKept(f.root, g.base, before) && MetadataKept(f.root, g.base, metadata)
    && (forall d :: d in items ==> ItemPlanned(f.root, g.base, before, outputs, d))
    && CoversAll(f, before.Keys + Sources(items) + {MetadataPath(f.root)})
    && Shaped(f, g.base, g.backup, items) && KnownUp(f)
  }

  /** No destination lies below another one. */
  ghost predicate PrefixFree(items: seq<Item>) {
    forall d, e :: d in items && e in items ==> !Within(d.final, e.final)
  }

  /** No destination lies below this one. */
  ghost predicate Loose(items: seq<Item>, d: Item) {
    forall e :: e in items ==> !Within(d.final, e.final)
  }

  /** A file has been put where a directory is planned. */
  ghost predicate Knotted(items: seq<Item>, published: seq<Item>) {
    exists d :: d in published && !Loose(items, d)
  }

  lemma KnottedMore(items: seq<Item>, published: seq<Item>, d: Item)
    ensures Knotted(items, published + [d]) <==> Knotted(items, published) || !Loose(items, d)
  {
    hide Loose;
    if e :| e in published && !Loose(items, e) {
      assert e in published + [d];
    }
    if !Loose(items, d) {
      assert d in published + [d];
    }
  }

  /** A destination comes before those that lie below it. */
  ghost predicate Climbing(items: seq<Item>) {
    forall j, k :: 0 <= j < k < |items| ==> !Within(items[k].final, items[j].final)
  }

  lemma FreeIsLoose(items: seq<Item>, published: seq<Item>)
    requires forall d :: d in published ==> d in items
    ensures PrefixFree(items) ==> !Knotted(items, published)
    ensures Knotted(items, items) <==> !PrefixFree(items)
  {
  }

  ghost predicate DistinctSources(items: seq<Item>) {
    forall i, j :: 0 <= i < j < |items| ==> items[i].source != items[j].source
  }

  /** The plan only depends on which directories are known. */
  lemma ArrangedSame(f: Frame, f': Frame, g: Ground, before: Before, outputs: Names, metadata: Option<Object>,
      items: seq<Item>)
    requires Arranged(f, g, before, outputs, metadata, items)
    requires f'.root == f.root && forall q :: Known(f, q) <==> Known(f', q)
    ensures Arranged(f', g, before, outputs, metadata, items)
  {
    hide BeforeKept, MetadataKept, ItemPlanned, Tree, CoversAll, Shaped, KnownUp, Known, Sources;
    CoversSame(f, f', before.Keys + Sources(items) + {MetadataPath(f.root)});
    ShapedSame(f, f', g.base, g.backup, items);
  }

  lemma CoversSame(f: Frame, f': Frame, paths: set<Path>)
    requires CoversAll(f, paths) && forall q :: Known(f, q) <==> Known(f', q)
    ensures CoversAll(f', paths)
  {
    hide Covers;
    forall p | p in paths ensures |p| > 0 && Covers(f', Up(p)) {
      CoversGrow(f, f', Up(p));
    }
  }

  lemma ShapedSame(f: Frame, f': Frame, base: Names, backup: Path, items: seq<Item>)
    requires f'.root == f.root && forall q :: Known(f, q) <==> Known(f', q)
    ensures Shaped(f, base, backup, items) ==> Shaped(f', base, backup, items)
    ensures KnownUp(f) ==> KnownUp(f')
  {
    hide FixedPaths, Within, Finals, Known;
  }

  lemma ArrangedGrew(f: Frame, f': Frame, g: Ground, before: Before, outputs: Names, metadata: Option<Object>,
      items: seq<Item>)
    requires Arranged(f, g, before, outputs, metadata, items) && Grew(f, f')
    ensures Arranged(f', g, before, outputs, metadata, items)
  {
    hide Arranged;
    forall q ensures Known(f, q) <==> Known(f', q) {
      assert q in f.directories.Keys + f.absent <==> q in f'.directories.Keys + f'.absent;
    }
    ArrangedSame(f, f', g, before, outputs, metadata, items);
  }

  // ------------------------------------------------------- where things are

  lemma KeptInPlace(s: State, q: Path)
    requires Placed(s) && q in Kept(s.ground, s.done)
    ensures q in s.names && q in s.ground.base && s.names[q] == s.ground.base[q]
  {
    KeptMember(s.ground, s.done, q);
    hide Kept, Live, Originals, Undoable;
  }

  ghost predicate SourcesApart(root: Path, consumed: set<Path>) {
    forall q :: q in consumed ==> Private(root, q)
  }

  /** An original that was not moved is where it was. */
  lemma OriginalInPlace(s: State, before: Before, p: Path)
    requires Sound(s) && BeforeKept(s.frame.root, s.ground.base, before) && SourcesApart(s.frame.root, s.done.consumed)
    requires p in before && before[p].Some? && p !in Finals(s.done.backed)
    ensures Matches(s.names, p, before[p].value) && p in s.names && p != s.ground.meta && p in s.ground.base
  {
    hide Placed, Partitioned, FrameKept, LedgerKept, NextKept, Accounted, Tree, InScheme, Finals, World, Consistent;
    SchemeApart(s.frame.root, s.backup, p);
    assert Prefix(s.frame.root, p);
    assert p in Kept(s.ground, s.done);
    KeptInPlace(s, p);
  }

  /** Before anything is published, only the original can be at a managed path. */
  lemma OriginalOnly(s: State, before: Before, p: Path)
    requires Sound(s) && !s.stranded && BeforeKept(s.frame.root, s.ground.base, before)
    requires s.done.published == [] && s.done.made == map[] && s.done.metadata.None?
    requires p in before && before[p].Some? && p in s.names
    ensures s.names[p] == before[p].value && s.names[p].File?
  {
    hide Placed, Partitioned, FrameKept, LedgerKept, NextKept, Accounted, Tree, InScheme, World, Consistent, Live, Kept;
    SchemeApart(s.frame.root, s.backup, p);
    NothingLive(s.ground, s.done);
    InKept(s, p);
  }

  lemma ParentFrozen(f: Frame, base: Names, absent: set<Path>, p: Path)
    requires Tree(base) && p in base && |p| > 0 && Covers(f, Up(p))
    requires forall q :: q in f.absent ==> q !in base
    ensures Parent(p) in f.directories
  {
    assert Up(p)[..|Up(p)|] == Parent(p);
    assert IsDir(base, Parent(p));
  }

  lemma AbsentNew(root: Path, base: Names, absent: set<Path>, directories: Names)
    requires AbsentPlanned(root, base, absent, directories)
    ensures forall q :: q in absent ==> q !in base && q !in directories
  {
    hide Placeable;
  }

  lemma Opens(s: State, p: Path)
    requires Sound(s) && Steady(s) && |p| > 0 && Covers(s.frame, Up(p)) && Parent(p) in s.frame.directories
    ensures ParentOpens(s.names, s.frame, p) && PathIdentity(s.names, s.frame, Up(p)) && IsDir(s.names, Parent(p))
  {
    CoveredOpens(s, Up(p));
    hide Placed, Partitioned, LedgerKept, NextKept, Accounted, Tree, PathIdentity, FrameKept;
    assert SameDirectory(s.names, s.frame.directories, Parent(p));
  }

  /** The next original can be moved away. */
  lemma ReadyToBackUp(s: State, before: Before, outputs: Names, metadata: Option<Object>, items: seq<Item>, p: Path)
    requires Sound(s) && !s.stranded && Steady(s)
    requires Arranged(s.frame, s.ground, before, outputs, metadata, items)
    requires forall q :: q in s.frame.absent ==> q !in s.ground.base
    requires SourcesApart(s.frame.root, s.done.consumed)
    requires p in before && before[p].Some? && p !in Finals(s.done.backed)
    ensures Matches(s.names, p, before[p].value) && PathIdentity(s.names, s.frame, Up(p))
    ensures var to := BackupFile(s.backup, |s.done.backed|);
      CanRename(s.names, p, to) && ParentOpens(s.names, s.frame, p) && ParentOpens(s.names, s.frame, to)
  {
    hide Sound, Identity, Finals, BeforeKept, MetadataKept, ItemPlanned, Shaped, SourcesApart, Tree, Covers;
    hide PathIdentity, BackupFile, Matches, IsDir, ParentOpens, Sources;
    assert p in before.Keys + Sources(items) + {MetadataPath(s.frame.root)};
    OriginalInPlace(s, before, p);
    ParentFrozen(s.frame, s.ground.base, s.frame.absent, p);
    Opens(s, p);
    NumberFree(s);
    BackupIsDir(s);
    Number(s.backup, |s.done.backed|);
    BackupOpens(s, BackupFile(s.backup, |s.done.backed|)[|s.backup|]);
  }

  /** The destinations that are managed already, in order. */
  function Managed(before: Before, items: seq<Item>): (managed: seq<Item>)
    ensures forall d :: d in managed ==> d in items && d.final in before && before[d.final].Some?
    ensures forall d :: d in items && d.final in before && before[d.final].Some? ==> d in managed
  {
    if |items| == 0 then []
    else
      var d := items[|items| - 1];
      Managed(before, items[..|items| - 1]) + (if d.final in before && before[d.final].Some? then [d] else [])
  }

  lemma ManagedNone(before: Before, items: seq<Item>)
    ensures Managed(before, items[..0]) == []
  {
  }

  lemma ManagedSnoc(before: Before, items: seq<Item>, k: nat)
    requires k < |items|
    ensures Managed(before, items[..k + 1])
         == Managed(before, items[..k]) + (if items[k].final in before && before[items[k].final].Some? then [items[k]]
           else [])
  {
    assert items[..k + 1][..k] == items[..k];
  }

  lemma {:induction false} ManagedPrefix(before: Before, items: seq<Item>, k: nat)
    requires k <= |items| && DistinctFinals(Managed(before, items))
    ensures DistinctFinals(Managed(before, items[..k]))
    decreases |items| - k
  {
    if k == |items| {
      assert items[..k] == items;
    } else {
      ManagedPrefix(before, items, k + 1);
      ManagedSnoc(before, items, k);
      var some := Managed(before, items[..k]);
      var more := Managed(before, items[..k + 1]);
      assert forall i :: 0 <= i < |some| ==> some[i] == more[i];
    }
  }

  /** A managed destination that comes next has not been moved yet. */
  lemma NextManaged(before: Before, items: seq<Item>, k: nat)
    requires k < |items| && DistinctFinals(Managed(before, items))
    requires items[k].final in before && before[items[k].final].Some?
    ensures items[k].final !in Finals(Managed(before, items[..k]))
  {
    ManagedPrefix(before, items, k + 1);
    ManagedSnoc(before, items, k);
    DistinctInit(Managed(before, items[..k]), items[k]);
  }

  /** What a backup step needs to know, in one place. */
  lemma StartOfBackUp(s: State, created: seq<Path>, before: Before, outputs: Names, metadata: Option<Object>,
      items: seq<Item>, p: Path)
    requires Sound(s) && !s.stranded && Arranged(s.frame, s.ground, before, outputs, metadata, items)
    requires MadeLinked(s.frame.root, s.ground.base, created, s.frame.directories, s.done.made)
    requires AbsentPlanned(s.frame.root, s.ground.base, s.frame.absent, s.frame.directories)
    requires created == [] && s.done.published == [] && s.done.metadata.None?
    requires s.done.consumed == Sources(s.done.published)
    requires p in before && before[p].Some?
    ensures s.done.made == map[] && InScheme(s.frame.root, p) && Tree(s.names)
    ensures p in s.names ==> s.names[p].File?
    ensures Steady(s) && p !in Finals(s.done.backed) ==>
      var to := BackupFile(s.backup, |s.done.backed|);
      && Matches(s.names, p, before[p].value) && PathIdentity(s.names, s.frame, Up(p))
      && CanRename(s.names, p, to) && ParentOpens(s.names, s.frame, p) && ParentOpens(s.names, s.frame, to)
  {
    hide Sound, Identity, PathIdentity, ParentOpens, Finals, BackupFile, CanRename, Tree, InScheme, AbsentPlanned;
    hide Placeable, Matches, CoversAll, Shaped, MetadataKept, ItemPlanned;
    TreeOf(s);
    NoneMade(s.frame.root, s.ground.base, created, s.frame.directories, s.done.made);
    if p in s.names {
      OriginalOnly(s, before, p);
    }
    AbsentNew(s.frame.root, s.ground.base, s.frame.absent, s.frame.directories);
    if Steady(s) && p !in Finals(s.done.backed) {
      ReadyToBackUp(s, before, outputs, metadata, items, p);
    }
  }

  lemma NoneMade(root: Path, base: Names, created: seq<Path>, directories: Names, made: Names)
    requires MadeLinked(root, base, created, directories, made) && created == []
    ensures made == map[]
  {
    hide PlannedDirectory;
  }

  // -------------------------------------------------------------- publishing

  /** Every destination that was there has been moved away. */
  ghost predicate Cleared(before: Before, items: seq<Item>, moved: set<Path>) {
    forall d :: d in items && d.final in before && before[d.final].Some? ==> d.final in moved
  }

  lemma NotItself(p: Path)
    ensures Prefix(p, p)
  {
  }

  lemma MadeNew(root: Path, base: Names, created: seq<Path>, directories: Names, made: Names, q: Path)
    requires MadeLinked(root, base, created, directories, made) && q in made
    ensures q in created && q !in base && q in directories && Within(root, q)
  {
    hide Placeable;
  }

  lemma AbsentElsewhere(f: Frame, g: Ground, items: seq<Item>, d: Item)
    requires Shaped(f, g.base, g.backup, items) && BackupPath(f.root, g.backup)
    requires Loose(items, d) && InScheme(f.root, d.final)
    requires forall q :: q in f.absent ==> q !in g.base
    ensures d.final !in f.absent
  {
    hide InScheme, BackupPath;
    SchemeApart(f.root, g.backup, d.final);
    NotItself(g.backup);
    assert d.final in f.absent ==> Known(f, d.final);
  }

  lemma WithinPrefix(root: Path, p: Path)
    requires Within(root, p)
    ensures Prefix(root, p)
  {
  }

  lemma SourceInPlace(s: State, before: Before, outputs: Names, d: Item)
    requires Sound(s) && ItemPlanned(s.frame.root, s.ground.base, before, outputs, d)
    requires BeforeKept(s.frame.root, s.ground.base, before)
    requires d.source !in s.done.consumed && (forall e :: e in s.done.backed ==> e.final in before)
    ensures Matches(s.names, d.source, outputs[d.final]) && d.source in s.names && s.names[d.source] == outputs[d.final]
  {
    hide Placed, Partitioned, FrameKept, LedgerKept, NextKept, Accounted, Tree, InScheme, World, Consistent;
    SourceApart(s.frame.root, s.backup, d.source);
    assert forall e :: e in s.done.backed ==> e.final != d.source;
    assert d.source in Kept(s.ground, s.done);
    KeptInPlace(s, d.source);
  }

  lemma Vacant(s: State, p: Path)
    requires Placed(s) && Partitioned(s) && !s.stranded && s.ground.backup == s.backup
    requires !Prefix(s.backup, p) && p !in Kept(s.ground, s.done) && p !in Live(s.ground, s.done)
    ensures p !in s.names
  {
    hide Live, Originals, Consistent;
    OriginalsUnderBackup(s.ground, s.done);
  }

  lemma FinalVacant(s: State, before: Before, outputs: Names, metadata: Option<Object>, items: seq<Item>, d: Item)
    requires Sound(s) && !s.stranded && d in items && d.final !in s.done.made
    requires Arranged(s.frame, s.ground, before, outputs, metadata, items)
    requires Cleared(before, items, Finals(s.done.backed)) && d.final !in Finals(s.done.published)
    ensures d.final !in s.names
  {
    hide Placed, Partitioned, FrameKept, LedgerKept, NextKept, Accounted, Tree, InScheme, World, Consistent, Finals;
    hide Shaped, MetadataKept, Covers, BackupPath, Matches, Live, Kept;
    SchemeApart(s.frame.root, s.backup, d.final);
    PickOnly(s.ground.outputs, Finals(s.done.published), d.final);
    NotLive(s.ground, s.done, d.final);
    NotKept(s.ground, s.done, d.final);
    Vacant(s, d.final);
  }

  lemma PickOnly(objects: Names, keys: set<Path>, p: Path)
    requires p !in keys
    ensures p !in Pick(objects, keys)
  {
  }

  lemma NotKept(g: Ground, done: Progress, p: Path)
    requires p !in g.base || p in Finals(done.backed)
    ensures p !in Kept(g, done)
  {
  }

  /** The next output can be published once its directory is there. */
  lemma ReadyToPublish(s: State, before: Before, outputs: Names, metadata: Option<Object>, items: seq<Item>,
      created: seq<Path>, d: Item)
    requires Sound(s) && !s.stranded && Steady(s) && d in items && d.final !in s.done.made
    requires Arranged(s.frame, s.ground, before, outputs, metadata, items)
    requires MadeLinked(s.frame.root, s.ground.base, created, s.frame.directories, s.done.made)
    requires forall q :: q in s.frame.absent ==> q !in s.ground.base
    requires Cleared(before, items, Finals(s.done.backed)) && d.final !in Finals(s.done.published)
    requires d.source !in s.done.consumed && (forall e :: e in s.done.backed ==> e.final in before)
    requires |d.final| > 0 && Parent(d.final) in s.frame.directories
    ensures Matches(s.names, d.source, outputs[d.final]) && PathIdentity(s.names, s.frame, Up(d.final))
    ensures CanRename(s.names, d.source, d.final)
    ensures ParentOpens(s.names, s.frame, d.source) && ParentOpens(s.names, s.frame, d.final)
  {
    FinalVacant(s, before, outputs, metadata, items, d);
    hide Sound, Identity, Finals, BeforeKept, MetadataKept, Shaped, Tree, Covers, PathIdentity, IsDir, ParentOpens;
    hide MadeLinked, Cleared;
    assert d.source in Sources(items) && d.final in before;
    assert d.source in before.Keys + Sources(items) + {MetadataPath(s.frame.root)};
    assert d.final in before.Keys + Sources(items) + {MetadataPath(s.frame.root)};
    SourceInPlace(s, before, outputs, d);
    ParentFrozen(s.frame, s.ground.base, s.frame.absent, d.source);
    Opens(s, d.source);
    Opens(s, d.final);
  }

  lemma BackupOf(s: State)
    requires Sound(s)
    ensures BackupPath(s.frame.root, s.backup) && s.ground.backup == s.backup
    ensures s.ground.meta == MetadataPath(s.frame.root)
  {
  }

  /** Only the private output can be at its source. */
  lemma SourceOnly(s: State, before: Before, outputs: Names, d: Item)
    requires Sound(s) && !s.stranded && ItemPlanned(s.frame.root, s.ground.base, before, outputs, d)
    requires d.source in s.names
    ensures s.names[d.source] == outputs[d.final] && s.names[d.source].File?
  {
    hide Placed, FrameKept, LedgerKept, NextKept, Accounted, Tree, InScheme, World, Consistent, Live, Kept;
    SourceApart(s.frame.root, s.backup, d.source);
    InKept(s, d.source);
  }

  /** Nothing stands in the way of this destination. */
  ghost predicate Publishable(before: Before, items: seq<Item>, made: Names, backed: seq<Item>, published: seq<Item>,
      d: Item) {
    && Cleared(before, items, Finals(backed)) && d.final !in made
    && d.final !in Finals(published) && d.source !in Sources(published)
  }

  /** Making room for a destination does not take its place. */
  ghost predicate MadeUnder(a: Names, b: Names, path: Path) {
    forall q :: q in b ==> q in a || Prefix(q, path)
  }

  lemma MadeOne(made: Names, p: Path, o: Object)
    ensures MadeUnder(made, made, p) && MadeUnder(made, made[p := o], p)
  {
  }

  lemma MadeUnderUp(a: Names, b: Names, c: Names, path: Path)
    requires MadeUnder(a, b, Up(path)) && MadeUnder(b, c, path)
    ensures MadeUnder(a, c, path)
  {
    forall q | q in b && Prefix(q, Up(path)) ensures Prefix(q, path) {
      assert |path| > 0 ==> Up(path)[..|q|] == path[..|q|];
    }
  }

  lemma NothingUnder(a: Names, path: Path)
    ensures MadeUnder(a, a, path)
  {
  }

  lemma NothingFor(items: seq<Item>)
    ensures MadeFor(items, 0, map[])
  {
  }

  lemma StillPublishable(before: Before, items: seq<Item>, a: Names, b: Names, backed: seq<Item>, published: seq<Item>,
      d: Item)
    requires MadeUnder(a, b, Up(d.final)) && |d.final| > 0
    ensures Publishable(before, items, a, backed, published, d) ==> Publishable(before, items, b, backed, published, d)
  {
    hide Cleared, Finals, Sources;
  }

  /** Every directory made so far is above one of the first destinations. */
  ghost predicate MadeFor(items: seq<Item>, k: nat, made: Names) {
    forall q :: q in made ==> exists j :: 0 <= j < k && j < |items| && Within(q, items[j].final)
  }

  lemma MadeForNext(items: seq<Item>, k: nat, a: Names, b: Names)
    requires MadeFor(items, k, a) && k < |items| && |items[k].final| > 0 && MadeUnder(a, b, Up(items[k].final))
    ensures MadeFor(items, k + 1, b)
  {
    forall q | q in b ensures exists j :: 0 <= j < k + 1 && j < |items| && Within(q, items[j].final) {
      if q in a {
        var j :| 0 <= j < k && j < |items| && Within(q, items[j].final);
      } else {
        assert items[k].final[..|q|] == Up(items[k].final)[..|q|];
        assert Within(q, items[k].final);
      }
    }
  }

  lemma ItemOf(f: Frame, g: Ground, before: Before, outputs: Names, metadata: Option<Object>, items: seq<Item>, d: Item)
    requires Arranged(f, g, before, outputs, metadata, items) && d in items
    ensures d.final in outputs && d.final in before && Covers(f, Up(d.final)) && |d.final| > 0
  {
    assert d.final in before.Keys + Sources(items) + {MetadataPath(f.root)};
    hide Tree, BeforeKept, MetadataKept, Shaped, InScheme;
  }

  /** What a publish step needs to know, in one place. */
  lemma StartOfPublish(s: State, created: seq<Path>, before: Before, outputs: Names, metadata: Option<Object>,
      items: seq<Item>, d: Item)
    requires Sound(s) && !s.stranded && Arranged(s.frame, s.ground, before, outputs, metadata, items) && d in items
    requires MadeLinked(s.frame.root, s.ground.base, created, s.frame.directories, s.done.made)
    requires AbsentPlanned(s.frame.root, s.ground.base, s.frame.absent, s.frame.directories)
    requires s.done.consumed == Sources(s.done.published) && (forall e :: e in s.done.backed ==> e.final in before)
    requires Up(d.final) in s.frame.directories
    ensures InScheme(s.frame.root, d.final) && Tree(s.names) && d.final in s.ground.outputs && d.final in outputs
    ensures d.source in s.names ==> s.names[d.source].File? && s.names[d.source] == s.ground.outputs[d.final]
    ensures Private(s.frame.root, d.source)
    ensures Loose(items, d) ==> d.final !in s.frame.absent
    ensures Steady(s) && Publishable(before, items, s.done.made, s.done.backed, s.done.published, d) ==>
      && Matches(s.names, d.source, outputs[d.final]) && PathIdentity(s.names, s.frame, Up(d.final))
      && CanRename(s.names, d.source, d.final)
      && ParentOpens(s.names, s.frame, d.source) && ParentOpens(s.names, s.frame, d.final)
  {
    hide Sound, Identity, PathIdentity, ParentOpens, Finals, CanRename, Tree, InScheme, AbsentPlanned, MadeLinked;
    hide Placeable, Matches, CoversAll, Shaped, MetadataKept, BeforeKept, Cleared, Loose, Sources, BackupPath;
    TreeOf(s);
    BackupOf(s);
    SchemeApart(s.frame.root, s.backup, d.final);
    if d.source in s.names {
      SourceOnly(s, before, outputs, d);
    }
    AbsentNew(s.frame.root, s.ground.base, s.frame.absent, s.frame.directories);
    if Loose(items, d) {
      AbsentElsewhere(s.frame, s.ground, items, d);
    }
    if Steady(s) && Publishable(before, items, s.done.made, s.done.backed, s.done.published, d) {
      ReadyToPublish(s, before, outputs, metadata, items, created, d);
    }
  }

  /** Destinations whose order is that of their directories, without repetitions. */
  ghost predicate Ordered(items: seq<Item>) {
    Climbing(items) && DistinctFinals(items) && DistinctSources(items)
  }

  lemma OrderedPublishable(before: Before, items: seq<Item>, made: Names, backed: seq<Item>, k: nat)
    requires Ordered(items) && Cleared(before, items, Finals(backed)) && k < |items| && MadeFor(items, k, made)
    ensures Publishable(before, items, made, backed, items[..k], items[k])
  {
    hide Cleared;
    assert forall e :: e in items[..k] ==> e.final != items[k].final && e.source != items[k].source;
  }

  /** The new destinations do not get in each other's way. */
  ghost predicate Orderly(items: seq<Item>) {
    PrefixFree(items) && DistinctFinals(items) && DistinctSources(items)
  }

  lemma OrderlyFree(items: seq<Item>)
    ensures Orderly(items) ==> PrefixFree(items) && Ordered(items)
  {
  }

  // ---------------------------------------------------------------- metadata

  lemma OldMetadataFree(s: State)
    requires Sound(s) && !s.stranded && !s.done.metadataBacked
    ensures OldMetadataPath(s.backup) !in s.names
  {
    hide Placed, Partitioned, LedgerKept, NextKept, Tree, FrameKept;
    var q := OldMetadataPath(s.backup);
    if q in s.names {
      OldInBackup(s.backup);
      InBackup(s, q);
      BackupNamesDiffer(s.backup, 0);
      forall p | p in BackupFiles(s.ground.base, s.ground.backup, s.done.backed) ensures p != q {
        var i :| 0 <= i < |s.done.backed| && p == BackupFile(s.ground.backup, i);
        BackupNamesDiffer(s.backup, i);
      }
    }
  }

  lemma SourcesOutside(root: Path, base: Names, before: Before, outputs: Names, items: seq<Item>, published: seq<Item>)
    requires forall d :: d in items ==> ItemPlanned(root, base, before, outputs, d)
    requires forall d :: d in published ==> d in items
    ensures SourcesApart(root, Sources(published))
  {
  }

  /** The old metadata is where it was. */
  lemma MetadataInPlace(s: State, metadata: Option<Object>)
    requires Sound(s) && !s.stranded && MetadataKept(s.frame.root, s.ground.base, metadata)
    requires !s.done.metadataBacked && s.done.metadata.None? && SourcesApart(s.frame.root, s.done.consumed)
    ensures metadata.Some? ==> Matches(s.names, MetadataPath(s.frame.root), metadata.value)
    ensures MetadataPath(s.frame.root) in s.names ==> s.names[MetadataPath(s.frame.root)].File? && metadata.Some?
  {
    hide Placed, Partitioned, FrameKept, LedgerKept, NextKept, Accounted, Tree, World, Consistent, Live, Finals;
    var meta := MetadataPath(s.frame.root);
    MetadataApart(s.frame.root, s.backup);
    MetadataIsNotLive(s);
    ConsistentOf(s);
    MetadataUnmoved(s.ground, s.done, s.extra);
    if metadata.Some? {
      WithinPrefix(s.frame.root, meta);
      KeptInPlace(s, meta);
    }
    if meta in s.names {
      InKept(s, meta);
    }
  }

  lemma ConsistentOf(s: State)
    requires Placed(s)
    ensures Consistent(s.ground, s.done, s.extra)
  {
  }

  lemma MetadataUnmoved(g: Ground, done: Progress, extra: Names)
    requires Consistent(g, done, extra)
    ensures g.meta !in Finals(done.backed)
  {
  }

  /** What moving the old metadata away needs to know. */
  lemma StartOfMetadata(s: State, before: Before, outputs: Names, metadata: Option<Object>, items: seq<Item>)
    requires Sound(s) && !s.stranded && Arranged(s.frame, s.ground, before, outputs, metadata, items)
    requires s.done.consumed == Sources(s.done.published) && (forall d :: d in s.done.published ==> d in items)
    requires !s.done.metadataBacked && s.done.metadata.None? && MetadataDir(s.frame.root) in s.frame.directories
    ensures Tree(s.names)
    ensures MetadataPath(s.frame.root) in s.names ==> s.names[MetadataPath(s.frame.root)].File?
    ensures metadata.Some? && Steady(s) ==>
      var meta, to := MetadataPath(s.frame.root), OldMetadataPath(s.backup);
      && Matches(s.names, meta, metadata.value) && CanRename(s.names, meta, to)
      && ParentOpens(s.names, s.frame, meta) && ParentOpens(s.names, s.frame, to)
  {
    hide Within, Prefix, IsDir, Sound, Identity, PathIdentity, ParentOpens, Tree, BeforeKept, ItemPlanned, Shaped;
    hide Covers, Finals, Sources;
    var meta := MetadataPath(s.frame.root);
    TreeOf(s);
    BackupOf(s);
    SourcesOutside(s.frame.root, s.ground.base, before, outputs, items, s.done.published);
    MetadataInPlace(s, metadata);
    MetadataApart(s.frame.root, s.backup);
    if metadata.Some? && Steady(s) {
      assert meta in before.Keys + Sources(items) + {meta};
      Opens(s, meta);
      OldMetadataFree(s);
      BackupIsDir(s);
      BackupOpens(s, "metadata");
    }
  }

  /** The new metadata is written into the backup directory. */
  lemma NextWritten(s: State, t: State, made: Object)
    requires Sound(s) && !s.stranded && s.next.None? && made.File? && made.links == 1
    requires var p := NextMetadataPath(s.backup);
      t == s.(names := s.names[p := made], extra := s.extra[p := made], next := Some(made))
    ensures Sound(t)
    ensures Steady(s) ==> Steady(t)
  {
    NextFree(s);
    NextCounted(s, t, made);
    LedgerFresh(s);
    NextRecorded(s, t, made);
    hide Sound, Steady, LedgerKept, NextKept, Accounted;
    OwnUnnumbered(s.backup);
    OwnFile(s, t, "next-metadata", made);
  }

  lemma NextFree(s: State)
    requires Sound(s) && !s.stranded && s.next.None?
    ensures NextMetadataPath(s.backup) !in s.names && NextMetadataPath(s.backup) !in s.extra && Accounted(s)
  {
    NextAbsent(s);
    AccountedOf(s);
    hide Sound;
    if NextMetadataPath(s.backup) in s.extra {
      ExtraOf(s, NextMetadataPath(s.backup));
    }
  }

  lemma NextCounted(s: State, t: State, made: Object)
    requires Accounted(s) && s.next.None?
    requires t == s.(names := t.names, extra := s.extra[NextMetadataPath(s.backup) := made], next := Some(made))
    ensures Accounted(t)
  {
    hide NextMetadataPath, LedgerPath;
    assert t.extra.Keys == s.extra.Keys + {NextMetadataPath(s.backup)};
  }

  lemma NextRecorded(s: State, t: State, made: Object)
    requires LedgerKept(s) && made.File? && made.links == 1
    requires t == s.(names := t.names, extra := s.extra[NextMetadataPath(s.backup) := made], next := Some(made))
    ensures LedgerKept(t) && NextKept(t)
  {
    BackupNamesDiffer(s.backup, 0);
    assert NextKept(t);
    hide NextMetadataPath, LedgerPath, LedgerObject, NextKept;
    assert t.backup == s.backup && t.started == s.started && t.ledger == s.ledger && t.entries == s.entries;
  }

  lemma NextOf(s: State)
    requires Sound(s) && s.next.Some?
    ensures var p := NextMetadataPath(s.backup);
      && p in s.names && s.names[p] == s.next.value
      && Matches(s.names, p, s.next.value)
  {
    hide Placed, Partitioned, FrameKept, BackupKept, Tree, LedgerKept, Accounted;
    ExtraMember(s, NextMetadataPath(s.backup));
  }

  /** What moving the new metadata into place needs to know. */
  lemma StartOfNext(s: State, created: seq<Path>, before: Before, outputs: Names, metadata: Option<Object>,
      items: seq<Item>)
    requires Sound(s) && !s.stranded && s.next.Some? && Arranged(s.frame, s.ground, before, outputs, metadata, items)
    requires AbsentPlanned(s.frame.root, s.ground.base, s.frame.absent, s.frame.directories)
    requires s.done.metadata.None? && s.done.metadataBacked == metadata.Some?
    requires MetadataDir(s.frame.root) in s.frame.directories
    ensures Tree(s.names) && MetadataPath(s.frame.root) !in s.frame.absent
    ensures var from := NextMetadataPath(s.backup);
      && from in s.names && s.names[from] == s.next.value
      && Matches(s.names, from, s.next.value)
    ensures Steady(s) ==>
      var meta, from := MetadataPath(s.frame.root), NextMetadataPath(s.backup);
      && CanRename(s.names, from, meta)
      && ParentOpens(s.names, s.frame, from) && ParentOpens(s.names, s.frame, meta)
  {
    hide Sound, Identity, PathIdentity, ParentOpens, Tree, BeforeKept, ItemPlanned, Shaped, Covers, Finals, Sources;
    hide AbsentPlanned;
    var meta := MetadataPath(s.frame.root);
    TreeOf(s);
    BackupOf(s);
    NextOf(s);
    MetadataApart(s.frame.root, s.backup);
    MetadataNotAbsent(s.frame.root, s.ground.base, s.frame.absent, s.frame.directories);
    if Steady(s) {
      assert meta in before.Keys + Sources(items) + {meta};
      Opens(s, meta);
      MetadataVacant(s, metadata);
      BackupOpens(s, "next-metadata");
    }
  }

  lemma MetadataNotAbsent(root: Path, base: Names, absent: set<Path>, directories: Names)
    requires AbsentPlanned(root, base, absent, directories)
    ensures MetadataPath(root) !in absent
  {
    hide Placeable;
  }

  lemma MetadataVacant(s: State, metadata: Option<Object>)
    requires Sound(s) && !s.stranded && MetadataKept(s.frame.root, s.ground.base, metadata)
    requires s.done.metadata.None? && s.done.metadataBacked == metadata.Some?
    ensures MetadataPath(s.frame.root) !in s.names
  {
    hide Placed, Partitioned, FrameKept, LedgerKept, NextKept, Accounted, Tree, World, Consistent, Live;
    MetadataApart(s.frame.root, s.backup);
    MetadataIsNotLive(s);
    Vacant(s, MetadataPath(s.frame.root));
  }

  lemma MetadataCovered(f: Frame, g: Ground, before: Before, outputs: Names, metadata: Option<Object>, items: seq<Item>)
    requires Arranged(f, g, before, outputs, metadata, items)
    ensures Covers(f, MetadataDir(f.root))
  {
    hide Tree, BeforeKept, MetadataKept, Shaped, ItemPlanned, Covers;
    var meta := MetadataPath(f.root);
    assert meta in before.Keys + Sources(items) + {meta};
    assert Up(meta) == MetadataDir(f.root);
  }
}
