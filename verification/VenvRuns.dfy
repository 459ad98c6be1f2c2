/** Any number of updates: what each of them leaves is something the next one can
    begin from. */
module VenvRuns {
  import opened Wrappers
  import opened Records
  import opened FileSystem
  import opened Ownership
  import opened Frames
  import opened Layout
  import opened Geometry
  import opened VenvState
  import opened VenvPlan
  import opened VenvOutcome
  import opened VenvUndo
  import opened VenvPrepare
  import opened VenvOpening
  import opened VenvConclude
  import opened VenvResult

  /** An environment an update can begin in, the lock aside: its table describes
      its files, no two of them at one path, with one version for each
      distribution. */
  ghost predicate Wholesome(names: Names, root: Path) {
    && Tree(names) && Startable(names, root)
    && InjectiveFinals(root, ReadState(names, root).value) && OneVersion(ReadState(names, root).value)
  }

  /** The same environment, as far as promotion is concerned: only private paths
      and the lock may differ. */
  ghost predicate Agree(root: Path, a: Names, b: Names) {
    forall q :: !Private(root, q) && q != LockPath(root) ==> (q in a <==> q in b) && (q in a ==> a[q] == b[q])
  }

  lemma FixedNotPrivate(root: Path)
    ensures forall q :: q in FixedPaths(root) ==> !Private(root, q) && q != LockPath(root)
    ensures !Private(root, ConfigPath(root)) && ConfigPath(root) != LockPath(root)
    ensures !Private(root, MetadataPath(root)) && MetadataPath(root) != LockPath(root)
  {
    forall q | q in FixedPaths(root) ensures !Private(root, q) && q != LockPath(root) {
      FixedOutside(root, q);
    }
    assert Prefix(root, ConfigPath(root));
    assert MetadataPath(root)[|root|] == ".heliopause" && Prefix(root, MetadataPath(root));
  }

  lemma FixedOutside(root: Path, q: Path)
    requires q in FixedPaths(root)
    ensures !Private(root, q) && q != LockPath(root)
  {
    assert Prefix(root, root);
    if q != root {
      assert Prefix(root, q) && |q| > |root|;
      assert q[|root|] == "lib" || q[|root|] == "bin" || q[|root|] == "share" || q[|root|] == "include" ||
        q[|root|] == ".heliopause";
      assert LockPath(root)[|root|] == ".heliopause-pypi-transaction.lock";
    }
  }

  lemma BackupNotPrivate(root: Path, q: Path)
    requires BackupPath(root, q)
    ensures !Private(root, q) && q != LockPath(root)
  {
    assert Prefix(root, q);
    BackupOrdinary(root, q);
  }

  lemma AgreeLaid(root: Path, a: Names, b: Names)
    requires Agree(root, a, b)
    ensures Laid(a, root) <==> Laid(b, root)
    ensures DirIfThere(a, MetadataDir(root)) <==> DirIfThere(b, MetadataDir(root))
    ensures SingleLinkFile(a, ConfigPath(root)) <==> SingleLinkFile(b, ConfigPath(root))
  {
    FixedNotPrivate(root);
    hide Private;
    assert SchemeRoot(root, "site").value in FixedPaths(root) && SchemeRoot(root, "scripts").value in FixedPaths(root);
    assert SchemeRoot(root, "data").value in FixedPaths(root) && SchemeRoot(root, "headers").value in FixedPaths(root);
  }

  lemma AgreeRead(root: Path, a: Names, b: Names)
    requires Agree(root, a, b)
    ensures ReadState(a, root) == ReadState(b, root)
  {
    FixedNotPrivate(root);
    hide Private, ValidEntry;
  }

  lemma AgreeVerify(root: Path, a: Names, b: Names, files: Files)
    requires Agree(root, a, b) && VerifyState(a, root, files)
    ensures VerifyState(b, root, files)
  {
    hide Final, Private;
    forall key | key in files ensures VerifiedEntry(b, root, key, files[key]) {
      assert VerifiedEntry(a, root, key, files[key]);
      var p := Final(root, files[key]).value;
      FinalInSomeScheme(root, files[key]);
      SchemeNotLock(root, p);
    }
  }

  lemma SchemeNotLock(root: Path, p: Path)
    requires InScheme(root, p)
    ensures !Private(root, p) && p != LockPath(root)
  {
    TempName(root, "");
    SchemeApart(root, root + [COMMIT_PREFIX + ""], p);
  }

  lemma AgreeNoBackup(root: Path, a: Names, b: Names)
    requires Agree(root, a, b) && forall q :: q in a ==> !BackupPath(root, q)
    ensures forall q :: q in b ==> !BackupPath(root, q)
  {
    hide BackupPath, Private;
    forall q | q in b ensures !BackupPath(root, q) {
      if BackupPath(root, q) {
        BackupNotPrivate(root, q);
      }
    }
  }

  lemma AgreeBack(root: Path, a: Names, b: Names)
    requires Agree(root, a, b)
    ensures Agree(root, b, a)
  {
    hide Private;
  }

  lemma AgreeThrough(root: Path, a: Names, b: Names, c: Names)
    requires Agree(root, a, b) && Agree(root, b, c)
    ensures Agree(root, a, c)
  {
    hide Private;
  }

  /** Whether an update can begin depends only on what promotion looks at. */
  lemma AgreeWholesome(root: Path, a: Names, b: Names)
    requires Agree(root, a, b) && Tree(b) && Wholesome(a, root)
    ensures Wholesome(b, root)
  {
    hide Agree, Tree, Laid, ReadState, VerifyState, BackupPath, InjectiveFinals, OneVersion, SingleLinkFile, DirIfThere;
    AgreeLaid(root, a, b);
    AgreeRead(root, a, b);
    AgreeVerify(root, a, b, ReadState(a, root).value);
    AgreeNoBackup(root, a, b);
  }

  lemma AgreeStartable(root: Path, a: Names, b: Names)
    requires Agree(root, a, b)
    ensures Startable(a, root) <==> Startable(b, root)
  {
    hide Agree, Tree, Laid, ReadState, VerifyState, BackupPath, SingleLinkFile, DirIfThere;
    AgreeBack(root, a, b);
    AgreeLaid(root, a, b);
    AgreeRead(root, a, b);
    if Startable(a, root) {
      AgreeVerify(root, a, b, ReadState(a, root).value);
      AgreeNoBackup(root, a, b);
    }
    if Startable(b, root) {
      AgreeVerify(root, b, a, ReadState(b, root).value);
      AgreeNoBackup(root, b, a);
    }
  }

  // ------------------------------------------------------------- one commit

  lemma InstalledKeeps(root: Path, a: Names, b: Names, items: seq<Item>, gone: set<Path>, desired: Files, q: Path)
    requires Installed(root, a, b, items, gone, desired) && q in a && q != MetadataPath(root) && !Private(root, q)
    requires !InScheme(root, q)
    requires (forall d :: d in items ==> InScheme(root, d.final) && Private(root, d.source))
    requires forall p :: p in gone ==> InScheme(root, p)
    ensures q in b && b[q] == a[q]
  {
    hide Private, InScheme, FixedPaths, NewMetadata;
  }

  lemma NotInScheme(root: Path, q: Path)
    requires q in FixedPaths(root) || q == ConfigPath(root)
    ensures !InScheme(root, q) && !Private(root, q) && q != MetadataPath(root)
  {
    FixedNotPrivate(root);
    TempName(root, "");
    if InScheme(root, q) {
      SchemeApart(root, root + [COMMIT_PREFIX + ""], q);
    }
    MetadataApart(root, root + [COMMIT_PREFIX + ""]);
  }

  lemma InstalledFixed(root: Path, a: Names, b: Names, items: seq<Item>, gone: set<Path>, desired: Files, q: Path)
    requires Installed(root, a, b, items, gone, desired) && q in FixedPaths(root)
    requires (forall d :: d in items ==> InScheme(root, d.final) && Private(root, d.source))
    requires forall p :: p in gone ==> InScheme(root, p)
    ensures q in a ==> q in b && b[q] == a[q]
    ensures q in b && q !in a ==> b[q].Dir?
  {
    NotInScheme(root, q);
    if q in a {
      InstalledKeeps(root, a, b, items, gone, desired, q);
    }
    hide Private, InScheme, FixedPaths, NewMetadata;
  }

  lemma InstalledLaid(root: Path, a: Names, b: Names, items: seq<Item>, gone: set<Path>, desired: Files)
    requires Installed(root, a, b, items, gone, desired) && Laid(a, root) && DirIfThere(a, MetadataDir(root))
    requires (forall d :: d in items ==> InScheme(root, d.final) && Private(root, d.source))
    requires forall p :: p in gone ==> InScheme(root, p)
    ensures Laid(b, root) && DirIfThere(b, MetadataDir(root))
  {
    FixedListed(root);
    forall q | q in FixedPaths(root)
      ensures (q in a ==> q in b && b[q] == a[q]) && (q in b && q !in a ==> b[q].Dir?)
    {
      InstalledFixed(root, a, b, items, gone, desired, q);
    }
    hide Installed, InScheme, Private;
  }

  lemma InstalledConfig(root: Path, a: Names, b: Names, items: seq<Item>, gone: set<Path>, desired: Files)
    requires Installed(root, a, b, items, gone, desired) && SingleLinkFile(a, ConfigPath(root))
    requires (forall d :: d in items ==> InScheme(root, d.final) && Private(root, d.source))
    requires forall p :: p in gone ==> InScheme(root, p)
    ensures SingleLinkFile(b, ConfigPath(root))
  {
    hide Installed, InScheme, Private;
    NotInScheme(root, ConfigPath(root));
    InstalledKeeps(root, a, b, items, gone, desired, ConfigPath(root));
  }

  lemma InstalledNoBackup(root: Path, a: Names, b: Names, items: seq<Item>, gone: set<Path>, desired: Files)
    requires Installed(root, a, b, items, gone, desired) && forall q :: q in a ==> !BackupPath(root, q)
    requires forall d :: d in items ==> InScheme(root, d.final)
    ensures forall q :: q in b ==> !BackupPath(root, q)
  {
    hide BackupPath, InScheme, FixedPaths, NewMetadata;
    forall q | q in b && q !in a ensures !BackupPath(root, q) {
      if q in Finals(items) {
        var d :| d in items && d.final == q;
        SchemeNotBackup(root, q);
      } else if q == MetadataPath(root) {
        MetadataNotBackup(root);
      } else if q in FixedPaths(root) {
        FixedNotBackup(root, q);
      } else {
        var d :| d in items && Within(q, d.final);
        AboveNotBackup(root, q, d.final);
      }
    }
  }

  lemma SchemeNotBackup(root: Path, q: Path)
    requires InScheme(root, q)
    ensures !BackupPath(root, q)
  {
    if BackupPath(root, q) {
      SchemeApart(root, q, q);
      NotItself(q);
    }
  }

  lemma MetadataNotBackup(root: Path)
    ensures !BackupPath(root, MetadataPath(root))
  {
    if BackupPath(root, MetadataPath(root)) {
      MetadataApart(root, MetadataPath(root));
      NotItself(MetadataPath(root));
    }
  }

  lemma GoneInScheme(root: Path, current: Files, news: seq<Owned>)
    ensures forall p :: p in ObsoletePaths(root, current, news) ==> InScheme(root, p)
  {
    hide Final, InScheme, Replaced, NewFiles;
    forall p | p in ObsoletePaths(root, current, news) ensures InScheme(root, p) {
      var key :| key in ObsoleteKeys(current, news) && Final(root, current[key]).Some? &&
        Final(root, current[key]).value == p;
      FinalInSomeScheme(root, current[key]);
    }
  }

  lemma SourcesArePrivate(root: Path, ds: seq<Destination>)
    requires AllBind(root, ds) && SourcesPrivate(root, ds)
    ensures forall d :: d in Items(root, ds) ==> Private(root, d.source)
  {
    hide Private, Bind;
    forall d | d in Items(root, ds) ensures Private(root, d.source) {
      var i :| 0 <= i < |ds| && Items(root, ds)[i] == d;
      assert ds[i] in ds;
    }
  }

  lemma WholesomeFiles(names: Names, root: Path)
    requires Wholesome(names, root)
    ensures FilesThere(names, root, ReadState(names, root).value)
  {
    hide Final, Laid, BackupPath;
    var current := ReadState(names, root).value;
    forall key | key in current
      ensures key == Key(current[key]) && Final(root, current[key]).Some? && Final(root, current[key]).value in names
    {
      assert VerifiedEntry(names, root, key, current[key]);
    }
  }

  /** A commit leaves an environment the next update can begin in. */
  lemma CommittedWholesome(root: Path, a: Names, b: Names, current: Files, ds: seq<Destination>)
    requires Wholesome(a, root) && ReadState(a, root) == Some(current) && Acceptable(a, root, current, ds)
    requires SourcesPrivate(root, ds)
    requires Committed(root, a, b, current, ds) && Tree(b)
    ensures Wholesome(b, root)
  {
    hide *;
    AcceptableParts(a, root, current, ds);
    var items := Items(root, ds);
    var desired := Desired(current, Owneds(ds));
    var gone := ObsoletePaths(root, current, Owneds(ds));
    WholesomeParts(a, root);
    WholesomeFiles(a, root);
    CommittedParts(root, a, b, current, ds);
    FinalsInScheme(root, ds);
    SourcesArePrivate(root, ds);
    GoneInScheme(root, current, Owneds(ds));
    InstalledLaid(root, a, b, items, gone, desired);
    InstalledConfig(root, a, b, items, gone, desired);
    InstalledNoBackup(root, a, b, items, gone, desired);
    InjectiveAfter(a, root, current, ds);
    UpdateKeepsOneVersion(current, Owneds(ds));
    WholesomeFrom(b, root, desired);
  }

  lemma WholesomeParts(names: Names, root: Path)
    requires Wholesome(names, root)
    ensures Tree(names) && Laid(names, root) && DirIfThere(names, MetadataDir(root))
    ensures SingleLinkFile(names, ConfigPath(root))
    ensures forall q :: q in names ==> !BackupPath(root, q)
    ensures ReadState(names, root).Some? && VerifyState(names, root, ReadState(names, root).value)
    ensures InjectiveFinals(root, ReadState(names, root).value) && OneVersion(ReadState(names, root).value)
  {
  }

  lemma WholesomeFrom(names: Names, root: Path, files: Files)
    requires Tree(names) && Laid(names, root) && DirIfThere(names, MetadataDir(root))
    requires SingleLinkFile(names, ConfigPath(root))
    requires forall q :: q in names ==> !BackupPath(root, q)
    requires Describes(names, root, files) && InjectiveFinals(root, files) && OneVersion(files)
    ensures Wholesome(names, root)
  {
    hide Tree, Laid, ReadState, VerifyState, BackupPath, InjectiveFinals, OneVersion, SingleLinkFile, DirIfThere;
  }

  lemma CommittedParts(root: Path, a: Names, b: Names, current: Files, ds: seq<Destination>)
    requires Committed(root, a, b, current, ds)
    ensures AllBind(root, ds)
    ensures Installed(root, a, b, Items(root, ds), ObsoletePaths(root, current, Owneds(ds)),
      Desired(current, Owneds(ds)))
    ensures Describes(b, root, Desired(current, Owneds(ds)))
  {
  }

  lemma AcceptableParts(names: Names, root: Path, current: Files, ds: seq<Destination>)
    requires Acceptable(names, root, current, ds)
    ensures AllAdmissible(names, root, current, ds) && BindsApart(root, ds) && AllBind(root, ds)
    ensures Compatible(current, Owneds(ds))
  {
  }

  // -------------------------------------------------------------------- runs

  lemma LockApart(root: Path, names: Names, g: Object)
    ensures Agree(root, names, names[LockPath(root) := g])
  {
    hide Private;
  }

  lemma LockGone(root: Path, names: Names)
    ensures Agree(root, names, names - {LockPath(root)})
  {
    hide Private;
  }

  lemma UsedApart(root: Path, names: Names, used: set<Path>)
    requires forall q :: q in used ==> Private(root, q)
    ensures Agree(root, names, names - used)
  {
    hide Private;
  }

  lemma LockNotIn(root: Path)
    ensures !InScheme(root, LockPath(root)) && !Private(root, LockPath(root)) && LockPath(root) !in FixedPaths(root)
  {
    TempName(root, "");
    assert Prefix(root, LockPath(root));
    if InScheme(root, LockPath(root)) {
      SchemeApart(root, root + [COMMIT_PREFIX + ""], LockPath(root));
    }
    FixedNotPrivate(root);
  }

  /** Holding the lock does not change what is acceptable. */
  lemma AcceptableLocked(root: Path, names: Names, g: Object, current: Files, ds: seq<Destination>)
    requires SourcesPrivate(root, ds)
    ensures Acceptable(names[LockPath(root) := g], root, current, ds) <==> Acceptable(names, root, current, ds)
  {
    hide *;
    var locked := names[LockPath(root) := g];
    forall i | 0 <= i < |ds|
      ensures Admissible(locked, root, current, ds[i]) <==> Admissible(names, root, current, ds[i]) {
      OneSource(root, ds, i);
      AdmissibleLocked(root, names, g, current, ds[i]);
    }
    AcceptableEach(names, locked, root, current, ds);
  }

  lemma OneSource(root: Path, ds: seq<Destination>, i: nat)
    requires SourcesPrivate(root, ds) && i < |ds|
    ensures Private(root, ds[i].source)
  {
    hide Private;
    assert ds[i] in ds;
  }

  lemma AcceptableEach(a: Names, b: Names, root: Path, current: Files, ds: seq<Destination>)
    requires forall i ::
      0 <= i < |ds| ==> (Admissible(a, root, current, ds[i]) <==> Admissible(b, root, current, ds[i]))
    ensures Acceptable(a, root, current, ds) <==> Acceptable(b, root, current, ds)
  {
    hide Admissible, BindsApart, Compatible;
  }

  lemma AdmissibleLocked(root: Path, names: Names, g: Object, current: Files, d: Destination)
    requires Private(root, d.source)
    ensures Admissible(names[LockPath(root) := g], root, current, d) <==> Admissible(names, root, current, d)
  {
    hide *;
    LockNotIn(root);
    if Bind(root, d).Some? {
      BindIsFinal(root, d);
      FinalInSomeScheme(root, d.owned);
      var p := Bind(root, d).value;
      forall k | 0 <= k <= |Up(p)| ensures Up(p)[..k] != LockPath(root) {
        NotAboveScheme(root, p, k);
      }
      FreezableLocked(names, root, g, p);
    }
    AdmissibleSame(names, root, g, current, d);
  }

  lemma NotAboveScheme(root: Path, p: Path, k: nat)
    requires InScheme(root, p) && k <= |Up(p)|
    ensures Up(p)[..k] != LockPath(root)
  {
    var lock := LockPath(root);
    SchemeStart(root, p);
    assert |lock| == |root| + 1 && lock[|root|] == ".heliopause-pypi-transaction.lock";
    assert k > |root| ==> Up(p)[..k][|root|] == p[|root|];
  }

  lemma FreezableLocked(names: Names, root: Path, g: Object, p: Path)
    requires forall k :: 0 <= k <= |Up(p)| ==> Up(p)[..k] != LockPath(root)
    ensures Freezable(names[LockPath(root) := g], Up(p)) <==> Freezable(names, Up(p))
  {
    hide LockPath;
  }

  lemma AdmissibleSame(names: Names, root: Path, g: Object, current: Files, d: Destination)
    requires Private(root, d.source) && !Private(root, LockPath(root)) && !InScheme(root, LockPath(root))
    requires Bind(root, d).Some? ==>
      InScheme(root, Bind(root, d).value)
      && (Freezable(names[LockPath(root) := g], Up(Bind(root, d).value)) <==> Freezable(names, Up(Bind(root, d).value)))
    ensures Admissible(names[LockPath(root) := g], root, current, d) <==> Admissible(names, root, current, d)
  {
    hide Private, InScheme, LockPath, Bind, ValidOwners, HoldsBytes, Freezable;
  }

  /** A commit of this update, without a fault, ends in recovery only here: what
      is asked for can be admitted, and one destination lies below another. */
  ghost predicate Jammed(root: Path, a: Names, ds: seq<Destination>) {
    ReadState(a, root).Some? && Acceptable(a, root, ReadState(a, root).value, ds) && !Untangled(root, ds)
  }

  /** One session, from the names before to the names after, with as many faults:
      refused while the lock is held; otherwise nothing that promotion looks at
      changed, or the update was committed; or the lock stays, for a fault or for
      a destination below another, and even then nothing managed is lost. */
  ghost predicate SessionStep(root: Path, a: Names, b: Names, ds: seq<Destination>, faults: nat) {
    if LockPath(root) in a then b == a
    else if LockPath(root) in b then (faults > 0 || Jammed(root, a, ds)) && NothingLost(root, a, b, ds)
    else Tree(b) && (Agree(root, a, b) || Renewed(root, a, b, ds))
  }

  /** The update was committed, and nothing else has changed. */
  ghost predicate Renewed(root: Path, a: Names, b: Names, ds: seq<Destination>) {
    exists current, locked, left :: CommittedStep(root, a, b, current, ds, locked, left)
  }

  /** Every managed file and the metadata are there: where they were, or each under
      its own number in a backup directory. */
  ghost predicate Salvageable(root: Path, a: Names, b: Names) {
    && ReadState(a, root).Some?
    && exists backup :: BackupPath(root, backup) && Saved(root, a, b, backup, ReadState(a, root).value)
  }

  /** The old state is untouched or can be put together again, or the new one is in
      place. */
  ghost predicate NothingLost(root: Path, a: Names, b: Names, ds: seq<Destination>) {
    || Agree(root, a, b) || Renewed(root, a, b, ds)
    || Salvageable(root, a, b) || exists start, backup :: NewInPlace(root, a, b, start, backup, ds)
  }

  /** What an update that ended in recovery has put in place. */
  ghost predicate NewInPlace(root: Path, a: Names, b: Names, start: Names, backup: Path, ds: seq<Destination>) {
    && Agree(root, a, start) && ReadState(start, root).Some? && BackupPath(root, backup)
    && Committed(root, start, Outside(b, backup), ReadState(start, root).value, ds)
  }

  /** An update that was acceptable was committed in between. */
  ghost predicate CommittedStep(root: Path, a: Names, b: Names, current: Files, ds: seq<Destination>, locked: Names,
      left: Names) {
    && Agree(root, a, locked) && Tree(locked) && ReadState(locked, root) == Some(current)
    && Acceptable(locked, root, current, ds) && SourcesPrivate(root, ds)
    && Committed(root, locked, left, current, ds) && Tree(left) && Agree(root, left, b)
  }

  /** Between sessions only private paths change. */
  ghost predicate WorkspaceStep(root: Path, a: Names, b: Names) {
    && Tree(b) && Agree(root, a, b) && (LockPath(root) in a <==> LockPath(root) in b)
  }

  /** What happens to an environment: a session, with the update it was for and
      the faults it met, or work in private places. */
  datatype Work = Session(ds: seq<Destination>, faults: nat) | Workspace

  ghost predicate WorkStep(root: Path, a: Names, b: Names, w: Work) {
    match w
    case Session(ds, faults) => SessionStep(root, a, b, ds, faults)
    case Workspace => WorkspaceStep(root, a, b)
  }

  ghost predicate Run(root: Path, run: seq<Names>, works: seq<Work>) {
    && |run| == |works| + 1
    && forall i :: 0 <= i < |works| ==> WorkStep(root, run[i], run[i + 1], works[i])
  }

  /** The session that took the lock and kept it, and why; and what it left. */
  ghost predicate KeptLock(root: Path, a: Names, b: Names, w: Work) {
    && LockPath(root) !in a && LockPath(root) in b
    && w.Session? && (w.faults > 0 || Jammed(root, a, w.ds)) && NothingLost(root, a, b, w.ds)
  }

  lemma SessionKeeps(root: Path, a: Names, b: Names, ds: seq<Destination>, faults: nat)
    requires SessionStep(root, a, b, ds, faults) && Wholesome(a, root) && LockPath(root) !in a
    ensures if LockPath(root) in b then (faults > 0 || Jammed(root, a, ds)) && NothingLost(root, a, b, ds)
      else Wholesome(b, root)
  {
    hide Agree, Tree, Wholesome, Acceptable, Committed, SourcesPrivate, LockPath, ReadState, Untangled, Salvageable;
    if LockPath(root) !in b {
      if Agree(root, a, b) {
        AgreeWholesome(root, a, b);
      } else {
        var current, locked, left :| CommittedStep(root, a, b, current, ds, locked, left);
        AgreeWholesome(root, a, locked);
        CommittedWholesome(root, locked, left, current, ds);
        AgreeWholesome(root, left, b);
      }
    }
  }

  lemma WorkKeeps(root: Path, a: Names, b: Names, w: Work)
    requires WorkStep(root, a, b, w) && Wholesome(a, root) && LockPath(root) !in a
    ensures if LockPath(root) in b then KeptLock(root, a, b, w) else Wholesome(b, root)
  {
    hide SessionStep, WorkspaceStep, Wholesome, LockPath, Jammed, NothingLost;
    match w {
      case Session(ds, faults) => SessionKeeps(root, a, b, ds, faults);
      case Workspace => WorkspaceKeeps(root, a, b);
    }
  }

  /** Over any run of updates and of work in private places, the environment stays
      one that the next update can begin in, until one of the sessions keeps the
      lock: that session has met a fault, or its update has a destination below
      another. */
  lemma {:induction false} RunsStayWholesome(root: Path, run: seq<Names>, works: seq<Work>, k: nat)
    requires Run(root, run, works) && Wholesome(run[0], root) && LockPath(root) !in run[0] && k < |run|
    ensures if LockPath(root) in run[k] then exists i :: 0 <= i < k && KeptLock(root, run[i], run[i + 1], works[i])
      else Wholesome(run[k], root)
  {
    hide *;
    if k > 0 {
      RunHere(root, run, works, k - 1);
      RunsStayWholesome(root, run, works, k - 1);
      var a, b := run[k - 1], run[k];
      if LockPath(root) in a {
        var i :| 0 <= i < k - 1 && KeptLock(root, run[i], run[i + 1], works[i]);
        LockedStays(root, a, b, works[k - 1]);
      } else {
        WorkKeeps(root, a, b, works[k - 1]);
        assert LockPath(root) in b ==> KeptLock(root, run[k - 1], run[k - 1 + 1], works[k - 1]);
      }
    }
  }

  lemma RunHere(root: Path, run: seq<Names>, works: seq<Work>, i: nat)
    requires Run(root, run, works) && i + 1 < |run|
    ensures |run| == |works| + 1 && WorkStep(root, run[i], run[i + 1], works[i])
  {
    hide WorkStep;
  }

  /** No self-lockout: any number of untangled updates that meet no fault leave an
      environment that is not locked and that the next update can begin in. */
  lemma CalmRunsStayOpen(root: Path, run: seq<Names>, works: seq<Work>, k: nat)
    requires Run(root, run, works) && Wholesome(run[0], root) && LockPath(root) !in run[0] && k < |run|
    requires forall w :: w in works && w.Session? ==> w.faults == 0 && Untangled(root, w.ds)
    ensures Wholesome(run[k], root) && LockPath(root) !in run[k]
  {
    hide WorkStep, Wholesome, LockPath, Untangled, Acceptable, ReadState;
    forall i | 0 <= i < k ensures !KeptLock(root, run[i], run[i + 1], works[i]) {
      assert works[i] in works;
    }
    RunsStayWholesome(root, run, works, k);
  }

  lemma LockedStays(root: Path, a: Names, b: Names, w: Work)
    requires WorkStep(root, a, b, w) && LockPath(root) in a
    ensures LockPath(root) in b
  {
    hide Agree, Tree, LockPath, Renewed, Jammed, NothingLost;
  }

  lemma WorkspaceKeeps(root: Path, a: Names, b: Names)
    requires WorkspaceStep(root, a, b) && Wholesome(a, root) && LockPath(root) !in a
    ensures Wholesome(b, root) && LockPath(root) !in b
  {
    hide Agree, Tree, LockPath, Wholesome;
    AgreeWholesome(root, a, b);
  }

  lemma AgreeItself(root: Path, a: Names)
    ensures Agree(root, a, a)
  {
  }

  lemma RefusedStep(root: Path, a: Names, b: Names, ds: seq<Destination>, faults: nat)
    requires Tree(b) && Agree(root, a, b)
    requires b == a || (LockPath(root) !in a && LockPath(root) in b && faults > 0)
    ensures SessionStep(root, a, b, ds, faults)
  {
    hide Tree, LockPath, Renewed, Jammed, Salvageable, Agree;
    AgreeItself(root, a);
  }

  lemma UsedAreApart(root: Path, names: Names, ds: seq<Destination>, used: set<Path>)
    requires SourcesPrivate(root, ds) && used <= SourcesUsed(ds)
    ensures Agree(root, names, names - used)
  {
    hide Private;
    UsedApart(root, names, used);
  }

  /** What a closed session has done is one step of a run. */
  lemma ClosedStep(root: Path, a: Names, locked: Names, left: Names, b: Names, current: Files, ds: seq<Destination>,
                   ok: bool, recovery: bool, backup: Path, closed: bool, faults: nat)
    requires LockPath(root) !in a && Agree(root, a, locked) && Tree(locked) && ReadState(locked, root) == Some(current)
    requires SourcesPrivate(root, ds) && Tree(left) && Tree(b) && LockPath(root) in left
    requires ok ==> !recovery && Acceptable(locked, root, current, ds) && Committed(root, locked, left, current, ds)
    requires !ok && !recovery ==> exists used :: used <= SourcesUsed(ds) && left == locked - used
    requires b == if closed && !recovery then left - {LockPath(root)} else left
    requires recovery ==> BackupPath(root, backup)
    requires recovery ==>
      Committed(root, locked, Outside(left, backup), current, ds) || Saved(root, locked, left, backup, current)
    requires faults == 0 ==> closed && (recovery ==> Jammed(root, a, ds))
    ensures SessionStep(root, a, b, ds, faults)
    ensures ok ==> Renewed(root, a, b, ds)
    ensures !ok && !recovery ==> Agree(root, a, b)
    ensures recovery ==> Salvageable(root, a, b) || exists start, where :: NewInPlace(root, a, b, start, where, ds)
  {
    hide Agree, Tree, LockPath, ReadState, SourcesPrivate, Acceptable, Committed, SourcesUsed, Jammed, Saved, Outside;
    hide BackupPath;
    LeftAgrees(root, left, b);
    if ok {
      assert CommittedStep(root, a, b, current, ds, locked, left);
    } else if !recovery {
      var used :| used <= SourcesUsed(ds) && left == locked - used;
      UsedAreApart(root, locked, ds, used);
      AgreeThrough(root, a, locked, left);
      AgreeThrough(root, a, left, b);
    } else {
      AgreeRead(root, a, locked);
      if Saved(root, locked, left, backup, current) {
        AgreeSaved(root, a, locked, left, backup, current);
        assert BackupPath(root, backup) && Saved(root, a, b, backup, ReadState(a, root).value);
      } else {
        assert NewInPlace(root, a, b, locked, backup, ds);
      }
    }
  }

  lemma LeftAgrees(root: Path, left: Names, b: Names)
    requires b == left || b == left - {LockPath(root)}
    ensures Agree(root, left, b)
  {
    hide LockPath;
    AgreeItself(root, left);
    LockGone(root, left);
  }

  /** What is managed does not depend on the lock or on private places. */
  lemma AgreeSaved(root: Path, a: Names, start: Names, names: Names, backup: Path, current: Files)
    requires Agree(root, a, start) && Saved(root, start, names, backup, current)
    ensures Saved(root, a, names, backup, current)
  {
    hide Agree, Final, Conserved, InScheme, LockPath, Private;
    FixedNotPrivate(root);
    forall p | exists key :: key in current && Final(root, current[key]) == Some(p)
      ensures (p in a <==> p in start) && (p in a ==> a[p] == start[p])
    {
      var key :| key in current && Final(root, current[key]) == Some(p);
      FinalInSomeScheme(root, current[key]);
      SchemeNotLock(root, p);
      AgreeAt(root, a, start, p);
    }
    AgreeAt(root, a, start, MetadataPath(root));
    assert ManagedIn(a, root, current) == ManagedIn(start, root, current);
    assert MetadataIn(a, root) == MetadataIn(start, root);
  }

  lemma AgreeAt(root: Path, a: Names, b: Names, p: Path)
    requires Agree(root, a, b) && !Private(root, p) && p != LockPath(root)
    ensures (p in a <==> p in b) && (p in a ==> a[p] == b[p])
  {
  }

  lemma WholesomeStarts(names: Names, root: Path)
    ensures Wholesome(names, root) ==>
      Startable(names, root) && ReadState(names, root).Some? && InjectiveFinals(root, ReadState(names, root).value)
  {
    hide Tree, Laid, BackupPath, ReadState, VerifyState, InjectiveFinals, OneVersion;
  }
}
