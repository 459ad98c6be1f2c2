/** The tables a promotion commits come from RECORD files of a private workspace
    in the environment.  No such table has a destination below another. */
module VenvTables {
  import opened Wrappers
  import opened Text
  import opened Records
  import opened FileSystem
  import opened Ownership
  import opened Frames
  import opened Layout
  import opened Geometry
  import opened Sorting
  import opened InstalledRecords
  import opened RecordMerge
  import opened VenvPlan
  import opened VenvPrepare
  import opened VenvOpening
  import opened VenvResult
  import opened VenvRuns

  const WORK_PREFIX := ".haa-pypi-work-"

  /** The private workspace of a promotion. */
  predicate WorkPath(root: Path, base: Path) {
    && |base| == |root| + 1 && base[..|root|] == root
    && |base[|root|]| >= 15 && base[|root|][..15] == WORK_PREFIX
  }

  /** A table that the validation of RECORD files gives. */
  ghost predicate Promoted(root: Path, table: seq<Destination>) {
    exists base, expected, installed, files ::
      && WorkPath(root, base) && Promotable(base, expected, installed, files)
      && IsTable(AllClaims(base, expected, installed), table)
  }

  /** The entry is where some line of a RECORD file says. */
  ghost predicate Entered(base: Path, d: Destination) {
    exists info, value ::
      ResolveRecord(base, info, value) == Some(Resolved(d.owned.scheme, d.owned.relative, d.source))
  }

  lemma TableEntered(base: Path, expected: map<string, Owner>, installed: seq<Installed>, files: set<Path>,
      table: seq<Destination>)
    requires Promotable(base, expected, installed, files) && IsTable(AllClaims(base, expected, installed), table)
    ensures forall d :: d in table ==> Entered(base, d)
  {
    hide ResolveRecord, EntryFor, ExactSet, AllGood, Mergeable;
    AllDerived(base, expected, installed);
    forall d | d in table ensures Entered(base, d) {
      var c := EntryClaim(AllClaims(base, expected, installed), d);
      assert Derived(base, c);
    }
  }

  /** Source and final path are the same pieces below the root of the scheme, in
      the workspace and in the environment. */
  lemma EntryPieces(root: Path, base: Path, d: Destination)
    requires Entered(base, d)
    ensures OutputRoot(base, d.owned.scheme).Some? && SchemeRoot(root, d.owned.scheme).Some?
    ensures Plain(Split(d.owned.relative)) && |Split(d.owned.relative)| > 0
    ensures d.source == OutputRoot(base, d.owned.scheme).value + Split(d.owned.relative)
    ensures Final(root, d.owned).Some? ==>
      Final(root, d.owned).value == SchemeRoot(root, d.owned.scheme).value + Split(d.owned.relative)
  {
    hide ResolveRecord, Final, Tail;
    var info, value :|
      ResolveRecord(base, info, value) == Some(Resolved(d.owned.scheme, d.owned.relative, d.source));
    ResolvedParts(base, info, value);
    RecordBinds(root, base, info, value, d.owned);
  }

  lemma SchemeOfStart(root: Path, s: string, t: string)
    requires SchemeRoot(root, s).Some? && SchemeRoot(root, t).Some?
    requires SchemeRoot(root, s).value[|root|] == SchemeRoot(root, t).value[|root|]
    ensures s == t
  {
    assert "lib"[0] == 'l' && "bin"[0] == 'b' && "share"[0] == 's' && "include"[0] == 'i';
  }

  lemma SamePieces(a: Path, p: seq<string>, q: seq<string>)
    requires Within(a + p, a + q)
    ensures |p| < |q| && q[..|p|] == p
  {
    assert (a + q)[..|a + p|] == a + q[..|p|];
    assert (a + q[..|p|])[|a|..] == q[..|p|] && (a + p)[|a|..] == p;
  }

  /** A destination is below another only if its source is. */
  lemma SourcesNest(root: Path, base: Path, d: Destination, e: Destination)
    requires Entered(base, d) && Entered(base, e) && Final(root, d.owned).Some? && Final(root, e.owned).Some?
    requires Within(Final(root, d.owned).value, Final(root, e.owned).value)
    ensures Within(d.source, e.source)
  {
    hide Entered, Final, Split, Plain;
    EntryPieces(root, base, d);
    EntryPieces(root, base, e);
    var a, b := SchemeRoot(root, d.owned.scheme).value, SchemeRoot(root, e.owned.scheme).value;
    var p, q := Split(d.owned.relative), Split(e.owned.relative);
    assert (b + q)[..|a + p|] == a + p;
    assert b[|root|] == (b + q)[|root|] == (b + q)[..|a + p|][|root|] == (a + p)[|root|] == a[|root|];
    SchemeOfStart(root, d.owned.scheme, e.owned.scheme);
    SamePieces(a, p, q);
    var output := OutputRoot(base, d.owned.scheme).value;
    assert (output + q)[..|output + p|] == output + q[..|p|];
  }

  /** The source of a destination is a file, so nothing is below it. */
  lemma EnteredUntangled(names: Names, root: Path, base: Path, current: Files, table: seq<Destination>)
    requires Tree(names) && Acceptable(names, root, current, table)
    requires forall d :: d in table ==> Entered(base, d)
    ensures Untangled(root, table)
  {
    hide Entered, Final, Bind, ValidOwners, Freezable, Compatible, BindsApart;
    AcceptableBinds(names, root, current, table);
    var items := Items(root, table);
    forall x, y | x in items && y in items ensures !Within(x.final, y.final) {
      var i :| 0 <= i < |items| && items[i] == x;
      var j :| 0 <= j < |items| && items[j] == y;
      var d, e := table[i], table[j];
      assert Admissible(names, root, current, d) && Admissible(names, root, current, e);
      if Within(x.final, y.final) {
        BindIsFinal(root, d);
        BindIsFinal(root, e);
        assert d in table && e in table;
        SourcesNest(root, base, d, e);
        AncestorIsDir(names, e.source, |d.source|);
      }
    }
  }

  lemma WorkspaceIsPrivate(root: Path, base: Path, p: Path)
    requires WorkPath(root, base) && Prefix(base, p)
    ensures Private(root, p)
  {
    assert p[|root|] == p[..|base|][|root|] == base[|root|];
    var name := base[|root|];
    assert name[1] == WORK_PREFIX[1] == 'h' && name[2] == WORK_PREFIX[2] == 'a';
    assert COMMIT_PREFIX[2] == 'e' && |name| >= 24 ==> name[..24][2] == name[2];
  }

  lemma EnteredPrivate(root: Path, base: Path, d: Destination)
    requires WorkPath(root, base) && Entered(base, d)
    ensures Private(root, d.source)
  {
    hide Entered, Split, Plain, Private, WorkPath;
    EntryPieces(root, base, d);
    assert d.source[..|base|] == base;
    WorkspaceIsPrivate(root, base, d.source);
  }

  lemma TableOneUse(claims: seq<Claim>, table: seq<Destination>)
    requires IsTable(claims, table)
    ensures OneUse(table)
  {
    hide EntryFor;
    forall i, j | 0 <= i < j < |table| ensures table[i].source != table[j].source {
      assert table[i] in table && table[j] in table;
      if table[i].source == table[j].source {
        EntryUnique(claims, claims, table[i], table[j]);
        LessIrreflexive(KeyOf(table[i]));
      }
    }
  }

  /** Every table of a promotion can be committed, uses its sources once, and has
      no destination below another where it is acceptable. */
  lemma PromotedTable(root: Path, table: seq<Destination>)
    requires Promoted(root, table)
    ensures SourcesPrivate(root, table) && OneUse(table) && AllPlain(table)
    ensures forall names, current :: Tree(names) && Acceptable(names, root, current, table) ==> Untangled(root, table)
  {
    hide ExactSet, AllGood, Mergeable, SourcesOf, IsTable, AllClaims, WorkPath, Tree, Acceptable, Untangled, Entered;
    hide Private, Split, Plain;
    var base, expected, installed, files :|
      && WorkPath(root, base) && Promotable(base, expected, installed, files)
      && IsTable(AllClaims(base, expected, installed), table);
    TableEntered(base, expected, installed, files, table);
    TableOneUse(AllClaims(base, expected, installed), table);
    forall d | d in table ensures Private(root, d.source) && Plain(Split(d.owned.relative)) {
      EnteredPrivate(root, base, d);
      EntryPieces(root, base, d);
    }
    forall names, current | Tree(names) && Acceptable(names, root, current, table) ensures Untangled(root, table) {
      EnteredUntangled(names, root, base, current, table);
    }
  }

  /** No promotion locks itself out: whatever tables promotions commit, without a
      fault the environment is never left locked, and the next promotion can
      always begin. */
  lemma PromotionsStayOpen(root: Path, run: seq<Names>, works: seq<Work>, k: nat)
    requires Run(root, run, works) && Wholesome(run[0], root) && LockPath(root) !in run[0] && k < |run|
    requires forall w :: w in works && w.Session? ==> w.faults == 0 && (w.ds == [] || Promoted(root, w.ds))
    ensures Wholesome(run[k], root) && LockPath(root) !in run[k]
  {
    hide WorkStep, Wholesome, LockPath, Untangled, Acceptable, ReadState, Promoted, Tree;
    RunsStayWholesome(root, run, works, k);
    if i :| 0 <= i < k && KeptLock(root, run[i], run[i + 1], works[i]) {
      assert works[i] in works;
      RunsStayWholesome(root, run, works, i);
      WholesomeTree(run[i], root);
      EmptyUntangled(root);
      if works[i].ds != [] {
        PromotedTable(root, works[i].ds);
      }
    }
  }

  lemma EmptyUntangled(root: Path)
    ensures Untangled(root, []) && OneUse([])
  {
  }

  lemma WholesomeTree(names: Names, root: Path)
    requires Wholesome(names, root)
    ensures Tree(names)
  {
  }
}
