/** What `prepare` accepts, and the plan it makes of it. */
module VenvPrepare {
  import opened Wrappers
  import opened Text
  import Sorting
  import opened Records
  import opened FileSystem
  import opened Ownership
  import opened Frames
  import opened Layout
  import opened Geometry
  import opened VenvState
  import opened VenvPlan
  import opened VenvOutcome
  import opened VenvUndo

  // ----------------------------------------------------------------- freezing

  /** Nothing but directories on the way to a path. */
  predicate Freezable(names: Names, p: Path) {
    forall k :: 0 <= k <= |p| && p[..k] in names ==> names[p[..k]].Dir?
  }

  /** What is frozen is what is on the disk. */
  ghost predicate FrameTrue(names: Names, f: Frame) {
    && (forall q :: q in f.directories ==> SameDirectory(names, f.directories, q))
    && (forall q :: q in f.absent ==> q !in names)
  }

  /** `g` is `f` with some of the paths above `p` frozen as well. */
  ghost predicate Froze(f: Frame, g: Frame, p: Path) {
    && g.root == f.root && g.guard == f.guard && g.config == f.config
    && (forall q :: q in f.directories ==> q in g.directories && g.directories[q] == f.directories[q])
    && f.absent <= g.absent
    && (forall q :: Known(g, q) && !Known(f, q) ==> Prefix(q, p))
  }

  lemma FrozeNone(f: Frame, p: Path)
    ensures Froze(f, f, p)
  {
  }

  /** One path frozen, next to what was frozen before. */
  function Frozen1(names: Names, f: Frame, q: Path): Frame {
    if q in f.directories || q in f.absent then f
    else if q !in names then f.(absent := f.absent + {q})
    else f.(directories := f.directories[q := names[q]])
  }

  lemma FrozeOne(names: Names, f: Frame, g: Frame, q: Path, p: Path)
    requires Froze(f, g, p) && FrameTrue(names, g) && Prefix(q, p) && (q in names ==> names[q].Dir?)
    ensures Froze(f, Frozen1(names, g, q), p) && FrameTrue(names, Frozen1(names, g, q))
    ensures Known(Frozen1(names, g, q), q) && forall r :: Known(g, r) ==> Known(Frozen1(names, g, q), r)
    ensures forall r :: Known(Frozen1(names, g, q), r) ==> Known(g, r) || r == q
  {
    var h := Frozen1(names, g, q);
    forall r | r in h.directories ensures SameDirectory(names, h.directories, r) {
      if r in g.directories {
        assert SameDirectory(names, g.directories, r);
      }
    }
  }

  /** A known path is frozen as what it is. */
  lemma KnownTrue(names: Names, f: Frame, q: Path)
    requires FrameTrue(names, f) && Known(f, q)
    ensures q in names ==> names[q].Dir? && q in f.directories
    ensures q !in names ==> q in f.absent
  {
    if q in f.directories {
      assert SameDirectory(names, f.directories, q);
    }
  }

  lemma FrozeCovers(f: Frame, g: Frame, p: Path, q: Path)
    requires Froze(f, g, p) && Covers(f, q)
    ensures Covers(g, q)
  {
    CoversGrow(f, g, q);
  }

  // -------------------------------------------------------------- acceptance

  function Owneds(ds: seq<Destination>): (news: seq<Owned>)
    ensures |news| == |ds| && forall i :: 0 <= i < |ds| ==> news[i] == ds[i].owned
  {
    seq(|ds|, i requires 0 <= i < |ds| => ds[i].owned)
  }

  /** What one destination needs. */
  predicate Admissible(names: Names, root: Path, current: Files, d: Destination) {
    && Bind(root, d).Some? && ValidOwners(d.owned)
    && d.source in names && HoldsBytes(names[d.source], d.owned)
    && (Key(d.owned) !in current ==> Bind(root, d).value !in names)
    && Freezable(names, Up(Bind(root, d).value))
  }

  predicate BindsApart(root: Path, ds: seq<Destination>) {
    forall i, j :: 0 <= i < j < |ds| ==> Bind(root, ds[i]).None? || Bind(root, ds[i]) != Bind(root, ds[j])
  }

  /** What a whole update needs, apart from the checks that always hold. */
  predicate Acceptable(names: Names, root: Path, current: Files, ds: seq<Destination>) {
    && (forall i :: 0 <= i < |ds| ==> Admissible(names, root, current, ds[i]))
    && BindsApart(root, ds) && Compatible(current, Owneds(ds))
  }

  predicate AllBind(root: Path, ds: seq<Destination>) {
    forall i :: 0 <= i < |ds| ==> Bind(root, ds[i]).Some?
  }

  function Items(root: Path, ds: seq<Destination>): (items: seq<Item>)
    requires AllBind(root, ds)
    ensures |items| == |ds|
    ensures forall i :: 0 <= i < |ds| ==> items[i] == Item(ds[i].owned, ds[i].source, Bind(root, ds[i]).value)
  {
    seq(|ds|, i requires 0 <= i < |ds| => Item(ds[i].owned, ds[i].source, Bind(root, ds[i]).value))
  }

  lemma ItemsApart(root: Path, ds: seq<Destination>)
    requires AllBind(root, ds) && BindsApart(root, ds)
    ensures DistinctFinals(Items(root, ds))
  {
  }

  // ------------------------------------------------------------------ sorting

  function ItemKey(d: Item): string {
    Key(d.owned)
  }

  /** `sort.Slice` by key. */
  function Sorted(items: seq<Item>): (sorted: seq<Item>)
    ensures multiset(sorted) == multiset(items)
    ensures |sorted| == |items|
  {
    Sorting.Sort(items, ItemKey)
  }

  lemma SortedInOrder(items: seq<Item>, j: nat, k: nat)
    requires j < k < |items|
    ensures !Less(ItemKey(Sorted(items)[k]), ItemKey(Sorted(items)[j]))
  {
    Sorting.SortInOrder(items, ItemKey);
  }

  lemma SameElements(a: seq<Item>, b: seq<Item>)
    requires multiset(a) == multiset(b)
    ensures forall d :: d in a <==> d in b
    ensures Finals(a) == Finals(b) && Sources(a) == Sources(b)
  {
    forall d ensures d in a <==> d in b {
      assert d in multiset(a) <==> d in a;
      assert d in multiset(b) <==> d in b;
    }
  }

  lemma DistinctByCount(items: seq<Item>)
    ensures DistinctFinals(items) <==> |Finals(items)| == |items|
    ensures DistinctSources(items) <==> |Sources(items)| == |items|
  {
    FinalsCount(items);
    SourcesCount(items);
  }

  lemma {:induction false} FinalsCount(items: seq<Item>)
    ensures |Finals(items)| <= |items|
    ensures DistinctFinals(items) <==> |Finals(items)| == |items|
  {
    if |items| > 0 {
      var n := |items| - 1;
      var init := items[..n];
      assert items == init + [items[n]];
      FinalsSnoc(init, items[n]);
      FinalsCount(init);
      if DistinctFinals(items) {
        DistinctInit(init, items[n]);
      } else if DistinctFinals(init) {
        DistinctSnoc(init, items[n]);
      }
    }
  }

  lemma {:induction false} SourcesCount(items: seq<Item>)
    ensures |Sources(items)| <= |items|
    ensures DistinctSources(items) <==> |Sources(items)| == |items|
  {
    if |items| > 0 {
      var n := |items| - 1;
      var init := items[..n];
      assert items == init + [items[n]];
      FinalsSnoc(init, items[n]);
      SourcesCount(init);
      if items[n].source in Sources(init) {
        var e :| e in init && e.source == items[n].source;
        var i :| 0 <= i < n && init[i] == e;
        assert items[i].source == items[n].source;
      } else if DistinctSources(init) {
        forall i, j | 0 <= i < j < |items| ensures items[i].source != items[j].source {
          if j == n {
            assert init[i] in init;
          } else {
            assert init[i].source != init[j].source;
          }
        }
      } else {
        var i, j :| 0 <= i < j < n && init[i].source == init[j].source;
        assert items[i].source == items[j].source;
      }
    }
  }

  /** Sorting changes neither what there is nor whether it is distinct. */
  lemma SortedSame(items: seq<Item>)
    ensures forall d :: d in Sorted(items) <==> d in items
    ensures Finals(Sorted(items)) == Finals(items) && Sources(Sorted(items)) == Sources(items)
    ensures DistinctFinals(Sorted(items)) <==> DistinctFinals(items)
    ensures DistinctSources(Sorted(items)) <==> DistinctSources(items)
    ensures PrefixFree(Sorted(items)) <==> PrefixFree(items)
  {
    SameElements(Sorted(items), items);
    DistinctByCount(items);
    DistinctByCount(Sorted(items));
  }

  // ----------------------------------------------------------------- projects

  /** The versions of the distributions these files name. */
  ghost predicate ProjectsOf(projects: map<string, string>, news: seq<Owned>) {
    && (forall name :: name in projects ==> Updated(news, name))
    && (forall d, o :: d in news && o in Owners(d) ==>
        o.distribution in projects && projects[o.distribution] == o.version)
  }

  lemma ProjectsAreUpdated(projects: map<string, string>, news: seq<Owned>)
    requires ProjectsOf(projects, news)
    ensures forall name :: name in projects <==> Updated(news, name)
    ensures forall d, e :: d in news && e in news ==> SameVersion(d, e)
  {
    forall name | Updated(news, name) ensures name in projects {
      var d :| d in news && NamesDistribution(d, name);
      var o :| o in Owners(d) && o.distribution == name;
    }
  }

  ghost predicate AmongFirst(owners: seq<Owner>, j: nat, name: string) {
    exists i :: 0 <= i < j <= |owners| && owners[i].distribution == name
  }

  /** The owners of one more file, some of them. */
  ghost predicate ProjectsUpTo(projects: map<string, string>, news: seq<Owned>, owners: seq<Owner>, j: nat) {
    && j <= |owners|
    && (forall name :: name in projects ==> Updated(news, name) || AmongFirst(owners, j, name))
    && (forall e, o :: e in news && o in Owners(e) ==>
        o.distribution in projects && projects[o.distribution] == o.version)
    && (forall i :: 0 <= i < j ==>
        owners[i].distribution in projects && projects[owners[i].distribution] == owners[i].version)
  }

  lemma ProjectsStart(projects: map<string, string>, news: seq<Owned>, owners: seq<Owner>)
    requires ProjectsOf(projects, news)
    ensures ProjectsUpTo(projects, news, owners, 0)
  {
  }

  lemma ProjectsEnd(projects: map<string, string>, news: seq<Owned>, d: Owned)
    requires ProjectsUpTo(projects, news, Owners(d), |Owners(d)|)
    ensures ProjectsOf(projects, news + [d])
  {
    forall e, o | e in news + [d] && o in Owners(e)
      ensures o.distribution in projects && projects[o.distribution] == o.version
    {
      if e !in news {
        var i :| 0 <= i < |Owners(d)| && Owners(d)[i] == o;
      }
    }
    forall name | name in projects ensures Updated(news + [d], name) {
      if Updated(news, name) {
        var e :| e in news && NamesDistribution(e, name);
        assert e in news + [d];
      } else {
        var i :| 0 <= i < |Owners(d)| && Owners(d)[i].distribution == name;
        assert Owners(d)[i] in Owners(d) && d in news + [d];
      }
    }
  }

  lemma ProjectsStep(projects: map<string, string>, news: seq<Owned>, owners: seq<Owner>, j: nat)
    requires ProjectsUpTo(projects, news, owners, j) && j < |owners|
    requires owners[j].distribution in projects ==> projects[owners[j].distribution] == owners[j].version
    ensures ProjectsUpTo(projects[owners[j].distribution := owners[j].version], news, owners, j + 1)
  {
    hide Owners, Updated;
    var o := owners[j];
    var more := projects[o.distribution := o.version];
    forall name | name in more ensures Updated(news, name) || AmongFirst(owners, j + 1, name) {
      if name == o.distribution {
        assert owners[j].distribution == name;
      } else if !Updated(news, name) {
        var i :| 0 <= i < j && owners[i].distribution == name;
      }
    }
  }

  /** A version that differs comes from another of the files. */
  lemma ProjectsConflict(projects: map<string, string>, news: seq<Owned>, d: Owned, j: nat)
    requires ProjectsUpTo(projects, news, Owners(d), j) && j < |Owners(d)|
    requires Owners(d)[j].distribution in projects && projects[Owners(d)[j].distribution] != Owners(d)[j].version
    requires forall i, k :: 0 <= i < k < |Owners(d)| ==> Owners(d)[i].distribution != Owners(d)[k].distribution
    ensures exists e :: e in news && !SameVersion(e, d)
  {
    var o := Owners(d)[j];
    var e :| e in news && NamesDistribution(e, o.distribution);
    var p :| p in Owners(e) && p.distribution == o.distribution;
    assert o in Owners(d) && p.version == projects[p.distribution];
    assert !SameVersion(e, d);
  }

  /** The owners of a valid destination are distinct. */
  lemma {:induction false} OwnersDistinct(owners: seq<Owner>, i: nat, k: nat)
    requires forall m :: 0 < m < |owners| ==> Less(owners[m - 1].distribution, owners[m].distribution)
    requires i < k < |owners|
    ensures Less(owners[i].distribution, owners[k].distribution)
    decreases k - i
  {
    if k > i + 1 {
      OwnersDistinct(owners, i, k - 1);
      LessTransitive(owners[i].distribution, owners[k - 1].distribution, owners[k].distribution);
    }
  }

  lemma ValidOwnersDistinct(d: Owned)
    requires ValidOwners(d)
    ensures forall i, k :: 0 <= i < k < |Owners(d)| ==> Owners(d)[i].distribution != Owners(d)[k].distribution
    ensures forall o :: o in Owners(d) ==> o.version != ""
  {
    forall i, k | 0 <= i < k < |Owners(d)| ensures Owners(d)[i].distribution != Owners(d)[k].distribution {
      OwnersDistinct(Owners(d), i, k);
      LessIrreflexive(Owners(d)[i].distribution);
    }
  }

  lemma NoEmptyVersion(joined: map<string, string>, news: seq<Owned>, d: Owned, j: nat)
    requires ProjectsUpTo(joined, news, Owners(d), j) && ValidOwners(d) && forall e :: e in news ==> ValidOwners(e)
    ensures forall name :: name in joined ==> joined[name] != ""
  {
    hide ValidOwners;
    ValidOwnersDistinct(d);
    forall name | name in joined ensures joined[name] != "" {
      if Updated(news, name) {
        var e :| e in news && NamesDistribution(e, name);
        ValidOwnersDistinct(e);
        var o :| o in Owners(e) && o.distribution == name;
      } else {
        var i :| 0 <= i < j && Owners(d)[i].distribution == name;
        assert Owners(d)[i] in Owners(d);
      }
    }
  }

  /** One more destination among the projects of an update. */
  method JoinProjects(projects: map<string, string>, d: Owned, ghost news: seq<Owned>)
    returns (ok: bool, joined: map<string, string>)
    requires ProjectsOf(projects, news) && ValidOwners(d) && forall e :: e in news ==> ValidOwners(e)
    ensures ok ==> ProjectsOf(joined, news + [d])
    ensures ok <==> forall e :: e in news ==> SameVersion(e, d)
  {
    hide ValidOwners, ProjectsUpTo, ProjectsOf;
    ValidOwnersDistinct(d);
    ok, joined := true, projects;
    var owners := Owners(d);
    var j := 0;
    ProjectsStart(projects, news, owners);
    while ok && j < |owners|
      invariant 0 <= j <= |owners|
      invariant ok ==> ProjectsUpTo(joined, news, owners, j)
      invariant !ok ==> exists e :: e in news && !SameVersion(e, d)
      decreases ok, |owners| - j
    {
      var o := owners[j];
      assert o in owners;
      if o.distribution in joined && joined[o.distribution] != "" && joined[o.distribution] != o.version {
        ProjectsConflict(joined, news, d, j);
        ok := false;
      } else {
        NoEmptyVersion(joined, news, d, j);
        ProjectsStep(joined, news, owners, j);
        joined := joined[o.distribution := o.version];
        j := j + 1;
      }
    }
    if ok {
      ProjectsEnd(joined, news, d);
      ProjectsAreUpdated(joined, news + [d]);
    }
  }

  // ---------------------------------------------------------------- admission

  ghost predicate AllAdmissible(names: Names, root: Path, current: Files, ds: seq<Destination>) {
    forall i :: 0 <= i < |ds| ==> Admissible(names, root, current, ds[i])
  }

  /** Beside the managed paths `before` says that nothing is at the new ones. */
  ghost predicate BeforeGrew(names: Names, start: Before, before: Before, finals: set<Path>) {
    && before.Keys == start.Keys + finals
    && (forall p :: p in start ==> before[p] == start[p])
    && (forall p :: p in before && p !in start ==> before[p].None? && p !in names)
  }

  ghost predicate OutputsTaken(names: Names, outputs: Names, items: seq<Item>) {
    && outputs.Keys == Finals(items)
    && (forall d :: d in items ==> d.source in names && outputs[d.final] == names[d.source])
  }

  /** These destinations have been looked at, and all was well. */
  ghost predicate Admitted(names: Names, root: Path, current: Files, start: Before, before: Before, outputs: Names,
      ds: seq<Destination>) {
    && AllAdmissible(names, root, current, ds) && BindsApart(root, ds)
    && BeforeGrew(names, start, before, Finals(Items(root, ds)))
    && OutputsTaken(names, outputs, Items(root, ds))
  }

  lemma AllAdmissibleSnoc(names: Names, root: Path, current: Files, ds: seq<Destination>, d: Destination)
    requires AllAdmissible(names, root, current, ds) && Admissible(names, root, current, d)
    ensures AllAdmissible(names, root, current, ds + [d])
  {
    hide Admissible;
  }

  lemma OutputsTakenSnoc(names: Names, outputs: Names, items: seq<Item>, d: Item)
    requires OutputsTaken(names, outputs, items) && d.source in names && d.final !in Finals(items)
    ensures OutputsTaken(names, outputs[d.final := names[d.source]], items + [d])
  {
    FinalsSnoc(items, d);
    FinalsMembers(items);
  }

  lemma ItemsSnoc(root: Path, ds: seq<Destination>, d: Destination)
    requires AllBind(root, ds) && Bind(root, d).Some?
    ensures AllBind(root, ds + [d])
    ensures Items(root, ds + [d]) == Items(root, ds) + [Item(d.owned, d.source, Bind(root, d).value)]
    ensures Finals(Items(root, ds + [d])) == Finals(Items(root, ds)) + {Bind(root, d).value}
    ensures Sources(Items(root, ds + [d])) == Sources(Items(root, ds)) + {d.source}
  {
    FinalsSnoc(Items(root, ds), Item(d.owned, d.source, Bind(root, d).value));
    assert Items(root, ds + [d]) == Items(root, ds) + [Item(d.owned, d.source, Bind(root, d).value)];
  }

  lemma BindsApartSnoc(root: Path, ds: seq<Destination>, d: Destination)
    requires AllBind(root, ds) && BindsApart(root, ds) && Bind(root, d).Some?
    ensures BindsApart(root, ds + [d]) <==> Bind(root, d).value !in Finals(Items(root, ds))
  {
    hide Bind;
    if Bind(root, d).value in Finals(Items(root, ds)) {
      var e :| e in Items(root, ds) && e.final == Bind(root, d).value;
      var i :| 0 <= i < |ds| && Items(root, ds)[i] == e;
      assert (ds + [d])[i] == ds[i] && (ds + [d])[|ds|] == d;
    } else {
      forall i, j | 0 <= i < j < |ds + [d]|
        ensures Bind(root, (ds + [d])[i]) != Bind(root, (ds + [d])[j])
      {
        assert i < |ds| && (ds + [d])[i] == ds[i];
        assert Items(root, ds)[i] in Items(root, ds);
      }
    }
  }

  lemma BeforeGrewMore(names: Names, start: Before, before: Before, finals: set<Path>, p: Path)
    requires BeforeGrew(names, start, before, finals)
    ensures p in start ==> BeforeGrew(names, start, before, finals + {p})
    ensures p !in start && p !in names ==> BeforeGrew(names, start, before[p := None], finals + {p})
  {
  }

  lemma AdmittedSnoc(names: Names, root: Path, current: Files, start: Before, before: Before, outputs: Names,
      ds: seq<Destination>, d: Destination)
    requires Admitted(names, root, current, start, before, outputs, ds) && Admissible(names, root, current, d)
    requires Bind(root, d).value !in Finals(Items(root, ds))
    requires Key(d.owned) in current <==> Bind(root, d).value in start
    ensures Admitted(names, root, current, start,
                     if Key(d.owned) in current then before else before[Bind(root, d).value := None],
                     outputs[Bind(root, d).value := names[d.source]], ds + [d])
  {
    AllAdmissibleSnoc(names, root, current, ds, d);
    AllAdmissibleBind(names, root, current, ds);
    BindsApartSnoc(root, ds, d);
    ItemsSnoc(root, ds, d);
    OutputsTakenSnoc(names, outputs, Items(root, ds), Item(d.owned, d.source, Bind(root, d).value));
    BeforeGrewMore(names, start, before, Finals(Items(root, ds)), Bind(root, d).value);
    hide Bind, HoldsBytes, ValidOwners, Freezable, AllAdmissible, OutputsTaken, BindsApart, BeforeGrew, Items, Finals;
  }

  lemma AllAdmissibleBind(names: Names, root: Path, current: Files, ds: seq<Destination>)
    requires AllAdmissible(names, root, current, ds)
    ensures AllBind(root, ds)
  {
  }

  /** What the destinations looked at have added to the frame. */
  ghost predicate FrameReaches(f: Frame, g: Frame, items: seq<Item>) {
    && g.root == f.root && g.guard == f.guard && g.config == f.config
    && (forall q :: q in f.directories ==> q in g.directories && g.directories[q] == f.directories[q])
    && f.absent <= g.absent && KnownUp(g)
    && (forall q :: Known(g, q) && !Known(f, q) ==>
          exists d :: d in items && (Prefix(q, Up(d.source)) || Prefix(q, Up(d.final))))
    && (forall d :: d in items ==> Covers(g, Up(d.source)) && Covers(g, Up(d.final)))
  }

  lemma FrameReachesMore(f: Frame, g: Frame, h: Frame, k: Frame, items: seq<Item>, d: Item)
    requires FrameReaches(f, g, items) && Froze(g, h, Up(d.source)) && Froze(h, k, Up(d.final))
    requires Covers(h, Up(d.source)) && Covers(k, Up(d.final)) && KnownUp(k)
    ensures FrameReaches(f, k, items + [d])
  {
    forall q ensures Known(g, q) ==> Known(k, q) {
      assert Known(g, q) ==> Known(h, q);
    }
    forall e | e in items + [d] ensures Covers(k, Up(e.source)) && Covers(k, Up(e.final)) {
      if e in items {
        CoversGrow(g, k, Up(e.source));
        CoversGrow(g, k, Up(e.final));
      } else {
        CoversGrow(h, k, Up(e.source));
      }
    }
    forall q | Known(k, q) && !Known(f, q)
      ensures exists e :: e in items + [d] && (Prefix(q, Up(e.source)) || Prefix(q, Up(e.final)))
    {
      if Known(g, q) {
        var e :| e in items && (Prefix(q, Up(e.source)) || Prefix(q, Up(e.final)));
        assert e in items + [d];
      } else {
        assert d in items + [d];
      }
    }
  }

  lemma KnownUpFroze(f: Frame, g: Frame, p: Path)
    requires KnownUp(f) && Froze(f, g, p) && Covers(g, p)
    ensures KnownUp(g)
  {
    forall q | Known(g, q) ensures Known(g, Up(q)) {
      if Known(f, q) {
        assert Known(f, Up(q));
      } else {
        assert Up(q) == p[..|Up(q)|];
      }
    }
  }

  lemma SourceFreezable(names: Names, p: Path)
    requires Tree(names) && p in names && names[p].File?
    ensures |p| > 0 && Freezable(names, Up(p))
  {
    forall k | 0 <= k <= |Up(p)| && Up(p)[..k] in names ensures names[Up(p)[..k]].Dir? {
      AncestorIsDir(names, p, k);
      assert Up(p)[..k] == p[..k];
    }
  }

  lemma IdentityTrue(names: Names, f: Frame)
    requires Identity(names, f)
    ensures FrameTrue(names, f)
  {
  }

  lemma IdentityExtended(names: Names, f: Frame, g: Frame)
    requires Identity(names, f) && FrameTrue(names, g) && g.root == f.root && g.guard == f.guard && g.config == f.config
    ensures Identity(names, g)
  {
  }

  /** Where the walk of `freezeParents` has got to. */
  ghost predicate FrozenAbove(names: Names, g: Frame, p: Path, k: nat) {
    k <= |p| + 1
    && forall j :: k <= j <= |p| ==> Known(g, p[..j]) && (p[..j] in names ==> names[p[..j]].Dir?)
  }

  lemma FrozenAll(names: Names, g: Frame, p: Path)
    requires FrozenAbove(names, g, p, 0)
    ensures Covers(g, p) && Freezable(names, p)
  {
  }

  lemma FrozenNext(names: Names, f: Frame, g: Frame, p: Path, k: nat)
    requires FrozenAbove(names, g, p, k + 1) && k <= |p| && Froze(f, g, p) && FrameTrue(names, g)
    requires p[..k] in names ==> names[p[..k]].Dir?
    ensures var h := Frozen1(names, g, p[..k]);
      FrozenAbove(names, h, p, k) && Froze(f, h, p) && FrameTrue(names, h)
  {
    assert Prefix(p[..k], p);
    FrozeOne(names, f, g, p[..k], p);
  }

  lemma NotFreezable(names: Names, p: Path, k: nat)
    requires k <= |p| && p[..k] in names && !names[p[..k]].Dir?
    ensures !Freezable(names, p)
  {
  }

  lemma FrozenFrom(names: Names, g: Frame, p: Path)
    ensures FrozenAbove(names, g, p, |p| + 1)
  {
  }

  /** The managed paths, as far as they can matter to a destination. */
  ghost predicate ManagedStart(names: Names, root: Path, current: Files, start: Before) {
    && (forall p :: p in start ==> p in names)
    && (forall key :: key in current ==>
        key == Key(current[key]) && Final(root, current[key]).Some? && Final(root, current[key]).value in start)
  }

  /** A key determines the final path. */
  lemma SameKeySameFinal(root: Path, d: Owned, e: Owned)
    requires Final(root, d).Some? && Final(root, e).Some? && Key(d) == Key(e)
    ensures Final(root, d) == Final(root, e)
  {
    SchemeOfFinal(root, d);
    SchemeOfFinal(root, e);
    KeyInjective(root, d, e);
  }

  lemma SchemeOfFinal(root: Path, d: Owned)
    requires Final(root, d).Some?
    ensures SchemeRoot(root, d.scheme).Some?
  {
  }

  lemma BindIsFinal(root: Path, d: Destination)
    requires Bind(root, d).Some?
    ensures Final(root, d.owned) == Bind(root, d)
  {
  }

  lemma ManagedKey(names: Names, root: Path, current: Files, start: Before, d: Destination)
    requires ManagedStart(names, root, current, start) && Bind(root, d).Some? && Key(d.owned) in current
    ensures Bind(root, d).value in start
  {
    BindIsFinal(root, d);
    SameKeySameFinal(root, d.owned, current[Key(d.owned)]);
  }

  lemma NotManaged(names: Names, root: Path, current: Files, start: Before, p: Path)
    requires ManagedStart(names, root, current, start)
    ensures p !in names ==> p !in start
  {
  }

  lemma AdmittedBind(names: Names, root: Path, current: Files, start: Before, before: Before, outputs: Names,
      ds: seq<Destination>)
    requires Admitted(names, root, current, start, before, outputs, ds)
    ensures AllBind(root, ds)
  {
  }

  lemma FrozeFixed(f: Frame, g: Frame, p: Path)
    requires Froze(f, g, p)
    ensures g.root == f.root && g.guard == f.guard && g.config == f.config
  {
  }

  lemma OwnedsSnoc(ds: seq<Destination>, k: nat)
    requires k < |ds|
    ensures ds[..k + 1] == ds[..k] + [ds[k]] && Owneds(ds[..k + 1]) == Owneds(ds[..k]) + [ds[k].owned]
  {
  }

  lemma AdmittedOwners(names: Names, root: Path, current: Files, start: Before, before: Before, outputs: Names,
      ds: seq<Destination>)
    requires Admitted(names, root, current, start, before, outputs, ds)
    ensures forall e :: e in Owneds(ds) ==> ValidOwners(e)
  {
    hide ValidOwners, Bind, HoldsBytes, Freezable;
    forall e | e in Owneds(ds) ensures ValidOwners(e) {
      var i :| 0 <= i < |ds| && Owneds(ds)[i] == e;
      assert Admissible(names, root, current, ds[i]);
    }
  }

  lemma NotAdmissible(names: Names, root: Path, current: Files, ds: seq<Destination>, k: nat)
    requires k < |ds| && !Admissible(names, root, current, ds[k])
    ensures !Acceptable(names, root, current, ds)
  {
  }

  lemma NotApart(names: Names, root: Path, current: Files, ds: seq<Destination>, k: nat)
    requires k < |ds| && AllBind(root, ds[..k]) && Bind(root, ds[k]).Some?
    requires Bind(root, ds[k]).value in Finals(Items(root, ds[..k]))
    ensures !Acceptable(names, root, current, ds)
  {
    hide Bind, Admissible, Compatible;
    var e :| e in Items(root, ds[..k]) && e.final == Bind(root, ds[k]).value;
    var i :| 0 <= i < k && Items(root, ds[..k])[i] == e;
    assert ds[..k][i] == ds[i];
    assert Bind(root, ds[i]) == Bind(root, ds[k]);
  }

  lemma NotOneVersion(names: Names, root: Path, current: Files, ds: seq<Destination>, k: nat)
    requires k < |ds| && exists e :: e in Owneds(ds[..k]) && !SameVersion(e, ds[k].owned)
    ensures !Acceptable(names, root, current, ds)
  {
    hide Admissible, SameVersion;
    var e :| e in Owneds(ds[..k]) && !SameVersion(e, ds[k].owned);
    var i :| 0 <= i < k && Owneds(ds[..k])[i] == e;
    assert Owneds(ds)[i] == e && Owneds(ds)[k] == ds[k].owned;
    assert e in Owneds(ds) && ds[k].owned in Owneds(ds);
  }

  lemma NothingAdmitted(names: Names, root: Path, current: Files, start: Before)
    ensures Admitted(names, root, current, start, start, map[], [])
    ensures NewFiles(Owneds([])) == map[] && ProjectsOf(map[], Owneds([]))
  {
  }

  lemma NothingReached(f: Frame)
    requires KnownUp(f)
    ensures FrameReaches(f, f, Items(f.root, []))
  {
  }

  lemma AdmissionBegins(names: Names, root: Path, current: Files, start: Before, f: Frame, ds: seq<Destination>)
    requires KnownUp(f) && f.root == root
    ensures ds[..0] == [] && AllBind(root, ds[..0]) && Finals(Items(root, ds[..0])) == {}
    ensures Admitted(names, root, current, start, start, map[], ds[..0]) && FrameReaches(f, f, Items(root, ds[..0]))
    ensures NewFiles(Owneds(ds[..0])) == map[] && ProjectsOf(map[], Owneds(ds[..0]))
  {
    assert ds[..0] == [];
    NothingAdmitted(names, root, current, start);
    NothingReached(f);
  }

  lemma NewFilesSnoc(news: seq<Owned>, d: Owned)
    ensures NewFiles(news + [d]) == NewFiles(news)[Key(d) := d]
  {
    assert (news + [d])[..|news|] == news;
  }

  // ----------------------------------------------------------- the old table

  /** Which of the owners of a file an update replaces. */
  method Replaces(projects: map<string, string>, d: Owned) returns (some: bool, all: bool)
    ensures some <==> exists o :: o in Owners(d) && o.distribution in projects
    ensures all <==> forall o :: o in Owners(d) ==> o.distribution in projects
  {
    some, all := false, true;
    var owners := Owners(d);
    var j := 0;
    while j < |owners|
      invariant 0 <= j <= |owners|
      invariant some <==> exists i :: 0 <= i < j && owners[i].distribution in projects
      invariant all <==> forall i :: 0 <= i < j ==> owners[i].distribution in projects
    {
      some := some || owners[j].distribution in projects;
      all := all && owners[j].distribution in projects;
      j := j + 1;
    }
  }

  /** An old file as something to move away. */
  function OldItem(root: Path, d: Owned): Item
    requires Final(root, d).Some?
  {
    Item(d, [], Final(root, d).value)
  }

  /** What `prepare` accepts of one file of the old table. */
  predicate Settles(news: seq<Owned>, newest: Files, key: string, d: Owned) {
    && (Replaced(news, d) || Untouched(news, d))
    && (key in newest ==> Replaced(news, d) && d.scheme == newest[key].scheme)
  }

  ghost predicate KeyedFiles(root: Path, current: Files) {
    forall key :: key in current ==> key == Key(current[key]) && Final(root, current[key]).Some?
  }

  /** These are the obsolete files among the given keys. */
  ghost predicate ObsoleteItems(root: Path, current: Files, news: seq<Owned>, keys: set<string>, obsolete: seq<Item>) {
    && KeyedFiles(root, current)
    && (forall d :: d in obsolete ==>
          Key(d.owned) in ObsoleteKeys(current, news) * keys && d == OldItem(root, current[Key(d.owned)]))
    && (forall key :: key in ObsoleteKeys(current, news) * keys ==> OldItem(root, current[key]) in obsolete)
    && (forall i, j :: 0 <= i < j < |obsolete| ==> Key(obsolete[i].owned) != Key(obsolete[j].owned))
  }

  lemma ObsoleteItemsSnoc(root: Path, current: Files, news: seq<Owned>, keys: set<string>, obsolete: seq<Item>,
      key: string)
    requires ObsoleteItems(root, current, news, keys, obsolete) && key in current && key !in keys
    ensures key !in ObsoleteKeys(current, news) ==> ObsoleteItems(root, current, news, keys + {key}, obsolete)
    ensures key in ObsoleteKeys(current, news) ==>
      ObsoleteItems(root, current, news, keys + {key}, obsolete + [OldItem(root, current[key])])
  {
    hide Final, ObsoleteKeys;
    if key in ObsoleteKeys(current, news) {
      var more := obsolete + [OldItem(root, current[key])];
      forall i, j | 0 <= i < j < |more| ensures Key(more[i].owned) != Key(more[j].owned) {
        if j == |obsolete| {
          assert obsolete[i] in obsolete;
        }
      }
    }
  }

  /** The part of the new table that the keys looked at so far make up. */
  ghost function DesiredUpTo(current: Files, news: seq<Owned>, keys: set<string>): Files {
    map key | key in current.Keys + NewFiles(news).Keys
              && (key in NewFiles(news) || (key in keys && !Replaced(news, current[key])))
      :: if key in NewFiles(news) then NewFiles(news)[key] else current[key]
  }

  lemma DesiredEnds(current: Files, news: seq<Owned>)
    ensures DesiredUpTo(current, news, current.Keys) == Desired(current, news)
    ensures DesiredUpTo(current, news, {}) == NewFiles(news)
  {
  }

  lemma DesiredStep(current: Files, news: seq<Owned>, keys: set<string>, key: string)
    requires key in current && key !in keys
    ensures key in NewFiles(news) || Replaced(news, current[key]) ==>
      DesiredUpTo(current, news, keys + {key}) == DesiredUpTo(current, news, keys)
    ensures key !in NewFiles(news) && !Replaced(news, current[key]) ==>
      DesiredUpTo(current, news, keys + {key}) == DesiredUpTo(current, news, keys)[key := current[key]]
    ensures key in DesiredUpTo(current, news, keys) <==> key in NewFiles(news)
    ensures key in NewFiles(news) ==> DesiredUpTo(current, news, keys)[key] == NewFiles(news)[key]
    ensures key in ObsoleteKeys(current, news) <==> key !in NewFiles(news) && Replaced(news, current[key])
  {
    hide NewFiles, Replaced;
  }

  /** One file of the old table. */
  method SortOne(root: Path, current: Files, projects: map<string, string>, newest: Files, key: string,
                 desired: Files, obsolete: seq<Item>, ghost news: seq<Owned>, ghost keys: set<string>)
    returns (ok: bool, desired': Files, obsolete': seq<Item>)
    requires KeyedFiles(root, current) && ProjectsOf(projects, news) && newest == NewFiles(news)
    requires key in current && key !in keys
    requires desired == DesiredUpTo(current, news, keys) && ObsoleteItems(root, current, news, keys, obsolete)
    ensures ok <==> Settles(news, newest, key, current[key])
    ensures ok ==> desired' == DesiredUpTo(current, news, keys + {key})
    ensures ok ==> ObsoleteItems(root, current, news, keys + {key}, obsolete')
  {
    hide NewFiles, ObsoleteKeys, ObsoleteItems, Final, DesiredUpTo, ProjectsOf, Replaced, Untouched;
    ProjectsAreUpdated(projects, news);
    var old_ := current[key];
    var some, all := Replaces(projects, old_);
    ReplacesMeans(projects, news, old_, some, all);
    DesiredStep(current, news, keys, key);
    ObsoleteItemsSnoc(root, current, news, keys, obsolete, key);
    ok, desired', obsolete' := true, desired, obsolete;
    if some && !all {
      ok := false;
    } else if key in desired {
      ok := all && old_.scheme == desired[key].scheme;
    } else if all {
      obsolete' := obsolete + [OldItem(root, old_)];
    } else {
      desired' := desired[key := old_];
    }
  }

  /** Every file of the old table is replaced, obsolete or retained. */
  method SortOut(root: Path, current: Files, projects: map<string, string>, newest: Files, ghost news: seq<Owned>)
    returns (ok: bool, desired: Files, obsolete: seq<Item>)
    requires KeyedFiles(root, current) && ProjectsOf(projects, news) && newest == NewFiles(news)
    ensures ok <==> forall key :: key in current ==> Settles(news, newest, key, current[key])
    ensures ok ==> desired == Desired(current, news) && ObsoleteItems(root, current, news, current.Keys, obsolete)
  {
    hide NewFiles, ObsoleteKeys, Desired, ObsoleteItems, Final, DesiredUpTo, ProjectsOf, Settles, KeyedFiles;
    ok, desired, obsolete := true, newest, [];
    var todo := current.Keys;
    DesiredEnds(current, news);
    NoObsolete(root, current, news);
    assert current.Keys - todo == {};
    while ok && todo != {}
      invariant todo <= current.Keys
      invariant ok ==> desired == DesiredUpTo(current, news, current.Keys - todo)
      invariant ok ==> ObsoleteItems(root, current, news, current.Keys - todo, obsolete)
      invariant ok ==> forall key :: key in current.Keys - todo ==> Settles(news, newest, key, current[key])
      invariant !ok ==> exists key :: key in current && !Settles(news, newest, key, current[key])
      decreases ok, |todo|
    {
      var key :| key in todo;
      ok, desired, obsolete := SortOne(root, current, projects, newest, key, desired, obsolete, news,
        current.Keys - todo);
      assert current.Keys - (todo - {key}) == (current.Keys - todo) + {key};
      todo := todo - {key};
    }
    assert todo == {} ==> current.Keys - todo == current.Keys;
  }

  lemma NoObsolete(root: Path, current: Files, news: seq<Owned>)
    requires KeyedFiles(root, current)
    ensures ObsoleteItems(root, current, news, {}, [])
  {
  }

  lemma ReplacesMeans(projects: map<string, string>, news: seq<Owned>, d: Owned, some: bool, all: bool)
    requires forall name :: name in projects <==> Updated(news, name)
    requires some <==> exists o :: o in Owners(d) && o.distribution in projects
    requires all <==> forall o :: o in Owners(d) ==> o.distribution in projects
    ensures all <==> Replaced(news, d)
    ensures !some <==> Untouched(news, d)
  {
  }
}