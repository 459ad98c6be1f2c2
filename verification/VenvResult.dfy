/** When an update can be carried out, and what it leaves for the next one. */
module VenvResult {
  import opened Wrappers
  import opened Text
  import opened Records
  import opened FileSystem
  import opened Ownership
  import opened Frames
  import opened Layout
  import opened Geometry
  import opened VenvState
  import opened VenvPlan
  import opened VenvOutcome
  import opened VenvUndo
  import opened VenvPrepare
  import opened VenvOpening
  import opened VenvConclude

  /** The files of the table are there. */
  ghost predicate FilesThere(names: Names, root: Path, current: Files) {
    forall key :: key in current ==>
      key == Key(current[key]) && Final(root, current[key]).Some? && Final(root, current[key]).value in names
  }

  lemma ManagedThere(names: Names, root: Path, current: Files, start: Before)
    requires ManagedStart(names, root, current, start)
    ensures FilesThere(names, root, current)
  {
    hide Final;
  }

  /** Two files of the table are never at the same path. */
  ghost predicate InjectiveFinals(root: Path, files: Files) {
    forall k, l :: k in files && l in files && Final(root, files[k]) == Final(root, files[l]) ==> k == l
  }

  lemma {:induction false} ManagedDistinct(before: Before, items: seq<Item>)
    requires DistinctFinals(items)
    ensures DistinctFinals(Managed(before, items))
  {
    if |items| > 0 {
      var n := |items| - 1;
      var d := items[n];
      assert items == items[..n] + [d];
      DistinctInit(items[..n], d);
      ManagedDistinct(before, items[..n]);
      ManagedFinals(before, items[..n], d.final);
      DistinctSnoc(Managed(before, items[..n]), d);
    }
  }

  lemma DistinctSum(a: seq<Item>, b: seq<Item>)
    requires DistinctFinals(a) && DistinctFinals(b) && Finals(a) !! Finals(b)
    ensures DistinctFinals(a + b)
  {
    FinalsMembers(a);
    FinalsMembers(b);
    forall i, j | 0 <= i < j < |a + b| ensures (a + b)[i].final != (a + b)[j].final {
      if i < |a| <= j {
        assert a[i] in a && b[j - |a|] in b;
      }
    }
  }

  lemma ObsoleteDistinct(root: Path, current: Files, news: seq<Owned>, obsolete: seq<Item>)
    requires InjectiveFinals(root, current) && ObsoleteItems(root, current, news, current.Keys, obsolete)
    ensures DistinctFinals(obsolete)
  {
    hide Final, ObsoleteKeys;
    ObsoleteInCurrent(current, news);
    forall i, j | 0 <= i < j < |obsolete| ensures obsolete[i].final != obsolete[j].final {
      assert obsolete[i] in obsolete && obsolete[j] in obsolete;
    }
  }

  lemma ObsoleteInCurrent(current: Files, news: seq<Owned>)
    ensures forall key ::
      key in ObsoleteKeys(current, news) ==> key in current && key !in NewFiles(news) && Replaced(news, current[key])
  {
  }

  /** A new file is at the path of an old one only when it replaces it. */
  lemma NewAtOld(names: Names, root: Path, current: Files, ds: seq<Destination>, d: Item, key: string)
    requires FilesThere(names, root, current) && InjectiveFinals(root, current)
    requires AllBind(root, ds) && AllAdmissible(names, root, current, ds) && d in Items(root, ds)
    requires key in current && Final(root, current[key]) == Some(d.final)
    ensures Key(d.owned) == key && d.owned in Owneds(ds)
  {
    hide Final, HoldsBytes, ValidOwners, Freezable;
    var i :| 0 <= i < |ds| && Items(root, ds)[i] == d;
    assert Admissible(names, root, current, ds[i]);
    assert Owneds(ds)[i] == d.owned;
    BindIsFinal(root, ds[i]);
    if Key(d.owned) in current {
      SameKeySameFinal(root, d.owned, current[Key(d.owned)]);
    }
  }

  lemma NewNotObsolete(names: Names, root: Path, current: Files, ds: seq<Destination>, obsolete: seq<Item>)
    requires FilesThere(names, root, current) && InjectiveFinals(root, current)
    requires AllBind(root, ds) && AllAdmissible(names, root, current, ds)
    requires ObsoleteItems(root, current, Owneds(ds), current.Keys, obsolete)
    ensures Finals(Items(root, ds)) !! Finals(obsolete)
  {
    hide Final, AllAdmissible, Items, ObsoleteKeys, Owneds, NewFiles;
    NewFilesEntries(Owneds(ds));
    ObsoleteInCurrent(current, Owneds(ds));
    forall p | p in Finals(Items(root, ds)) && p in Finals(obsolete) ensures false {
      var d :| d in Items(root, ds) && d.final == p;
      var o :| o in obsolete && o.final == p;
      NewAtOld(names, root, current, ds, d, Key(o.owned));
    }
  }

  lemma RetainedFree(names: Names, root: Path, current: Files, ds: seq<Destination>, key: string)
    requires FilesThere(names, root, current) && InjectiveFinals(root, current)
    requires AllBind(root, ds) && AllAdmissible(names, root, current, ds)
    requires key in Desired(current, Owneds(ds)) && key !in NewFiles(Owneds(ds))
    ensures key in current && Desired(current, Owneds(ds))[key] == current[key] && Final(root, current[key]).Some?
    ensures Final(root, current[key]).value !in Finals(Items(root, ds))
    ensures !Replaced(Owneds(ds), current[key])
  {
    hide Final, AllAdmissible, Items, Owneds, NewFiles, Desired, Replaced;
    NewFilesEntries(Owneds(ds));
    DesiredNew(current, Owneds(ds), key);
    var p := Final(root, current[key]).value;
    if p in Finals(Items(root, ds)) {
      var d :| d in Items(root, ds) && d.final == p;
      NewAtOld(names, root, current, ds, d, key);
    }
  }

  lemma RetainedApart(names: Names, root: Path, current: Files, ds: seq<Destination>, obsolete: seq<Item>, key: string)
    requires FilesThere(names, root, current) && InjectiveFinals(root, current)
    requires AllBind(root, ds) && AllAdmissible(names, root, current, ds)
    requires ObsoleteItems(root, current, Owneds(ds), current.Keys, obsolete)
    requires key in Desired(current, Owneds(ds)) && key !in NewFiles(Owneds(ds))
    ensures key in current && Desired(current, Owneds(ds))[key] == current[key] && Final(root, current[key]).Some?
    ensures Final(root, current[key]).value !in Finals(Items(root, ds)) + Finals(obsolete)
  {
    hide Final, AllAdmissible, Items, ObsoleteKeys, Owneds, NewFiles, Desired, Replaced;
    RetainedFree(names, root, current, ds, key);
    ObsoleteInCurrent(current, Owneds(ds));
    assert forall o :: o in obsolete ==> o.final != Final(root, current[key]).value;
  }

  lemma TableDisjoint(names: Names, root: Path, current: Files, ds: seq<Destination>, obsolete: seq<Item>)
    requires FilesThere(names, root, current) && InjectiveFinals(root, current)
    requires AllBind(root, ds) && AllAdmissible(names, root, current, ds)
    requires ObsoleteItems(root, current, Owneds(ds), current.Keys, obsolete)
    ensures Disjoint(root, Desired(current, Owneds(ds)), Items(root, ds), obsolete)
  {
    hide Final, AllAdmissible, Items, ObsoleteItems, Owneds, NewFiles, Desired, ManagedStart, InjectiveFinals;
    NewNotObsolete(names, root, current, ds, obsolete);
    NewFilesEntries(Owneds(ds));
    var desired := Desired(current, Owneds(ds));
    forall key | key in desired && Final(root, desired[key]).Some? && !Installs(Items(root, ds), desired[key])
      ensures Final(root, desired[key]).value !in Finals(Items(root, ds)) + Finals(obsolete)
    {
      DesiredNew(current, Owneds(ds), key);
      if key in NewFiles(Owneds(ds)) {
        OwnedHasItem(root, ds, NewFiles(Owneds(ds))[key]);
      } else {
        RetainedApart(names, root, current, ds, obsolete, key);
      }
    }
  }

  lemma DisjointSame(root: Path, desired: Files, a: seq<Item>, b: seq<Item>, c: seq<Item>, d: seq<Item>)
    requires Disjoint(root, desired, a, c) && (forall e :: e in b <==> e in a) && Finals(b) == Finals(a)
    requires Finals(d) == Finals(c)
    ensures Disjoint(root, desired, b, d)
  {
    hide Final, Finals;
    forall key | key in desired && Final(root, desired[key]).Some? && !Installs(b, desired[key])
      ensures !Installs(a, desired[key])
    {
    }
  }

  /** On a table without shared paths an acceptable update is feasible when no
      destination lies below another and no source is used twice. */
  lemma UpdateFeasible(names: Names, root: Path, current: Files, before: Before, ds: seq<Destination>,
      obsolete: seq<Item>)
    requires FilesThere(names, root, current) && InjectiveFinals(root, current)
    requires AllBind(root, ds) && AllAdmissible(names, root, current, ds) && BindsApart(root, ds)
    requires ObsoleteItems(root, current, Owneds(ds), current.Keys, obsolete)
    requires PrefixFree(Items(root, ds)) && DistinctSources(Items(root, ds))
    ensures Feasible(root, before, Desired(current, Owneds(ds)), Sorted(Items(root, ds)), Sorted(obsolete))
  {
    hide *;
    var items := Items(root, ds);
    TableDisjoint(names, root, current, ds, obsolete);
    NewNotObsolete(names, root, current, ds, obsolete);
    ObsoleteDistinct(root, current, Owneds(ds), obsolete);
    ItemsApart(root, ds);
    SortedSame(items);
    SortedSame(obsolete);
    DisjointSame(root, Desired(current, Owneds(ds)), items, Sorted(items), obsolete, Sorted(obsolete));
    DistinctSum(Sorted(items), Sorted(obsolete));
    ManagedDistinct(before, Sorted(items) + Sorted(obsolete));
    FeasibleFrom(root, before, Desired(current, Owneds(ds)), Sorted(items), Sorted(obsolete));
  }

  /** Every relative path is written without parent pieces. */
  predicate AllPlain(ds: seq<Destination>) {
    forall d :: d in ds ==> Plain(Split(d.owned.relative))
  }

  /** Of two plain destinations the upper one has the smaller key. */
  lemma UpperComesFirst(root: Path, d: Owned, e: Owned)
    requires Final(root, d).Some? && Final(root, e).Some? && Plain(Split(d.relative)) && Plain(Split(e.relative))
    requires Within(Final(root, d).value, Final(root, e).value)
    ensures Less(Key(d), Key(e))
  {
    hide Final, SchemeRoot, Plain, Portable, Split, Join, Less;
    PlainBindingInjective(root, d, d);
    PlainBindingInjective(root, e, e);
    SchemeNamed(root, d);
    SchemeNamed(root, e);
    var a, b := SchemeRoot(root, d.scheme).value, SchemeRoot(root, e.scheme).value;
    var upper, lower := Split(d.relative), Split(e.relative);
    SharedPiece(root, a, upper, b, lower);
    SchemesDiffer(root, d.scheme, e.scheme);
    PiecesBelow(a, upper, lower);
    JoinBoth(upper, lower[|upper|..]);
    JoinSplit(d.relative);
    JoinSplit(e.relative);
    LessExtended(Key(d), "/" + Join(lower[|upper|..]));
    assert Key(e) == Key(d) + ("/" + Join(lower[|upper|..]));
  }

  lemma SchemeNamed(root: Path, d: Owned)
    requires Final(root, d).Some?
    ensures SchemeRoot(root, d.scheme).Some?
    ensures |SchemeRoot(root, d.scheme).value| > |root| && SchemeRoot(root, d.scheme).value[..|root|] == root
  {
  }

  lemma SharedPiece(root: Path, a: Path, upper: seq<string>, b: Path, lower: seq<string>)
    requires |a| > |root| && |b| > |root| && Within(a + upper, b + lower)
    ensures a[|root|] == b[|root|]
  {
    assert (b + lower)[..|a + upper|][|root|] == (b + lower)[|root|];
  }

  lemma PiecesBelow(base: Path, upper: seq<string>, lower: seq<string>)
    requires Within(base + upper, base + lower)
    ensures |lower| > |upper| && lower == upper + lower[|upper|..]
  {
    assert lower[..|upper|] == (base + lower)[..|base + upper|][|base|..] == upper;
  }

  lemma SchemesDiffer(root: Path, s: string, t: string)
    requires SchemeRoot(root, s).Some? && SchemeRoot(root, t).Some?
    ensures SchemeRoot(root, s).value[|root|] == SchemeRoot(root, t).value[|root|] ==> s == t
  {
  }

  lemma PlainClimbs(root: Path, ds: seq<Destination>)
    requires AllBind(root, ds) && AllPlain(ds)
    ensures Climbing(Sorted(Items(root, ds)))
  {
    hide Final, Plain, Key;
    var items := Items(root, ds);
    var sorted := Sorted(items);
    SortedSame(items);
    forall j, k | 0 <= j < k < |sorted| ensures !Within(sorted[k].final, sorted[j].final) {
      SortedInOrder(items, j, k);
      assert sorted[j] in items && sorted[k] in items;
      PlainItem(root, ds, sorted[j]);
      PlainItem(root, ds, sorted[k]);
      if Within(sorted[k].final, sorted[j].final) {
        UpperComesFirst(root, sorted[k].owned, sorted[j].owned);
      }
    }
  }

  lemma PlainItem(root: Path, ds: seq<Destination>, d: Item)
    requires AllBind(root, ds) && AllPlain(ds) && d in Items(root, ds)
    ensures Final(root, d.owned) == Some(d.final) && Plain(Split(d.owned.relative))
  {
    hide Final, Plain;
    FinalOfItem(root, ds, d);
    var i :| 0 <= i < |ds| && Items(root, ds)[i] == d;
    assert ds[i] in ds;
  }

  /** An update of plain destinations can fail without a fault only for one of them
      below another. */
  lemma UpdateDoable(names: Names, root: Path, current: Files, before: Before, ds: seq<Destination>,
      obsolete: seq<Item>)
    requires FilesThere(names, root, current) && InjectiveFinals(root, current)
    requires AllBind(root, ds) && AllAdmissible(names, root, current, ds) && BindsApart(root, ds)
    requires ObsoleteItems(root, current, Owneds(ds), current.Keys, obsolete)
    requires AllPlain(ds) && DistinctSources(Items(root, ds))
    ensures Doable(before, Sorted(Items(root, ds)), Sorted(obsolete))
  {
    hide *;
    var items := Items(root, ds);
    NewNotObsolete(names, root, current, ds, obsolete);
    ObsoleteDistinct(root, current, Owneds(ds), obsolete);
    ItemsApart(root, ds);
    SortedSame(items);
    SortedSame(obsolete);
    DistinctSum(Sorted(items), Sorted(obsolete));
    ManagedDistinct(before, Sorted(items) + Sorted(obsolete));
    PlainClimbs(root, ds);
    OrderedFrom(Sorted(items));
    DoableParts(before, Sorted(items), Sorted(obsolete));
  }

  lemma OrderedFrom(items: seq<Item>)
    requires Climbing(items) && DistinctFinals(items) && DistinctSources(items)
    ensures Ordered(items)
  {
  }

  /** A file and a file below it, as an update. */
  lemma TangledExample(root: Path, ds: seq<Destination>)
    requires |ds| == 2 && ds[0].bound.None? && ds[1].bound.None?
    requires ds[0].owned.scheme == ds[1].owned.scheme == "site" && ds[0].owned.relative == "a"
    requires ds[1].owned.relative == "a/b"
    ensures AllBind(root, ds) && AllPlain(ds) && !Untangled(root, ds)
  {
    hide Final, Portable, Split, Resolve, PrefixFree;
    var site := SchemeRoot(root, "site").value;
    TangledPieces();
    TangledFinals(root, ds[0].owned, ds[1].owned);
    assert (site + ["a", "b"])[..|site| + 1] == site + ["a"];
    NotFree(Items(root, ds));
  }

  lemma TangledFinals(root: Path, d: Owned, e: Owned)
    requires d.scheme == e.scheme == "site" && d.relative == "a" && e.relative == "a/b"
    ensures Final(root, d) == Some(SchemeRoot(root, "site").value + ["a"])
    ensures Final(root, e) == Some(SchemeRoot(root, "site").value + ["a", "b"])
  {
    TangledPieces();
    PlainFinal(root, d, ["a"]);
    PlainFinal(root, e, ["a", "b"]);
  }

  lemma NotFree(items: seq<Item>)
    requires |items| == 2 && Within(items[0].final, items[1].final)
    ensures !PrefixFree(items)
  {
    assert items[0] in items && items[1] in items;
  }

  lemma TangledPieces()
    ensures Split("a") == ["a"] && Split("a/b") == ["a", "b"] && Portable("a") && Portable("a/b")
  {
    SplitJoin(["a"]);
    SplitJoin(["a", "b"]);
    assert ["a", "b"][1..] == ["b"] && Join(["b"]) == "b" && Join(["a", "b"]) == "a/b";
  }

  lemma PlainFinal(root: Path, d: Owned, parts: seq<string>)
    requires d.scheme == "site" && d.relative != "" && d.relative[0] != '/' && Portable(d.relative)
    requires Split(d.relative) == parts && Plain(parts) && |parts| > 0
    ensures Final(root, d) == Some(SchemeRoot(root, "site").value + parts)
  {
    var site := SchemeRoot(root, "site").value;
    ResolvePlain(site, parts);
    assert (site + parts)[..|site|] == site;
  }

  lemma FeasibleFrom(root: Path, before: Before, desired: Files, items: seq<Item>, obsolete: seq<Item>)
    requires PrefixFree(items) && DistinctFinals(items) && DistinctSources(items)
    requires DistinctFinals(Managed(before, items + obsolete)) && Disjoint(root, desired, items, obsolete)
    ensures Feasible(root, before, desired, items, obsolete)
  {
  }

  /** Updates keep the files of the table at distinct paths. */
  lemma InjectiveAfter(names: Names, root: Path, current: Files, ds: seq<Destination>)
    requires FilesThere(names, root, current) && InjectiveFinals(root, current)
    requires AllBind(root, ds) && AllAdmissible(names, root, current, ds) && BindsApart(root, ds)
    ensures InjectiveFinals(root, Desired(current, Owneds(ds)))
  {
    hide Final, AllAdmissible, FilesThere, Desired, NewFiles;
    var desired := Desired(current, Owneds(ds));
    forall k, l | k in desired && l in desired && Final(root, desired[k]) == Final(root, desired[l]) ensures k == l {
      if k in NewFiles(Owneds(ds)) {
        NewKeyPath(names, root, current, ds, k, l);
      } else if l in NewFiles(Owneds(ds)) {
        NewKeyPath(names, root, current, ds, l, k);
      } else {
        DesiredNew(current, Owneds(ds), k);
        DesiredNew(current, Owneds(ds), l);
      }
    }
  }

  lemma NewKeyPath(names: Names, root: Path, current: Files, ds: seq<Destination>, k: string, l: string)
    requires FilesThere(names, root, current) && InjectiveFinals(root, current)
    requires AllBind(root, ds) && AllAdmissible(names, root, current, ds) && BindsApart(root, ds)
    requires k in NewFiles(Owneds(ds)) && k in Desired(current, Owneds(ds)) && l in Desired(current, Owneds(ds))
    requires Final(root, Desired(current, Owneds(ds))[k]) == Final(root, Desired(current, Owneds(ds))[l])
    ensures k == l
  {
    hide *;
    var news := Owneds(ds);
    NewFilesEntries(news);
    DesiredNew(current, news, k);
    DesiredNew(current, news, l);
    OwnedHasItem(root, ds, NewFiles(news)[k]);
    var d :| d in Items(root, ds) && d.owned == NewFiles(news)[k];
    FinalOfItem(root, ds, d);
    if l in NewFiles(news) {
      OwnedHasItem(root, ds, NewFiles(news)[l]);
      var e :| e in Items(root, ds) && e.owned == NewFiles(news)[l];
      FinalOfItem(root, ds, e);
      ItemsApart(root, ds);
      SameItem(Items(root, ds), d, e);
    } else {
      RetainedFree(names, root, current, ds, l);
      FinalsMembers(Items(root, ds));
    }
  }

  lemma FinalOfItem(root: Path, ds: seq<Destination>, d: Item)
    requires AllBind(root, ds) && d in Items(root, ds)
    ensures Final(root, d.owned) == Some(d.final)
  {
    hide Final;
    var i :| 0 <= i < |ds| && Items(root, ds)[i] == d;
    BindIsFinal(root, ds[i]);
  }

  lemma SameItem(items: seq<Item>, d: Item, e: Item)
    requires DistinctFinals(items) && d in items && e in items && d.final == e.final
    ensures d == e
  {
    var i :| 0 <= i < |items| && items[i] == d;
    var j :| 0 <= j < |items| && items[j] == e;
  }

  // ------------------------------------------------------------- the new disk

  /** The metadata that was published, and every file it names, are outside the
      backup directory, so the table describes what the cleanup leaves. */
  lemma TableAfter(names: Names, after: Names, root: Path, backup: Path, desired: Files, items: seq<Item>,
      obsolete: seq<Item>,
                   before: Before, outputs: Names, published: Object, moved: set<Path>)
    requires Reconciled(names, root, desired, items, obsolete, before, outputs, published, moved)
    requires after == Outside(names, backup) && BackupPath(root, backup) && |desired| > 0
    requires forall key :: key in desired ==> ValidEntry(root, key, desired[key])
    ensures Describes(after, root, desired)
  {
    hide Final, BackupPath, ValidOwners;
    MetadataApart(root, backup);
    forall key | key in desired ensures VerifiedEntry(after, root, key, desired[key]) {
      assert VerifiedEntry(names, root, key, desired[key]);
      assert ValidEntry(root, key, desired[key]);
      FinalInSomeScheme(root, desired[key]);
      SchemeApart(root, backup, Final(root, desired[key]).value);
    }
  }

  /** What a commit changes: the outputs are at their final paths and no longer
      at their sources, obsolete files are gone, new directories were made above
      destinations only, and everything else is as it was. */
  ghost predicate Installed(root: Path, old_: Names, new_: Names, items: seq<Item>, gone: set<Path>, desired: Files) {
    && (forall d :: d in items ==>
          d.source in old_ && d.final in new_ && new_[d.final] == old_[d.source] && d.source !in new_)
    && (forall p :: p in gone ==> p !in new_)
    && MetadataPath(root) in new_ && NewMetadata(new_[MetadataPath(root)], desired)
    && (forall q :: q in old_ && q !in Finals(items) + gone + Sources(items) + {MetadataPath(root)} ==>
          q in new_ && new_[q] == old_[q])
    && (forall q :: q in new_ && q !in old_ && q !in Finals(items) + {MetadataPath(root)} ==>
          new_[q].Dir? && (q in FixedPaths(root) || exists d :: d in items && Within(q, d.final)))
  }

  ghost predicate MadeAbove(root: Path, made: Names, items: seq<Item>) {
    forall q :: q in made ==> made[q].Dir? && (q in FixedPaths(root) || exists d :: d in items && Within(q, d.final))
  }

  lemma MadeShape(s: State, created: seq<Path>, items: seq<Item>)
    requires Sound(s) && Steady(s) && Shaped(s.frame, s.ground.base, s.ground.backup, items)
    requires MadeLinked(s.frame.root, s.ground.base, created, s.frame.directories, s.done.made)
    ensures MadeAbove(s.frame.root, s.done.made, items)
  {
    hide Sound, Identity, MadeLinked, FixedPaths;
    forall q | q in s.done.made
      ensures s.done.made[q].Dir? && (q in FixedPaths(s.frame.root) || exists d :: d in items && Within(q, d.final))
    {
      MadeNew(s.frame.root, s.ground.base, created, s.frame.directories, s.done.made, q);
      MadeInPlace(s, created, q);
      MadeIsLiveToo(s, q);
      MadeValue(s.frame.root, s.ground.base, created, s.frame.directories, s.done.made, q);
      assert Known(s.frame, q);
    }
  }

  lemma MadeValue(root: Path, base: Names, created: seq<Path>, directories: Names, made: Names, q: Path)
    requires MadeLinked(root, base, created, directories, made) && q in made
    ensures q in directories && directories[q] == made[q]
  {
    hide PlannedDirectory;
    assert q in created;
  }

  lemma MadeIsLiveToo(s: State, q: Path)
    requires Sound(s) && q in s.done.made
    ensures q != s.ground.backup
  {
    BackupOf(s);
    PlacedOf(s);
    MadeIsLive(s, q);
    NotItself(s.backup);
  }

  lemma OutputStands(g: Ground, done: Progress, items: seq<Item>, d: Item)
    requires Undoable(g, done) && done.published == items && d in items
    ensures d.final in Standing(g, done) && Standing(g, done)[d.final] == g.outputs[d.final]
  {
    LiveValues(g, done);
    assert d.final in Finals(items);
    hide Live, Kept;
  }

  lemma RestStands(g: Ground, done: Progress, q: Path)
    requires q in g.base && q !in done.consumed && q !in Finals(done.backed) && q != g.meta
    requires q !in Live(g, done)
    ensures q in Standing(g, done) && Standing(g, done)[q] == g.base[q]
  {
    hide Live;
  }

  lemma LiveOnly(g: Ground, done: Progress, q: Path)
    requires q in Live(g, done)
    ensures q in Finals(done.published) || q in done.made || q == g.meta
    ensures q in done.made && q !in Finals(done.published) && q != g.meta ==> Live(g, done)[q] == done.made[q]
  {
  }

  ghost predicate NoneLeft(names: Names, obsolete: seq<Item>) {
    forall d :: d in obsolete ==> d.final !in names
  }

  lemma InstalledOutputs(s: State, before: Before, outputs: Names, items: seq<Item>, d: Item)
    requires Sound(s) && s.ground.outputs == outputs && s.done.published == items && s.done.consumed == Sources(items)
    requires ItemPlanned(s.frame.root, s.ground.base, before, outputs, d) && d in items
    ensures d.source in s.ground.base && d.final in Standing(s.ground, s.done)
    ensures Standing(s.ground, s.done)[d.final] == s.ground.base[d.source] && d.source !in Standing(s.ground, s.done)
  {
    hide FrameKept, LedgerKept, NextKept, Accounted, Tree, Live, Originals, World, Consistent, BackupKept, InScheme;
    UndoableOf(s);
    OutputStands(s.ground, s.done, items, d);
    assert d.source in Sources(items);
    assert d.source !in Kept(s.ground, s.done);
    assert d.source !in Live(s.ground, s.done);
  }

  lemma InstalledRest(s: State, created: seq<Path>, before: Before, items: seq<Item>, obsolete: seq<Item>, q: Path)
    requires MadeLinked(s.frame.root, s.ground.base, created, s.frame.directories, s.done.made)
    requires s.done.published == items && s.done.consumed == Sources(items)
    requires s.done.backed == Managed(before, items + obsolete)
    requires q in s.ground.base && q !in Finals(items) + Finals(obsolete) + Sources(items) + {s.ground.meta}
    ensures q in Standing(s.ground, s.done) && Standing(s.ground, s.done)[q] == s.ground.base[q]
  {
    hide Live, Finals, Sources, MadeLinked, Managed, Standing;
    FinalsSum(items, obsolete);
    ManagedFinals(before, items + obsolete, q);
    if q in Live(s.ground, s.done) {
      LiveOnly(s.ground, s.done, q);
      MadeNew(s.frame.root, s.ground.base, created, s.frame.directories, s.done.made, q);
    }
    RestStands(s.ground, s.done, q);
  }

  lemma InstalledMore(root: Path, g: Ground, done: Progress, items: seq<Item>, q: Path)
    requires done.published == items && MadeAbove(root, done.made, items)
    requires q in Standing(g, done) && q !in g.base && q !in Finals(items) + {g.meta}
    ensures Standing(g, done)[q].Dir? && (q in FixedPaths(root) || exists d :: d in items && Within(q, d.final))
  {
    hide Live, FixedPaths, Finals;
    assert q !in Kept(g, done);
    LiveOnly(g, done, q);
  }

  /** What stands when everything was done is what was to be installed. */
  lemma StandingInstalled(s: State, created: seq<Path>, before: Before, outputs: Names, metadata: Option<Object>,
                          desired: Files, items: seq<Item>, obsolete: seq<Item>, published: Object)
    requires Sound(s) && Steady(s) && Arranged(s.frame, s.ground, before, outputs, metadata, items)
    requires MadeLinked(s.frame.root, s.ground.base, created, s.frame.directories, s.done.made)
    requires Complete(s, before, desired, items, obsolete, published) && NoneLeft(s.names, obsolete)
    ensures Installed(s.frame.root, s.ground.base, Standing(s.ground, s.done), items, Finals(obsolete), desired)
  {
    hide *;
    var new_ := Standing(s.ground, s.done);
    var root := s.frame.root;
    CompleteParts(s, before, desired, items, obsolete, published);
    ArrangedParts(s.frame, s.ground, before, outputs, metadata, items);
    BackupOf(s);
    ExtraInBackup(s);
    WhatStands(s);
    MetadataStands(s, published);
    forall d | d in items
      ensures d.source in s.ground.base && d.final in new_ && new_[d.final] == s.ground.base[d.source]
      ensures d.source !in new_
    {
      InstalledOutputs(s, before, outputs, items, d);
    }
    NoneLeftOutside(s.names, s.backup, obsolete);
    forall q | q in s.ground.base && q !in Finals(items) + Finals(obsolete) + Sources(items) + {s.ground.meta}
      ensures q in new_ && new_[q] == s.ground.base[q]
    {
      InstalledRest(s, created, before, items, obsolete, q);
    }
    MadeShape(s, created, items);
    forall q | q in new_ && q !in s.ground.base && q !in Finals(items) + {s.ground.meta}
      ensures new_[q].Dir? && (q in FixedPaths(root) || exists d :: d in items && Within(q, d.final))
    {
      InstalledMore(root, s.ground, s.done, items, q);
    }
    InstalledFrom(root, s.ground.base, new_, items, obsolete, desired, s.ground.meta);
  }

  lemma InstalledFrom(root: Path, old_: Names, new_: Names, items: seq<Item>, obsolete: seq<Item>, desired: Files,
      meta: Path)
    requires forall d :: d in items ==>
      d.source in old_ && d.final in new_ && new_[d.final] == old_[d.source] && d.source !in new_
    requires NoneLeft(new_, obsolete) && meta == MetadataPath(root) && meta in new_ && NewMetadata(new_[meta], desired)
    requires forall q :: q in old_ && q !in Finals(items) + Finals(obsolete) + Sources(items) + {meta} ==>
      q in new_ && new_[q] == old_[q]
    requires forall q :: q in new_ && q !in old_ && q !in Finals(items) + {meta} ==>
      new_[q].Dir? && (q in FixedPaths(root) || exists d :: d in items && Within(q, d.final))
    ensures Installed(root, old_, new_, items, Finals(obsolete), desired)
  {
    forall p | p in Finals(obsolete) ensures p !in new_ {
      var d :| d in obsolete && d.final == p;
    }
    hide Finals, Sources, FixedPaths, NewMetadata;
  }

  lemma CompleteParts(s: State, before: Before, desired: Files, items: seq<Item>, obsolete: seq<Item>,
      published: Object)
    requires Complete(s, before, desired, items, obsolete, published)
    ensures s.done.published == items && s.done.consumed == Sources(items)
    ensures s.done.backed == Managed(before, items + obsolete)
    ensures s.done.metadata == Some(published) && NewMetadata(published, desired)
  {
    hide Sources, Managed, NewMetadata;
  }

  lemma ArrangedParts(f: Frame, g: Ground, before: Before, outputs: Names, metadata: Option<Object>, items: seq<Item>)
    requires Arranged(f, g, before, outputs, metadata, items)
    ensures Shaped(f, g.base, g.backup, items) && g.outputs == outputs
    ensures forall d :: d in items ==> ItemPlanned(f.root, g.base, before, outputs, d)
  {
    hide Tree, BeforeKept, MetadataKept, ItemPlanned, CoversAll, Shaped, KnownUp;
  }

  lemma NoneLeftOutside(names: Names, backup: Path, obsolete: seq<Item>)
    requires NoneLeft(names, obsolete)
    ensures NoneLeft(Outside(names, backup), obsolete)
  {
  }

  lemma MetadataStands(s: State, published: Object)
    requires Sound(s) && s.done.metadata == Some(published)
    ensures s.ground.meta in Standing(s.ground, s.done) && Standing(s.ground, s.done)[s.ground.meta] == published
  {
    hide FrameKept, LedgerKept, NextKept, Accounted, Tree, Live, Kept, Originals, World, Consistent, BackupKept;
    hide Partitioned;
    UndoableOf(s);
    LiveValues(s.ground, s.done);
  }

  /** A commit that went through leaves what was wanted, described by its table. */
  lemma CarriedWell(s: State, created: seq<Path>, before: Before, outputs: Names, metadata: Option<Object>,
                    desired: Files, items: seq<Item>, obsolete: seq<Item>, published: Object)
    requires Sound(s) && Steady(s) && Arranged(s.frame, s.ground, before, outputs, metadata, items)
    requires MadeLinked(s.frame.root, s.ground.base, created, s.frame.directories, s.done.made)
    requires Complete(s, before, desired, items, obsolete, published)
    requires Settled(s.frame.root, before, outputs, desired, items, obsolete) && |desired| > 0
    requires Reconciled(s.names, s.frame.root, desired, items, obsolete, before, outputs, published,
      Finals(s.done.backed))
    ensures Installed(s.frame.root, s.ground.base, Standing(s.ground, s.done), items, Finals(obsolete), desired)
    ensures Describes(Standing(s.ground, s.done), s.frame.root, desired)
    ensures PrefixFree(items)
  {
    hide *;
    BackupOf(s);
    ExtraInBackup(s);
    WhatStands(s);
    ReconciledNone(s.names, s.frame.root, desired, items, obsolete, before, outputs, published, Finals(s.done.backed));
    StandingInstalled(s, created, before, outputs, metadata, desired, items, obsolete, published);
    SettledRows(s.frame.root, before, outputs, desired, items, obsolete);
    TableAfter(s.names, Standing(s.ground, s.done), s.frame.root, s.backup, desired, items, obsolete, before, outputs,
      published, Finals(s.done.backed));
    TreeOf(s);
    FilesApart(s.names, s.frame.root, desired, items, obsolete, before, outputs, published, Finals(s.done.backed));
  }

  lemma ReconciledNone(names: Names, root: Path, desired: Files, items: seq<Item>, obsolete: seq<Item>,
                       before: Before, outputs: Names, published: Object, moved: set<Path>)
    requires Reconciled(names, root, desired, items, obsolete, before, outputs, published, moved)
    ensures NoneLeft(names, obsolete)
  {
  }

  lemma SettledRows(root: Path, before: Before, outputs: Names, desired: Files, items: seq<Item>, obsolete: seq<Item>)
    requires Settled(root, before, outputs, desired, items, obsolete)
    ensures forall key :: key in desired ==> ValidEntry(root, key, desired[key])
  {
    hide ValidEntry, Installs, HoldsBytes, Final;
  }

  /** Files are never below one another. */
  lemma FilesApart(names: Names, root: Path, desired: Files, items: seq<Item>, obsolete: seq<Item>,
                   before: Before, outputs: Names, published: Object, moved: set<Path>)
    requires Tree(names) && Reconciled(names, root, desired, items, obsolete, before, outputs, published, moved)
    ensures PrefixFree(items)
  {
    hide VerifyState;
    forall d, e | d in items && e in items ensures !Within(d.final, e.final) {
      assert Matches(names, d.final, outputs[d.final]) && Matches(names, e.final, outputs[e.final]);
      if Within(d.final, e.final) {
        AncestorIsDir(names, e.final, |d.final|);
      }
    }
  }

  // ------------------------------------------------------ in the caller's terms

  /** No destination lies below another. */
  ghost predicate Untangled(root: Path, ds: seq<Destination>) {
    AllBind(root, ds) && PrefixFree(Items(root, ds))
  }

  /** No source is used twice. */
  ghost predicate OneUse(ds: seq<Destination>) {
    forall i, j :: 0 <= i < j < |ds| ==> ds[i].source != ds[j].source
  }

  function SourcesUsed(ds: seq<Destination>): set<Path> {
    set d | d in ds :: d.source
  }

  /** Where the files are that an update makes obsolete. */
  ghost function ObsoletePaths(root: Path, current: Files, news: seq<Owned>): set<Path> {
    set key | key in ObsoleteKeys(current, news) && Final(root, current[key]).Some? :: Final(root, current[key]).value
  }

  /** The update is on the disk, and its table describes the disk. */
  ghost predicate Committed(root: Path, old_: Names, new_: Names, current: Files, ds: seq<Destination>) {
    && AllBind(root, ds)
    && Installed(root, old_, new_, Items(root, ds), ObsoletePaths(root, current, Owneds(ds)),
        Desired(current, Owneds(ds)))
    && Describes(new_, root, Desired(current, Owneds(ds)))
  }

  lemma ObsoleteFinals(root: Path, current: Files, news: seq<Owned>, obsolete: seq<Item>)
    requires ObsoleteItems(root, current, news, current.Keys, obsolete)
    ensures Finals(obsolete) == ObsoletePaths(root, current, news)
  {
    hide Final, Replaced, NewFiles;
    forall p ensures p in Finals(obsolete) <==> p in ObsoletePaths(root, current, news) {
      if p in Finals(obsolete) {
        var d :| d in obsolete && d.final == p;
      }
      if p in ObsoletePaths(root, current, news) {
        var key :| key in ObsoleteKeys(current, news) && Final(root, current[key]).Some? &&
          Final(root, current[key]).value == p;
        assert OldItem(root, current[key]) in obsolete;
      }
    }
  }

  lemma InstalledSame(root: Path, old_: Names, new_: Names, a: seq<Item>, b: seq<Item>, gone: set<Path>, desired: Files)
    requires Installed(root, old_, new_, a, gone, desired) && (forall d :: d in a <==> d in b)
    ensures Installed(root, old_, new_, b, gone, desired)
  {
    assert Finals(a) == Finals(b) && Sources(a) == Sources(b);
    hide Finals, Sources, FixedPaths, NewMetadata;
    forall q | q in new_ && q !in old_ && q !in Finals(b) + {MetadataPath(root)}
      ensures new_[q].Dir? && (q in FixedPaths(root) || exists d :: d in b && Within(q, d.final))
    {
      if q !in FixedPaths(root) {
        var d :| d in a && Within(q, d.final);
        assert d in b;
      }
    }
  }

  lemma CommittedFrom(root: Path, old_: Names, new_: Names, current: Files, ds: seq<Destination>, unsorted: seq<Item>)
    requires AllBind(root, ds) && ObsoleteItems(root, current, Owneds(ds), current.Keys, unsorted)
    requires Installed(root, old_, new_, Sorted(Items(root, ds)), Finals(Sorted(unsorted)),
      Desired(current, Owneds(ds)))
    requires Describes(new_, root, Desired(current, Owneds(ds)))
    ensures Committed(root, old_, new_, current, ds)
  {
    hide *;
    SortedSame(unsorted);
    SortedSame(Items(root, ds));
    ObsoleteFinals(root, current, Owneds(ds), unsorted);
    InstalledSame(root, old_, new_, Sorted(Items(root, ds)), Items(root, ds), Finals(Sorted(unsorted)),
      Desired(current, Owneds(ds)));
    CommittedIs(root, old_, new_, current, ds);
  }

  lemma CommittedIs(root: Path, old_: Names, new_: Names, current: Files, ds: seq<Destination>)
    requires AllBind(root, ds)
    requires Installed(root, old_, new_, Items(root, ds), ObsoletePaths(root, current, Owneds(ds)),
      Desired(current, Owneds(ds)))
    requires Describes(new_, root, Desired(current, Owneds(ds)))
    ensures Committed(root, old_, new_, current, ds)
  {
  }

  lemma OneUseDistinct(root: Path, ds: seq<Destination>)
    requires AllBind(root, ds)
    ensures OneUse(ds) ==> DistinctSources(Items(root, ds))
    ensures Sources(Items(root, ds)) == SourcesUsed(ds)
  {
    hide Bind;
    forall p ensures p in Sources(Items(root, ds)) <==> p in SourcesUsed(ds) {
      if p in SourcesUsed(ds) {
        var d :| d in ds && d.source == p;
        var i :| 0 <= i < |ds| && ds[i] == d;
        assert Items(root, ds)[i] in Items(root, ds);
      }
      if p in Sources(Items(root, ds)) {
        var d :| d in Items(root, ds) && d.source == p;
        var i :| 0 <= i < |ds| && Items(root, ds)[i] == d;
        assert ds[i] in ds;
      }
    }
  }

  lemma AcceptableBinds(names: Names, root: Path, current: Files, ds: seq<Destination>)
    requires Acceptable(names, root, current, ds)
    ensures AllBind(root, ds)
  {
  }

  lemma SourcesAmong(items: seq<Item>, published: seq<Item>)
    requires forall d :: d in published ==> d in items
    ensures Sources(published) <= Sources(items)
  {
  }

  lemma UntangledIs(root: Path, ds: seq<Destination>)
    requires AllBind(root, ds)
    ensures Untangled(root, ds) <==> PrefixFree(Items(root, ds))
  {
  }
}
