/** What a commit has to leave behind, and why the work it did leaves exactly
    that. */
module VenvOutcome {
  import opened Wrappers
  import opened Records
  import opened FileSystem
  import opened Ownership
  import opened Frames
  import opened Areas
  import opened Layout
  import opened Geometry
  import opened VenvState
  import opened VenvPlan

  predicate NewMetadata(o: Object, desired: Files) {
    o.File? && o.links == 1 && o.content == Ownership(2, desired)
  }

  predicate HoldsBytes(o: Object, d: Owned) {
    o.File? && o.links == 1 && o.content.Data? && o.content.digest == d.digest && o.content.size == d.size
  }

  /** The reconciliation at the end of `commit`. */
  predicate Reconciled(names: Names, root: Path, desired: Files, items: seq<Item>, obsolete: seq<Item>,
                       before: Before, outputs: Names, published: Object, moved: set<Path>) {
    && VerifyState(names, root, desired)
    && (forall d :: d in items ==> d.final in outputs && Matches(names, d.final, outputs[d.final]))
    && Matches(names, MetadataPath(root), published)
    && (forall d :: d in obsolete ==> d.final !in names)
    && (forall p :: p in before && before[p].Some? && p !in moved ==> Matches(names, p, before[p].value))
    && names[MetadataPath(root)].content == Ownership(2, desired)
  }

  // ------------------------------------------------- the table and the disk

  ghost predicate Installs(items: seq<Item>, d: Owned) {
    exists e :: e in items && e.owned == d
  }

  /** The outputs are the files the new records describe. */
  ghost predicate OutputsDescribed(root: Path, outputs: Names, desired: Files, items: seq<Item>) {
    forall d :: d in items ==>
      && d.final in outputs && HoldsBytes(outputs[d.final], d.owned) && Final(root, d.owned) == Some(d.final)
      && Key(d.owned) in desired && desired[Key(d.owned)] == d.owned
  }

  /** A record of the new table is of a new file or of a managed one. */
  ghost predicate RowDescribed(root: Path, before: Before, items: seq<Item>, key: string, d: Owned) {
    && ValidEntry(root, key, d)
    && (Installs(items, d)
        || var p := Final(root, d).value; p in before && before[p].Some? && HoldsBytes(before[p].value, d))
  }

  ghost predicate TableDescribed(root: Path, before: Before, desired: Files, items: seq<Item>) {
    forall key :: key in desired ==> RowDescribed(root, before, items, key, desired[key])
  }

  /** The obsolete files are managed ones that the new table does not name. */
  ghost predicate ObsoleteManaged(before: Before, obsolete: seq<Item>) {
    forall d :: d in obsolete ==> d.final in before && before[d.final].Some?
  }

  ghost predicate Settled(root: Path, before: Before, outputs: Names, desired: Files, items: seq<Item>,
      obsolete: seq<Item>) {
    && OutputsDescribed(root, outputs, desired, items) && TableDescribed(root, before, desired, items)
    && ObsoleteManaged(before, obsolete)
  }

  /** The managed files keep apart: no retained file is at the path of a new or
      an obsolete one, and no obsolete one at that of a new one. */
  ghost predicate Disjoint(root: Path, desired: Files, items: seq<Item>, obsolete: seq<Item>) {
    && (forall key :: key in desired && Final(root, desired[key]).Some? && !Installs(items, desired[key]) ==>
          Final(root, desired[key]).value !in Finals(items) + Finals(obsolete))
    && Finals(items) !! Finals(obsolete)
  }

  lemma LiveInPlace(s: State, q: Path)
    requires Placed(s) && q in Live(s.ground, s.done)
    ensures q in s.names && s.names[q] == Live(s.ground, s.done)[q]
  {
    hide Kept, Live, Originals, Undoable;
  }

  lemma LiveValues(g: Ground, done: Progress)
    requires Undoable(g, done)
    ensures forall p :: p in Finals(done.published) ==> p in Live(g, done) && Live(g, done)[p] == g.outputs[p]
    ensures done.metadata.Some? ==> g.meta in Live(g, done) && Live(g, done)[g.meta] == done.metadata.value
  {
  }

  lemma UndoableOf(s: State)
    requires Placed(s)
    ensures Undoable(s.ground, s.done)
  {
    hide Live, Kept, Originals;
  }

  /** A published output is at its final path. */
  lemma OutputInPlace(s: State, before: Before, outputs: Names, items: seq<Item>, d: Item)
    requires Sound(s) && s.ground.outputs == outputs && s.done.published == items && d in items
    requires ItemPlanned(s.frame.root, s.ground.base, before, outputs, d)
    ensures Matches(s.names, d.final, outputs[d.final])
  {
    hide Partitioned, BackupKept, FrameKept, LedgerKept, NextKept, Accounted, Tree, Kept, Live, Originals, World;
    hide Consistent;
    UndoableOf(s);
    LiveValues(s.ground, s.done);
    assert d.final in Finals(items);
    LiveInPlace(s, d.final);
  }

  lemma NewMetadataInPlace(s: State, o: Object)
    requires Sound(s) && s.done.metadata == Some(o) && o.File? && o.links == 1
    ensures Matches(s.names, MetadataPath(s.frame.root), o)
  {
    hide Partitioned, FrameKept, LedgerKept, NextKept, Accounted, Tree, Kept, Live, Originals, World, Consistent;
    UndoableOf(s);
    LiveValues(s.ground, s.done);
    LiveInPlace(s, MetadataPath(s.frame.root));
  }

  /** A managed path that was cleared and not filled again is free. */
  lemma ObsoleteGone(s: State, created: seq<Path>, before: Before, items: seq<Item>, p: Path)
    requires Sound(s) && !s.stranded && s.done.published == items
    requires MadeLinked(s.frame.root, s.ground.base, created, s.frame.directories, s.done.made)
    requires BeforeKept(s.frame.root, s.ground.base, before) && p in before && before[p].Some?
    requires p in Finals(s.done.backed) && p !in Finals(items)
    ensures p !in s.names
  {
    hide Placed, Partitioned, FrameKept, LedgerKept, NextKept, Accounted, Tree, Kept, Live, Originals, World;
    hide Consistent, InScheme, MadeLinked;
    SchemeApart(s.frame.root, s.backup, p);
    if p in s.done.made {
      MadeNew(s.frame.root, s.ground.base, created, s.frame.directories, s.done.made, p);
    }
    PickOnly(s.ground.outputs, Finals(s.done.published), p);
    NotLive(s.ground, s.done, p);
    NotKept(s.ground, s.done, p);
    Vacant(s, p);
  }

  lemma ManagedFinals(before: Before, items: seq<Item>, p: Path)
    ensures p in Finals(Managed(before, items)) <==> p in Finals(items) && p in before && before[p].Some?
  {
    if p in Finals(items) && p in before && before[p].Some? {
      var d :| d in items && d.final == p;
      assert d in Managed(before, items);
    }
  }

  /** Everything that was done, as the table requires it. */
  ghost predicate Complete(s: State, before: Before, desired: Files, items: seq<Item>, obsolete: seq<Item>,
      published: Object) {
    && s.done.published == items && s.done.backed == Managed(before, items + obsolete)
    && s.done.consumed == Sources(items)
    && s.done.metadata == Some(published) && NewMetadata(published, desired)
  }

  lemma FinalsSum(a: seq<Item>, b: seq<Item>)
    ensures Finals(a + b) == Finals(a) + Finals(b)
  {
    assert forall d :: d in a + b <==> d in a || d in b;
  }

  /** The new table describes the disk. */
  lemma TableInPlace(s: State, before: Before, outputs: Names, desired: Files, items: seq<Item>, obsolete: seq<Item>,
      published: Object, key: string)
    requires Sound(s) && !s.stranded && s.ground.outputs == outputs && BeforeKept(s.frame.root, s.ground.base, before)
    requires forall d :: d in items ==> ItemPlanned(s.frame.root, s.ground.base, before, outputs, d)
    requires Complete(s, before, desired, items, obsolete, published)
    requires Settled(s.frame.root, before, outputs, desired, items, obsolete)
    requires Disjoint(s.frame.root, desired, items, obsolete)
    requires key in desired
    ensures VerifiedEntry(s.names, s.frame.root, key, desired[key])
  {
    hide Sound, BeforeKept, ItemPlanned, Managed, Finals, Sources, Final, ValidOwners, NewMetadata, ObsoleteManaged;
    var d := desired[key];
    if Installs(items, d) {
      var e :| e in items && e.owned == d;
      OutputInPlace(s, before, outputs, items, e);
    } else {
      var p := Final(s.frame.root, d).value;
      FinalsSum(items, obsolete);
      ManagedFinals(before, items + obsolete, p);
      SourcesOutside(s.frame.root, s.ground.base, before, outputs, items, items);
      OriginalInPlace(s, before, p);
    }
  }

  lemma Reconciles(s: State, created: seq<Path>, before: Before, outputs: Names, metadata: Option<Object>,
                   desired: Files, items: seq<Item>, obsolete: seq<Item>, published: Object)
    requires Sound(s) && !s.stranded && Arranged(s.frame, s.ground, before, outputs, metadata, items)
    requires MadeLinked(s.frame.root, s.ground.base, created, s.frame.directories, s.done.made)
    requires Complete(s, before, desired, items, obsolete, published)
    requires Settled(s.frame.root, before, outputs, desired, items, obsolete)
    requires Disjoint(s.frame.root, desired, items, obsolete)
    ensures Reconciled(s.names, s.frame.root, desired, items, obsolete, before, outputs, published,
      Finals(s.done.backed))
  {
    hide Sound, BeforeKept, ItemPlanned, Managed, Finals, Sources, VerifiedEntry, TableDescribed, MadeLinked, CoversAll;
    hide Shaped, MetadataKept, Tree;
    forall key | key in desired ensures VerifiedEntry(s.names, s.frame.root, key, desired[key]) {
      TableInPlace(s, before, outputs, desired, items, obsolete, published, key);
    }
    forall d | d in items ensures d.final in outputs && Matches(s.names, d.final, outputs[d.final]) {
      OutputInPlace(s, before, outputs, items, d);
    }
    NewMetadataInPlace(s, published);
    forall d | d in obsolete ensures d.final !in s.names {
      FinalsMembers(obsolete);
      FinalsSum(items, obsolete);
      ManagedFinals(before, items + obsolete, d.final);
      ObsoleteGone(s, created, before, items, d.final);
    }
    SourcesOutside(s.frame.root, s.ground.base, before, outputs, items, items);
    forall p | p in before && before[p].Some? && p !in Finals(s.done.backed)
      ensures Matches(s.names, p, before[p].value)
    {
      OriginalInPlace(s, before, p);
    }
  }

  lemma ManagedCleared(before: Before, items: seq<Item>, obsolete: seq<Item>)
    ensures Cleared(before, items, Finals(Managed(before, items + obsolete)))
  {
    forall d | d in items && d.final in before && before[d.final].Some?
      ensures d.final in Finals(Managed(before, items + obsolete))
    {
      FinalsSum(items, obsolete);
      ManagedFinals(before, items + obsolete, d.final);
    }
  }

  /** The update the transaction was asked for can be carried out. */
  ghost predicate Feasible(root: Path, before: Before, desired: Files, items: seq<Item>, obsolete: seq<Item>) {
    Orderly(items) && DistinctFinals(Managed(before, items + obsolete)) && Disjoint(root, desired, items, obsolete)
  }

  lemma FeasibleParts(root: Path, before: Before, desired: Files, items: seq<Item>, obsolete: seq<Item>)
    requires Feasible(root, before, desired, items, obsolete)
    ensures Orderly(items) && PrefixFree(items) && DistinctFinals(Managed(before, items + obsolete))
    ensures Disjoint(root, desired, items, obsolete) && Doable(before, items, obsolete)
  {
    OrderlyFree(items);
  }

  lemma FeasibleFree(root: Path, before: Before, desired: Files, items: seq<Item>, obsolete: seq<Item>)
    ensures Feasible(root, before, desired, items, obsolete) ==> PrefixFree(items)
  {
  }

  /** Nothing but a destination below another stands in the way. */
  ghost predicate Doable(before: Before, items: seq<Item>, obsolete: seq<Item>) {
    Ordered(items) && DistinctFinals(Managed(before, items + obsolete))
  }

  lemma DoableParts(before: Before, items: seq<Item>, obsolete: seq<Item>)
    ensures Doable(before, items, obsolete) <==> Ordered(items) && DistinctFinals(Managed(before, items + obsolete))
  {
  }
}
