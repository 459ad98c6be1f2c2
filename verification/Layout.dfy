/** Four areas of a name space that share no name, and what moving one name
    between two of them does to the whole. */
module Areas {

  function Sum<K, V>(k: map<K, V>, l: map<K, V>, o: map<K, V>, e: map<K, V>): map<K, V> {
    k + l + o + e
  }

  ghost predicate Separate<K, V>(k: map<K, V>, l: map<K, V>, o: map<K, V>, e: map<K, V>) {
    && (forall q :: q in k ==> q !in l && q !in o && q !in e)
    && (forall q :: q in l ==> q !in o && q !in e)
    && (forall q :: q in o ==> q !in e)
  }

  function Move<K, V>(m: map<K, V>, from: K, to: K): map<K, V>
    requires from in m
  {
    (m - {from})[to := m[from]]
  }

  lemma KeptToOriginals<K, V>(k: map<K, V>, l: map<K, V>, o: map<K, V>, e: map<K, V>, from: K, to: K)
    requires Separate(k, l, o, e) && from in k && to !in Sum(k, l, o, e)
    ensures Separate(k - {from}, l, o[to := k[from]], e)
    ensures from in Sum(k, l, o, e) && Sum(k, l, o, e)[from] == k[from]
    ensures Sum(k - {from}, l, o[to := k[from]], e) == Move(Sum(k, l, o, e), from, to)
  {
  }

  lemma OriginalsToKept<K, V>(k: map<K, V>, l: map<K, V>, o: map<K, V>, e: map<K, V>, from: K, to: K)
    requires Separate(k, l, o, e) && from in o && to !in Sum(k, l, o, e)
    ensures Separate(k[to := o[from]], l, o - {from}, e)
    ensures from in Sum(k, l, o, e) && Sum(k, l, o, e)[from] == o[from]
    ensures Sum(k[to := o[from]], l, o - {from}, e) == Move(Sum(k, l, o, e), from, to)
  {
  }

  lemma KeptToLive<K, V>(k: map<K, V>, l: map<K, V>, o: map<K, V>, e: map<K, V>, from: K, to: K)
    requires Separate(k, l, o, e) && from in k && to !in Sum(k, l, o, e)
    ensures Separate(k - {from}, l[to := k[from]], o, e)
    ensures from in Sum(k, l, o, e) && Sum(k, l, o, e)[from] == k[from]
    ensures Sum(k - {from}, l[to := k[from]], o, e) == Move(Sum(k, l, o, e), from, to)
  {
  }

  lemma ExtraToLive<K, V>(k: map<K, V>, l: map<K, V>, o: map<K, V>, e: map<K, V>, from: K, to: K)
    requires Separate(k, l, o, e) && from in e && to !in Sum(k, l, o, e)
    ensures Separate(k, l[to := e[from]], o, e - {from})
    ensures from in Sum(k, l, o, e) && Sum(k, l, o, e)[from] == e[from]
    ensures Sum(k, l[to := e[from]], o, e - {from}) == Move(Sum(k, l, o, e), from, to)
  {
  }

  lemma OriginalsMember<K, V>(k: map<K, V>, l: map<K, V>, o: map<K, V>, e: map<K, V>, p: K)
    requires Separate(k, l, o, e) && p in o
    ensures p in Sum(k, l, o, e) && Sum(k, l, o, e)[p] == o[p]
  {
  }

  lemma NotInSum<K, V>(k: map<K, V>, l: map<K, V>, o: map<K, V>, e: map<K, V>, p: K)
    requires p !in Sum(k, l, o, e)
    ensures p !in k && p !in l && p !in o && p !in e
  {
  }

  lemma SetThenRemove<K, V>(m: map<K, V>, p: K, v: V)
    requires p !in m
    ensures m[p := v] - {p} == m
  {
  }

  lemma LiveAdded<K, V>(k: map<K, V>, l: map<K, V>, o: map<K, V>, e: map<K, V>, p: K, v: V)
    requires Separate(k, l, o, e) && p !in Sum(k, l, o, e)
    ensures Separate(k, l[p := v], o, e)
    ensures Sum(k, l[p := v], o, e) == Sum(k, l, o, e)[p := v]
  {
  }

  lemma LiveRemoved<K, V>(k: map<K, V>, l: map<K, V>, o: map<K, V>, e: map<K, V>, p: K)
    requires Separate(k, l, o, e) && p in l
    ensures Separate(k, l - {p}, o, e)
    ensures p in Sum(k, l, o, e) && Sum(k, l, o, e)[p] == l[p]
    ensures Sum(k, l - {p}, o, e) == Sum(k, l, o, e) - {p}
  {
  }

  lemma ExtraSet<K, V>(k: map<K, V>, l: map<K, V>, o: map<K, V>, e: map<K, V>, p: K, v: V)
    requires Separate(k, l, o, e) && (p in e || p !in Sum(k, l, o, e))
    ensures Separate(k, l, o, e[p := v])
    ensures Sum(k, l, o, e[p := v]) == Sum(k, l, o, e)[p := v]
  {
  }
}

/** Where every object sits while a venv transaction is under way, as a function
    of the transaction's own lists, and how each step moves along it. */
module Layout {
  import opened Wrappers
  import opened Text
  import opened Areas
  import opened Records
  import opened FileSystem
  import opened Ownership

  /** A bound destination. */
  datatype Item = Item(owned: Owned, source: Path, final: Path)

  function Finals(items: seq<Item>): set<Path> {
    set d | d in items :: d.final
  }

  function Sources(items: seq<Item>): set<Path> {
    set d | d in items :: d.source
  }

  ghost predicate DistinctFinals(items: seq<Item>) {
    forall i, j :: 0 <= i < j < |items| ==> items[i].final != items[j].final
  }

  function BackupFile(backup: Path, i: nat): Path {
    backup + ["file-" + Decimal(i)]
  }

  lemma BackupFileInjective(backup: Path, i: nat, j: nat)
    ensures BackupFile(backup, i) == BackupFile(backup, j) <==> i == j
  {
    if BackupFile(backup, i) == BackupFile(backup, j) {
      var a, b := "file-" + Decimal(i), "file-" + Decimal(j);
      assert a == BackupFile(backup, i)[|backup|] && b == BackupFile(backup, j)[|backup|];
      assert a[5..] == Decimal(i) && b[5..] == Decimal(j);
      DecimalInjective(i, j);
    }
  }

  function LedgerPath(backup: Path): Path { backup + ["ledger.json"] }
  function OldMetadataPath(backup: Path): Path { backup + ["metadata"] }
  function NextMetadataPath(backup: Path): Path { backup + ["next-metadata"] }

  /** The name of some original. */
  ghost predicate Numbered(backup: Path, q: Path) {
    exists i: nat :: q == BackupFile(backup, i)
  }

  lemma OwnUnnumbered(backup: Path)
    ensures !Numbered(backup, LedgerPath(backup)) && !Numbered(backup, NextMetadataPath(backup))
    ensures !Numbered(backup, OldMetadataPath(backup)) && !Numbered(backup, backup)
  {
    forall i: nat ensures BackupFile(backup, i) !in
      {LedgerPath(backup), NextMetadataPath(backup), OldMetadataPath(backup), backup}
    {
      BackupNamesDiffer(backup, i);
    }
  }

  lemma BackupNamesDiffer(backup: Path, i: nat)
    ensures BackupFile(backup, i) != LedgerPath(backup)
    ensures BackupFile(backup, i) != OldMetadataPath(backup)
    ensures BackupFile(backup, i) != NextMetadataPath(backup)
    ensures LedgerPath(backup) != OldMetadataPath(backup)
    ensures LedgerPath(backup) != NextMetadataPath(backup)
    ensures OldMetadataPath(backup) != NextMetadataPath(backup)
    ensures Parent(BackupFile(backup, i)) == Parent(LedgerPath(backup)) == backup
    ensures Parent(OldMetadataPath(backup)) == Parent(NextMetadataPath(backup)) == backup
  {
    assert BackupFile(backup, i)[|backup|][0] == 'f';
    assert LedgerPath(backup)[|backup|][0] == 'l';
    assert OldMetadataPath(backup)[|backup|][0] == 'm';
    assert NextMetadataPath(backup)[|backup|][0] == 'n';
  }

  /** The originals that were moved away, each under its own number. */
  ghost function BackupFiles(base: Names, backup: Path, backed: seq<Item>): (files: Names)
    ensures forall i :: 0 <= i < |backed| && backed[i].final in base ==>
      BackupFile(backup, i) in files && files[BackupFile(backup, i)] == base[backed[i].final]
    ensures forall q :: q in files ==> exists i :: 0 <= i < |backed| && q == BackupFile(backup, i)
  {
    if |backed| == 0 then map[]
    else
      var n := |backed| - 1;
      var files := BackupFiles(base, backup, backed[..n]);
      assert forall i :: 0 <= i < n ==> backed[..n][i] == backed[i];
      assert forall i {:trigger BackupFile(backup, i)} :: 0 <= i < n ==>
        BackupFile(backup, i) != BackupFile(backup, n) by {
        forall i | 0 <= i < n ensures BackupFile(backup, i) != BackupFile(backup, n) {
          BackupFileInjective(backup, i, n);
        }
      }
      if backed[n].final in base then files[BackupFile(backup, n) := base[backed[n].final]] else files
  }

  function Pick(objects: Names, keys: set<Path>): Names {
    map q | q in keys && q in objects :: objects[q]
  }

  function Elements(paths: seq<Path>): set<Path> {
    set q | q in paths
  }

  /** The fixed part of a transaction. */
  datatype Ground = Ground(base: Names, backup: Path, meta: Path, outputs: Names)

  /** The progress of a transaction: the originals moved away, the outputs
      published, the directories made, the old metadata moved away, the new
      metadata published, and the sources used up. */
  datatype Progress = Progress(
    backed: seq<Item>, published: seq<Item>, made: Names,
    metadataBacked: bool, metadata: Option<Object>, consumed: set<Path>)

  /** What is left of the names the transaction started from. */
  function Kept(g: Ground, s: Progress): Names {
    g.base - s.consumed - Finals(s.backed) - (if s.metadataBacked then {g.meta} else {})
  }

  /** What the transaction has put into the environment. */
  function Live(g: Ground, s: Progress): Names {
    Pick(g.outputs, Finals(s.published)) + s.made + (if s.metadata.Some? then map[g.meta := s.metadata.value]
      else map[])
  }

  /** The originals in the backup directory. */
  ghost function Originals(g: Ground, s: Progress): Names {
    BackupFiles(g.base, g.backup, s.backed)
    + (if s.metadataBacked && g.meta in g.base then map[OldMetadataPath(g.backup) := g.base[g.meta]] else map[])
  }

  ghost function World(g: Ground, s: Progress, extra: Names): Names {
    Sum(Kept(g, s), Live(g, s), Originals(g, s), extra)
  }

  /** The lists describe moves that can be undone one by one. */
  ghost predicate Undoable(g: Ground, s: Progress) {
    && DistinctFinals(s.backed) && DistinctFinals(s.published)
    && (forall d :: d in s.backed ==> d.final in g.base && d.final !in s.consumed && d.final != g.meta)
    && (forall d :: d in s.published ==> d.final in g.outputs && d.final !in s.made && d.final != g.meta)
    && g.meta !in s.made && g.meta !in s.consumed
    && (s.metadataBacked ==> g.meta in g.base)
  }

  ghost predicate Consistent(g: Ground, s: Progress, extra: Names) {
    Undoable(g, s) && Separate(Kept(g, s), Live(g, s), Originals(g, s), extra)
  }

  lemma FinalsSnoc(items: seq<Item>, d: Item)
    ensures Finals(items + [d]) == Finals(items) + {d.final}
    ensures Sources(items + [d]) == Sources(items) + {d.source}
  {
    assert forall e :: e in items + [d] <==> e in items || e == d;
  }

  lemma FinalsMembers(items: seq<Item>)
    ensures forall d :: d in items ==> d.final in Finals(items)
  {
  }

  lemma DistinctSnoc(items: seq<Item>, d: Item)
    requires DistinctFinals(items)
    ensures DistinctFinals(items + [d]) <==> d.final !in Finals(items)
  {
    if d.final in Finals(items) {
      var e :| e in items && e.final == d.final;
      var i :| 0 <= i < |items| && items[i] == e;
      assert (items + [d])[i].final == (items + [d])[|items|].final;
    } else {
      forall i, j | 0 <= i < j < |items + [d]|
        ensures (items + [d])[i].final != (items + [d])[j].final
      {
        if j == |items| {
          assert items[i] in items;
        }
      }
    }
  }

  // ------------------------------------------------------- steps and undoing

  // One lemma for each component, so that no proof sees two of them open.

  lemma KeptBackup(g: Ground, s: Progress, d: Item)
    ensures Kept(g, s.(backed := s.backed + [d])) == Kept(g, s) - {d.final}
  {
    FinalsSnoc(s.backed, d);
  }

  lemma KeptConsumed(g: Ground, s: Progress, d: Item)
    ensures Kept(g, s.(published := s.published + [d], consumed := s.consumed + {d.source})) == Kept(g, s) - {d.source}
  {
  }

  lemma KeptMetadata(g: Ground, s: Progress)
    requires !s.metadataBacked
    ensures Kept(g, s.(metadataBacked := true)) == Kept(g, s) - {g.meta}
  {
  }

  lemma KeptMetadataBack(g: Ground, s: Progress)
    requires Undoable(g, s) && s.metadataBacked
    ensures Kept(g, s.(metadataBacked := false)) == Kept(g, s)[g.meta := g.base[g.meta]]
  {
    assert g.meta !in Finals(s.backed);
  }

  lemma KeptBack(g: Ground, s: Progress, d: Item)
    requires d.final in g.base && d.final !in s.consumed && d.final != g.meta && d.final !in Finals(s.backed)
    ensures Kept(g, s) == Kept(g, s.(backed := s.backed + [d]))[d.final := g.base[d.final]]
  {
    FinalsSnoc(s.backed, d);
  }

  lemma PickSnoc(objects: Names, items: seq<Item>, d: Item)
    requires d.final in objects
    ensures Pick(objects, Finals(items + [d])) == Pick(objects, Finals(items))[d.final := objects[d.final]]
    ensures d.final !in Finals(items) ==> d.final !in Pick(objects, Finals(items))
  {
    FinalsSnoc(items, d);
  }

  lemma LivePublish(g: Ground, s: Progress, d: Item)
    requires d.final in g.outputs && d.final !in s.made && d.final != g.meta
    ensures Live(g, s.(published := s.published + [d], consumed := s.consumed + {d.source}))
         == Live(g, s)[d.final := g.outputs[d.final]]
  {
    PickSnoc(g.outputs, s.published, d);
    hide Pick, Finals;
  }

  lemma LiveUnpublish(g: Ground, s: Progress, d: Item)
    requires d.final in g.outputs && d.final !in s.made && d.final != g.meta && d.final !in Finals(s.published)
    ensures d.final in Live(g, s.(published := s.published + [d]))
    ensures Live(g, s.(published := s.published + [d]))[d.final] == g.outputs[d.final]
    ensures Live(g, s) == Live(g, s.(published := s.published + [d])) - {d.final}
  {
    hide Pick, Finals, Live;
    PickSnoc(g.outputs, s.published, d);
    LivePublish(g, s, d);
    LiveSame(g, s.(published := s.published + [d]),
      s.(published := s.published + [d], consumed := s.consumed + {d.source}));
    NotLive(g, s, d.final);
    SetThenRemove(Live(g, s), d.final, g.outputs[d.final]);
  }

  lemma NotLive(g: Ground, s: Progress, p: Path)
    requires p !in Pick(g.outputs, Finals(s.published)) && p !in s.made && p != g.meta
    ensures p !in Live(g, s)
  {
  }

  lemma MetadataNotLive(g: Ground, s: Progress)
    requires Undoable(g, s) && s.metadata.None?
    ensures g.meta !in Live(g, s)
  {
    assert g.meta !in Finals(s.published);
  }

  lemma LiveMake(g: Ground, s: Progress, p: Path, made: Object)
    requires p != g.meta
    ensures Live(g, s.(made := s.made[p := made])) == Live(g, s)[p := made]
  {
  }

  lemma LiveUnmake(g: Ground, s: Progress, p: Path)
    requires p != g.meta && s.published == [] && p in s.made
    ensures p in Live(g, s) && Live(g, s)[p] == s.made[p]
    ensures Live(g, s.(made := s.made - {p})) == Live(g, s) - {p}
  {
  }

  lemma LiveMetadata(g: Ground, s: Progress, o: Object)
    requires s.metadata.None?
    ensures Live(g, s.(metadata := Some(o))) == Live(g, s)[g.meta := o]
  {
  }

  lemma LiveNoMetadata(g: Ground, s: Progress)
    requires Undoable(g, s) && s.metadata.Some?
    ensures g.meta in Live(g, s) && Live(g, s)[g.meta] == s.metadata.value
    ensures Live(g, s.(metadata := None)) == Live(g, s) - {g.meta}
  {
    assert g.meta !in Finals(s.published);
  }

  lemma OriginalsBackup(g: Ground, s: Progress, d: Item)
    requires d.final in g.base && !s.metadataBacked
    ensures Originals(g, s.(backed := s.backed + [d]))
         == Originals(g, s)[BackupFile(g.backup, |s.backed|) := g.base[d.final]]
  {
    assert (s.backed + [d])[..|s.backed|] == s.backed;
  }

  lemma OriginalsMetadata(g: Ground, s: Progress)
    requires g.meta in g.base
    ensures Originals(g, s.(metadataBacked := true))
         == Originals(g, s.(metadataBacked := false))[OldMetadataPath(g.backup) := g.base[g.meta]]
    ensures OldMetadataPath(g.backup) !in Originals(g, s.(metadataBacked := false))
  {
    if OldMetadataPath(g.backup) in BackupFiles(g.base, g.backup, s.backed) {
      var i :| 0 <= i < |s.backed| && OldMetadataPath(g.backup) == BackupFile(g.backup, i);
      BackupNamesDiffer(g.backup, i);
    }
  }

  lemma OriginalsUnderBackup(g: Ground, s: Progress)
    ensures forall q :: q in Originals(g, s) ==> Prefix(g.backup, q)
  {
    forall q | q in Originals(g, s)
      ensures Prefix(g.backup, q)
    {
      if q in BackupFiles(g.base, g.backup, s.backed) {
        var i :| 0 <= i < |s.backed| && q == BackupFile(g.backup, i);
      }
    }
  }

  lemma LedgerNotOriginal(g: Ground, s: Progress)
    ensures LedgerPath(g.backup) !in Originals(g, s) && NextMetadataPath(g.backup) !in Originals(g, s)
    ensures g.backup !in Originals(g, s)
  {
    BackupNamesDiffer(g.backup, 0);
    forall q | q in BackupFiles(g.base, g.backup, s.backed)
      ensures q != LedgerPath(g.backup) && q != NextMetadataPath(g.backup) && q != g.backup
    {
      var i :| 0 <= i < |s.backed| && q == BackupFile(g.backup, i);
      BackupNamesDiffer(g.backup, i);
    }
  }

  lemma NumberUnused(g: Ground, s: Progress)
    ensures BackupFile(g.backup, |s.backed|) !in Originals(g, s)
  {
    var q := BackupFile(g.backup, |s.backed|);
    BackupNamesDiffer(g.backup, |s.backed|);
    if q in BackupFiles(g.base, g.backup, s.backed) {
      var i :| 0 <= i < |s.backed| && q == BackupFile(g.backup, i);
      BackupFileInjective(g.backup, i, |s.backed|);
    }
  }

  lemma LiveMembers(g: Ground, s: Progress)
    requires Undoable(g, s)
    ensures forall q :: q in Finals(s.published) ==> q in Live(g, s)
    ensures forall q :: q in s.made ==> q in Live(g, s)
  {
  }

  /** Moving an original away. */
  lemma StepBackup(g: Ground, s: Progress, extra: Names, d: Item)
    requires Consistent(g, s, extra) && !s.metadataBacked
    requires d.final in Kept(g, s) && d.final != g.meta
    requires BackupFile(g.backup, |s.backed|) !in World(g, s, extra)
    ensures var t := s.(backed := s.backed + [d]);
      && Consistent(g, t, extra)
      && World(g, t, extra) == Move(World(g, s, extra), d.final, BackupFile(g.backup, |s.backed|))
  {
    hide Sum, Separate, Kept, Live, Originals, BackupFiles, DistinctFinals, BackupFile, Move, Finals;
    var t := s.(backed := s.backed + [d]);
    KeptMember(g, s, d.final);
    DistinctSnoc(s.backed, d);
    OriginalsBackup(g, s, d);
    KeptBackup(g, s, d);
    LiveSame(g, s, t);
    KeptToOriginals(Kept(g, s), Live(g, s), Originals(g, s), extra, d.final, BackupFile(g.backup, |s.backed|));
  }

  lemma KeptMember(g: Ground, s: Progress, q: Path)
    requires q in Kept(g, s)
    ensures q in g.base && Kept(g, s)[q] == g.base[q]
    ensures q !in s.consumed && q !in Finals(s.backed) && (s.metadataBacked ==> q != g.meta)
  {
  }

  lemma LiveSame(g: Ground, s: Progress, t: Progress)
    requires s.published == t.published && s.made == t.made && s.metadata == t.metadata
    ensures Live(g, s) == Live(g, t)
  {
  }

  /** Writing a file of the transaction's own. */
  lemma StepExtra(g: Ground, s: Progress, extra: Names, p: Path, made: Object)
    requires Consistent(g, s, extra)
    requires p in extra || p !in World(g, s, extra)
    ensures World(g, s, extra[p := made]) == World(g, s, extra)[p := made]
    ensures Consistent(g, s, extra[p := made])
  {
    hide Sum, Separate, Kept, Live, Originals, Undoable;
    ExtraSet(Kept(g, s), Live(g, s), Originals(g, s), extra, p, made);
  }

  /** Publishing an output. */
  lemma StepPublish(g: Ground, s: Progress, extra: Names, d: Item)
    requires Consistent(g, s, extra)
    requires d.source in Kept(g, s) && d.final in g.outputs && g.base[d.source] == g.outputs[d.final]
    requires d.final !in World(g, s, extra) && d.final != g.meta && d.source != g.meta
    ensures var t := s.(published := s.published + [d], consumed := s.consumed + {d.source});
      && Consistent(g, t, extra)
      && World(g, t, extra) == Move(World(g, s, extra), d.source, d.final)
  {
    var t := s.(published := s.published + [d], consumed := s.consumed + {d.source});
    hide Sum, Separate, Kept, Live, Originals, BackupFiles, DistinctFinals, BackupFile, Move, Finals;
    KeptMember(g, s, d.source);
    NotInSum(Kept(g, s), Live(g, s), Originals(g, s), extra, d.final);
    FinalsMembers(s.backed);
    FinalsMembers(s.published);
    LiveMembers(g, s);
    DistinctSnoc(s.published, d);
    KeptConsumed(g, s, d);
    LivePublish(g, s, d);
    OriginalsSame(g, s, t);
    KeptToLive(Kept(g, s), Live(g, s), Originals(g, s), extra, d.source, d.final);
  }

  lemma OriginalsSame(g: Ground, s: Progress, t: Progress)
    requires s.backed == t.backed && s.metadataBacked == t.metadataBacked
    ensures Originals(g, s) == Originals(g, t)
  {
  }

  lemma KeptSame(g: Ground, s: Progress, t: Progress)
    requires s.backed == t.backed && s.metadataBacked == t.metadataBacked && s.consumed == t.consumed
    ensures Kept(g, s) == Kept(g, t)
  {
  }

  lemma StepMake(g: Ground, s: Progress, extra: Names, p: Path, made: Object)
    requires Consistent(g, s, extra)
    requires p !in World(g, s, extra) && p != g.meta
    ensures var t := s.(made := s.made[p := made]);
      && Consistent(g, t, extra)
      && World(g, t, extra) == World(g, s, extra)[p := made]
  {
    var t := s.(made := s.made[p := made]);
    hide Sum, Separate, Kept, Live, Originals, BackupFiles, DistinctFinals, BackupFile, Finals;
    NotInSum(Kept(g, s), Live(g, s), Originals(g, s), extra, p);
    FinalsMembers(s.published);
    LiveMembers(g, s);
    KeptSame(g, s, t);
    OriginalsSame(g, s, t);
    LiveMake(g, s, p, made);
    LiveAdded(Kept(g, s), Live(g, s), Originals(g, s), extra, p, made);
  }

  lemma StepBackupMetadata(g: Ground, s: Progress, extra: Names)
    requires Consistent(g, s, extra) && !s.metadataBacked
    requires g.meta in Kept(g, s) && OldMetadataPath(g.backup) !in World(g, s, extra)
    ensures var t := s.(metadataBacked := true);
      && Consistent(g, t, extra)
      && World(g, t, extra) == Move(World(g, s, extra), g.meta, OldMetadataPath(g.backup))
  {
    hide Sum, Separate, Kept, Live, Originals, BackupFiles, DistinctFinals, OldMetadataPath, Move, Finals;
    var t := s.(metadataBacked := true);
    KeptMember(g, s, g.meta);
    KeptMetadata(g, s);
    OriginalsMetadata(g, s);
    assert s.(metadataBacked := false) == s;
    LiveSame(g, s, t);
    KeptToOriginals(Kept(g, s), Live(g, s), Originals(g, s), extra, g.meta, OldMetadataPath(g.backup));
  }

  lemma StepPublishMetadata(g: Ground, s: Progress, extra: Names)
    requires Consistent(g, s, extra) && s.metadata.None?
    requires NextMetadataPath(g.backup) in extra && g.meta !in World(g, s, extra)
    ensures var next := NextMetadataPath(g.backup); var t := s.(metadata := Some(extra[next]));
      && Consistent(g, t, extra - {next})
      && World(g, t, extra - {next}) == Move(World(g, s, extra), next, g.meta)
  {
    hide Sum, Separate, Kept, Live, Originals, BackupFiles, DistinctFinals, NextMetadataPath, Move, Finals;
    var next := NextMetadataPath(g.backup);
    var t := s.(metadata := Some(extra[next]));
    KeptSame(g, s, t);
    OriginalsSame(g, s, t);
    LiveMetadata(g, s, extra[next]);
    ExtraToLive(Kept(g, s), Live(g, s), Originals(g, s), extra, next, g.meta);
  }

  lemma UndoPublishMetadata(g: Ground, s: Progress, extra: Names)
    requires Consistent(g, s, extra) && s.metadata.Some?
    ensures var t := s.(metadata := None);
      && Consistent(g, t, extra)
      && g.meta in World(g, s, extra) && World(g, s, extra)[g.meta] == s.metadata.value
      && World(g, t, extra) == World(g, s, extra) - {g.meta}
  {
    hide Sum, Separate, Kept, Live, Originals, BackupFiles, DistinctFinals, Finals;
    var t := s.(metadata := None);
    KeptSame(g, s, t);
    OriginalsSame(g, s, t);
    LiveNoMetadata(g, s);
    LiveRemoved(Kept(g, s), Live(g, s), Originals(g, s), extra, g.meta);
  }

  lemma UndoBackupMetadata(g: Ground, s: Progress, extra: Names)
    requires Consistent(g, s, extra) && s.metadataBacked
    ensures var from := OldMetadataPath(g.backup);
      from in World(g, s, extra) && World(g, s, extra)[from] == g.base[g.meta]
    ensures g.meta !in World(g, s, extra) ==>
      var t := s.(metadataBacked := false); var from := OldMetadataPath(g.backup);
      && Consistent(g, t, extra)
      && World(g, t, extra) == Move(World(g, s, extra), from, g.meta)
  {
    hide Sum, Separate, Kept, Live, Originals, BackupFiles, DistinctFinals, OldMetadataPath, Move, Finals;
    var t := s.(metadataBacked := false);
    var from := OldMetadataPath(g.backup);
    assert s.(metadataBacked := true) == s;
    OriginalsMetadata(g, s);
    KeptMetadataBack(g, s);
    LiveSame(g, s, t);
    OriginalsMember(Kept(g, s), Live(g, s), Originals(g, s), extra, from);
    assert Originals(g, t) == Originals(g, s) - {from};
    if g.meta !in World(g, s, extra) {
      OriginalsToKept(Kept(g, s), Live(g, s), Originals(g, s), extra, from, g.meta);
    }
  }

  lemma UndoPublish(g: Ground, s: Progress, extra: Names)
    requires Consistent(g, s, extra) && |s.published| > 0
    ensures var n := |s.published| - 1; var d := s.published[n]; var t := s.(published := s.published[..n]);
      && Consistent(g, t, extra)
      && d.final in World(g, s, extra) && World(g, s, extra)[d.final] == g.outputs[d.final]
      && World(g, t, extra) == World(g, s, extra) - {d.final}
  {
    hide Sum, Separate, Kept, Live, Originals, BackupFiles, DistinctFinals, Finals;
    var n := |s.published| - 1;
    var d := s.published[n];
    var t := s.(published := s.published[..n]);
    assert s.published == t.published + [d];
    assert s == t.(published := t.published + [d]);
    DistinctInit(t.published, d);
    assert d in s.published && forall e :: e in t.published ==> e in s.published;
    LiveUnpublish(g, t, d);
    KeptSame(g, s, t);
    OriginalsSame(g, s, t);
    LiveRemoved(Kept(g, s), Live(g, s), Originals(g, s), extra, d.final);
  }

  lemma DistinctInit(items: seq<Item>, d: Item)
    requires DistinctFinals(items + [d])
    ensures DistinctFinals(items) && d.final !in Finals(items)
  {
    assert forall i :: 0 <= i < |items| ==> (items + [d])[i] == items[i];
    DistinctSnoc(items, d);
  }

  lemma UndoBackup(g: Ground, s: Progress, extra: Names)
    requires Consistent(g, s, extra) && |s.backed| > 0 && !s.metadataBacked
    ensures var n := |s.backed| - 1; var d := s.backed[n]; var from := BackupFile(g.backup, n);
      from in World(g, s, extra) && World(g, s, extra)[from] == g.base[d.final]
    ensures var n := |s.backed| - 1; var d := s.backed[n]; var t := s.(backed := s.backed[..n]);
      d.final !in World(g, s, extra) ==>
      && Consistent(g, t, extra)
      && World(g, t, extra) == Move(World(g, s, extra), BackupFile(g.backup, n), d.final)
  {
    hide Sum, Separate, Kept, Live, Originals, BackupFiles, DistinctFinals, BackupFile, Move, Finals;
    var n := |s.backed| - 1;
    var d := s.backed[n];
    var t := s.(backed := s.backed[..n]);
    var from := BackupFile(g.backup, n);
    assert s.backed == t.backed + [d];
    assert s == t.(backed := t.backed + [d]);
    assert d in s.backed && forall e :: e in t.backed ==> e in s.backed;
    DistinctInit(t.backed, d);
    OriginalsBackup(g, t, d);
    NumberUnused(g, t);
    assert Originals(g, t) == Originals(g, s) - {from};
    KeptBack(g, t, d);
    LiveSame(g, s, t);
    OriginalsMember(Kept(g, s), Live(g, s), Originals(g, s), extra, from);
    if d.final !in World(g, s, extra) {
      OriginalsToKept(Kept(g, s), Live(g, s), Originals(g, s), extra, from, d.final);
    }
  }

  lemma UndoMake(g: Ground, s: Progress, extra: Names, p: Path)
    requires Consistent(g, s, extra) && s.published == [] && p in s.made
    ensures var t := s.(made := s.made - {p});
      && Consistent(g, t, extra)
      && p in World(g, s, extra) && World(g, s, extra)[p] == s.made[p]
      && World(g, t, extra) == World(g, s, extra) - {p}
  {
    hide Sum, Separate, Kept, Live, Originals, BackupFiles, DistinctFinals, Finals;
    var t := s.(made := s.made - {p});
    KeptSame(g, s, t);
    OriginalsSame(g, s, t);
    LiveUnmake(g, s, p);
    LiveRemoved(Kept(g, s), Live(g, s), Originals(g, s), extra, p);
  }

  /** With everything undone only the used-up sources are missing. */
  lemma NothingDone(g: Ground, s: Progress, extra: Names)
    requires s.backed == [] && s.published == [] && s.made == map[] && s.metadata.None? && !s.metadataBacked
    ensures World(g, s, extra) == (g.base - s.consumed) + extra
  {
    assert Kept(g, s) == g.base - s.consumed;
    assert Live(g, s) == map[];
    assert Originals(g, s) == map[];
  }
}
