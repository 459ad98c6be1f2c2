/** What beginning, accepting and promoting mean, path by path and record by
    record. */
module VenvMeaning {
  import opened Wrappers
  import opened Text
  import opened Records
  import opened FileSystem
  import opened Ownership
  import opened Frames
  import opened Geometry
  import opened InstalledRecords
  import opened RecordMerge
  import opened Layout
  import opened VenvPlan
  import opened VenvOutcome
  import opened VenvPrepare
  import opened VenvOpening
  import opened VenvUndo
  import opened VenvConclude
  import opened VenvSweep
  import opened VenvResult
  import opened VenvRuns

  /** A file with these bytes and no second link. */
  ghost predicate HasFile(names: Names, p: Path, digest: string, size: int) {
    && p in names && names[p].File? && names[p].links == 1
    && names[p].content.Data? && names[p].content.digest == digest && names[p].content.size == size
  }

  /** The owners a record can have. */
  ghost predicate WellOwned(d: Owned) {
    && d.distribution != "" && d.version != ""
    && (d.shared == [] ||
        (&& d.scheme == "site" && 2 <= |d.shared| <= 64
         && d.shared[0] == Owner(d.distribution, d.version, d.artifact)
         && (forall o :: o in d.shared ==> o.distribution != "" && o.version != "" && o.artifact != "")
         && forall i, j :: 0 <= i < j < |d.shared| ==> Less(d.shared[i].distribution, d.shared[j].distribution)))
  }

  /** A record under its own key, well owned, with a digest in lower case, and its
      file on disk with the recorded bytes. */
  ghost predicate Recorded(names: Names, root: Path, key: string, d: Owned) {
    && key == d.scheme + "/" + d.relative && WellOwned(d)
    && |d.digest| == 64 && (forall c :: c in d.digest ==> '0' <= c <= '9' || 'a' <= c <= 'f')
    && Final(root, d).Some? && HasFile(names, Final(root, d).value, d.digest, d.size)
  }

  function MetadataFile(root: Path): Path {
    root + [".heliopause", "pypi-transaction.json"]
  }

  /** The table there is: none, or one of version 2 with at least one record, all
      of them true. */
  ghost predicate TableTrue(names: Names, root: Path) {
    var meta := MetadataFile(root);
    meta in names ==>
      && names[meta].File? && names[meta].links == 1 && names[meta].content.Ownership?
      && names[meta].content.version == 2 && |names[meta].content.files| > 0
      && forall key :: key in names[meta].content.files ==> Recorded(names, root, key, names[meta].content.files[key])
  }

  lemma HexExactly(s: string)
    ensures HexDigest(s) <==> |s| == 64 && forall c :: c in s ==> '0' <= c <= '9' || 'a' <= c <= 'f'
  {
    assert forall i :: 0 <= i < |s| ==> s[i] in s;
  }

  lemma RecordedExactly(names: Names, root: Path, key: string, d: Owned)
    ensures Recorded(names, root, key, d) <==>
      ValidEntry(root, key, d) && HasBytes(names, Final(root, d).value, d.digest, d.size)
  {
    hide HexDigest, ValidOwners, Final;
    HexExactly(d.digest);
    ValidOwnersExactly(d);
  }

  lemma TableExactly(names: Names, root: Path)
    ensures ReadState(names, root).Some? && VerifyState(names, root, ReadState(names, root).value) <==>
      TableTrue(names, root)
    ensures ReadState(names, root).Some? ==>
      ReadState(names, root).value ==
        if MetadataFile(root) in names then names[MetadataFile(root)].content.files else map[]
  {
    hide HexDigest, ValidOwners, Final, Recorded, ValidEntry, HasBytes;
    var meta := MetadataFile(root);
    if meta in names && names[meta].File? && names[meta].content.Ownership? {
      var files := names[meta].content.files;
      forall key | key in files ensures Recorded(names, root, key, files[key]) <==>
        ValidEntry(root, key, files[key]) && VerifiedEntry(names, root, key, files[key]) {
        RecordedExactly(names, root, key, files[key]);
        EntryVerified(names, root, key, files[key]);
      }
    }
  }

  lemma EntryVerified(names: Names, root: Path, key: string, d: Owned)
    ensures ValidEntry(root, key, d) ==>
      (VerifiedEntry(names, root, key, d) <==> HasBytes(names, Final(root, d).value, d.digest, d.size))
  {
    hide HexDigest, ValidOwners, Final;
  }

  /** The directories of an environment, its configuration, and no directory of an
      earlier promotion. */
  ghost predicate Open(names: Names, root: Path) {
    && IsDir(names, root) && IsDir(names, root + ["bin"])
    && IsDir(names, root + ["lib", "python3.14", "site-packages"])
    && (root + ["share"] in names ==> names[root + ["share"]].Dir?)
    && (root + ["include"] in names ==> names[root + ["include"]].Dir?)
    && (root + [".heliopause"] in names ==> names[root + [".heliopause"]].Dir?)
    && root + ["pyvenv.cfg"] in names && names[root + ["pyvenv.cfg"]].File? && names[root + ["pyvenv.cfg"]].links == 1
    && forall q :: q in names && |q| == |root| + 1 && q[..|root|] == root ==>
        !(".heliopause-pypi-commit-" <= q[|root|])
  }

  /** Which environments promotion begins in. */
  lemma StartableExactly(names: Names, root: Path)
    ensures Startable(names, root) <==> Open(names, root) && TableTrue(names, root)
  {
    hide TableTrue, ReadState, VerifyState, SchemeRoot, BackupPath;
    TableExactly(names, root);
    SchemeDirectory(root, "site");
    forall q ensures BackupPath(root, q) <==>
      |q| == |root| + 1 && q[..|root|] == root && ".heliopause-pypi-commit-" <= q[|root|] {
      BackupExactly(root, q);
    }
  }

  lemma BackupExactly(root: Path, q: Path)
    ensures BackupPath(root, q) <==>
      |q| == |root| + 1 && q[..|root|] == root && ".heliopause-pypi-commit-" <= q[|root|]
  {
    PrefixText();
  }

  lemma PrefixText()
    ensures |COMMIT_PREFIX| == 24 && COMMIT_PREFIX == ".heliopause-pypi-commit-"
    ensures forall s: string :: |s| >= 24 && s[..24] == COMMIT_PREFIX <==> COMMIT_PREFIX <= s
  {
  }

  // ------------------------------------------------------------- one update

  /** The update is for this distribution. */
  ghost predicate About(ds: seq<Destination>, distribution: string) {
    exists e, o :: e in ds && HasOwner(e.owned, o) && o.distribution == distribution
  }

  ghost predicate AllAbout(ds: seq<Destination>, d: Owned) {
    forall o :: HasOwner(d, o) ==> About(ds, o.distribution)
  }

  ghost predicate NoneAbout(ds: seq<Destination>, d: Owned) {
    forall o :: HasOwner(d, o) ==> !About(ds, o.distribution)
  }

  /** The record that the update has under a key. */
  ghost predicate Under(e: Destination, key: string) {
    key == e.owned.scheme + "/" + e.owned.relative
  }

  /** A file that can be promoted: well owned, in its private place with the bytes
      of its record, and with a free or managed final path below directories. */
  ghost predicate Promising(names: Names, root: Path, current: Files, e: Destination) {
    && WellOwned(e.owned) && Final(root, e.owned).Some? && (e.bound.Some? ==> e.bound == Final(root, e.owned))
    && HasFile(names, e.source, e.owned.digest, e.owned.size)
    && (Final(root, e.owned).value in names ==> e.owned.scheme + "/" + e.owned.relative in current)
    && forall k :: 0 <= k < |Final(root, e.owned).value| && Final(root, e.owned).value[..k] in names ==>
        names[Final(root, e.owned).value[..k]].Dir?
  }

  lemma AboutExactly(ds: seq<Destination>, d: Owned)
    ensures forall distribution :: About(ds, distribution) <==> Updated(Owneds(ds), distribution)
    ensures AllAbout(ds, d) <==> Replaced(Owneds(ds), d)
    ensures NoneAbout(ds, d) <==> Untouched(Owneds(ds), d)
  {
    hide HasOwner, Owners;
    forall e: Owned, o ensures HasOwner(e, o) <==> o in Owners(e) {
      OwnersExactly(e, o);
    }
    var news := Owneds(ds);
    forall distribution ensures About(ds, distribution) <==> Updated(news, distribution) {
      if About(ds, distribution) {
        var e, o :| e in ds && HasOwner(e.owned, o) && o.distribution == distribution;
        var i :| 0 <= i < |ds| && ds[i] == e;
        assert news[i] == e.owned && e.owned in news && NamesDistribution(e.owned, distribution);
      }
      if Updated(news, distribution) {
        var n :| n in news && NamesDistribution(n, distribution);
        var i :| 0 <= i < |news| && news[i] == n;
        var o :| o in Owners(n) && o.distribution == distribution;
        assert ds[i] in ds && ds[i].owned == n;
      }
    }
  }

  lemma PromisingExactly(names: Names, root: Path, current: Files, e: Destination)
    ensures Promising(names, root, current, e) <==> Admissible(names, root, current, e)
  {
    hide ValidOwners, Final;
    ValidOwnersExactly(e.owned);
    if Final(root, e.owned).Some? {
      var final := Final(root, e.owned).value;
      FinalInScheme(root, e.owned, e.owned);
      assert |final| > 0 && |Up(final)| == |final| - 1;
      assert forall k :: 0 <= k < |final| ==> Up(final)[..k] == final[..k];
    }
  }

  /** The new records under their keys. */
  lemma NewExactly(root: Path, ds: seq<Destination>, key: string)
    requires forall e :: e in ds ==> Final(root, e.owned).Some?
    ensures key in NewFiles(Owneds(ds)) <==> exists e :: e in ds && Under(e, key)
    ensures key in NewFiles(Owneds(ds)) ==>
      && (exists e :: e in ds && Under(e, key) && e.owned == NewFiles(Owneds(ds))[key])
      && forall e :: e in ds && Under(e, key) ==>
          e.owned.scheme == NewFiles(Owneds(ds))[key].scheme && e.owned.relative == NewFiles(Owneds(ds))[key].relative
  {
    hide Final, NewFiles;
    var news := Owneds(ds);
    NewFilesEntries(news);
    if key in NewFiles(news) {
      var i :| 0 <= i < |news| && news[i] == NewFiles(news)[key];
      assert ds[i] in ds && Under(ds[i], key) && ds[i].owned == NewFiles(news)[key];
      forall e | e in ds && Under(e, key)
        ensures e.owned.scheme == NewFiles(news)[key].scheme && e.owned.relative == NewFiles(news)[key].relative {
        FinalScheme(root, e.owned);
        FinalScheme(root, ds[i].owned);
        KeyInjective(root, e.owned, ds[i].owned);
      }
    }
    if e :| e in ds && Under(e, key) {
      var i :| 0 <= i < |ds| && ds[i] == e;
      assert news[i] in news;
    }
  }

  lemma FinalScheme(root: Path, d: Owned)
    requires Final(root, d).Some?
    ensures SchemeRoot(root, d.scheme).Some?
  {
  }

  /** No distribution of the update has two versions. */
  ghost predicate Unanimous(ds: seq<Destination>) {
    forall d, e, o, p ::
      d in ds && e in ds && HasOwner(d.owned, o) && HasOwner(e.owned, p) && o.distribution == p.distribution ==>
        o.version == p.version
  }

  /** An old record is left alone, or is wholly for distributions of the update; the
      latter if the update has its key. */
  ghost predicate Decided(ds: seq<Destination>, key: string, old_: Owned) {
    && (AllAbout(ds, old_) || NoneAbout(ds, old_))
    && forall e :: e in ds && Under(e, key) ==> AllAbout(ds, old_) && e.owned.scheme == old_.scheme
  }

  /** Which updates are accepted: all their files are promising and go to different
      places, no distribution has two versions, and every old record is decided. */
  lemma AcceptableExactly(names: Names, root: Path, current: Files, ds: seq<Destination>)
    ensures Acceptable(names, root, current, ds) <==>
      && ds != [] && (forall e :: e in ds ==> Promising(names, root, current, e))
      && (forall i, j :: 0 <= i < j < |ds| ==> Final(root, ds[i].owned) != Final(root, ds[j].owned))
      && Unanimous(ds) && forall key :: key in current ==> Decided(ds, key, current[key])
  {
    hide Promising, Admissible, Final, Compatible, Bind, Unanimous, Decided;
    forall i | 0 <= i < |ds|
      ensures ds[i] in ds && (Promising(names, root, current, ds[i]) <==> Admissible(names, root, current, ds[i])) {
      PromisingExactly(names, root, current, ds[i]);
    }
    if forall e :: e in ds ==> Promising(names, root, current, e) {
      forall i | 0 <= i < |ds| ensures Bind(root, ds[i]) == Final(root, ds[i].owned) && Bind(root, ds[i]).Some?
        ensures ValidOwners(ds[i].owned) {
        PromisingBinds(names, root, current, ds[i]);
      }
      CompatibleExactly(root, current, ds);
    }
  }

  lemma PromisingBinds(names: Names, root: Path, current: Files, e: Destination)
    requires Promising(names, root, current, e)
    ensures Bind(root, e) == Final(root, e.owned) && Final(root, e.owned).Some? && ValidOwners(e.owned)
  {
    hide Final, ValidOwners;
    ValidOwnersExactly(e.owned);
  }

  lemma VersionsExactly(d: Owned, e: Owned)
    ensures SameVersion(d, e) <==>
      forall o, p :: HasOwner(d, o) && HasOwner(e, p) && o.distribution == p.distribution ==> o.version == p.version
  {
    hide HasOwner, Owners;
    forall o ensures (HasOwner(d, o) <==> o in Owners(d)) && (HasOwner(e, o) <==> o in Owners(e)) {
      OwnersExactly(d, o);
      OwnersExactly(e, o);
    }
  }

  lemma UnanimousExactly(ds: seq<Destination>)
    ensures Unanimous(ds) <==> forall d, e :: d in Owneds(ds) && e in Owneds(ds) ==> SameVersion(d, e)
  {
    hide HasOwner, SameVersion;
    NewsOf(ds);
    forall d: Owned, e ensures SameVersion(d, e) <==>
      forall o, p :: HasOwner(d, o) && HasOwner(e, p) && o.distribution == p.distribution ==> o.version == p.version {
      VersionsExactly(d, e);
    }
  }

  lemma DecidedExactly(root: Path, ds: seq<Destination>, key: string, old_: Owned)
    requires forall e :: e in ds ==> Final(root, e.owned).Some?
    ensures var news := Owneds(ds);
      Decided(ds, key, old_) <==>
        && (Replaced(news, old_) || Untouched(news, old_))
        && (key in NewFiles(news) ==> Replaced(news, old_) && old_.scheme == NewFiles(news)[key].scheme)
  {
    hide AllAbout, NoneAbout, Final, Replaced, Untouched, NewFiles, Owneds;
    AboutExactly(ds, old_);
    NewExactly(root, ds, key);
  }

  lemma CompatibleExactly(root: Path, current: Files, ds: seq<Destination>)
    requires forall e :: e in ds ==> Final(root, e.owned).Some? && ValidOwners(e.owned)
    ensures Compatible(current, Owneds(ds)) <==>
      ds != [] && Unanimous(ds) && forall key :: key in current ==> Decided(ds, key, current[key])
  {
    hide Final, SameVersion, ValidOwners, Replaced, Untouched, NewFiles, Unanimous, Decided;
    forall key | key in current
      ensures var news := Owneds(ds); Decided(ds, key, current[key]) <==>
        && (Replaced(news, current[key]) || Untouched(news, current[key]))
        && (key in NewFiles(news) ==>
            Replaced(news, current[key]) && current[key].scheme == NewFiles(news)[key].scheme) {
      DecidedExactly(root, ds, key, current[key]);
    }
    UnanimousExactly(ds);
    NewsOf(ds);
  }

  lemma NewsOf(ds: seq<Destination>)
    ensures forall e :: e in ds ==> e.owned in Owneds(ds)
    ensures forall n :: n in Owneds(ds) ==> exists e :: e in ds && e.owned == n
  {
    var news := Owneds(ds);
    forall e | e in ds ensures e.owned in news {
      var i :| 0 <= i < |ds| && ds[i] == e;
      assert news[i] == e.owned;
    }
    forall n | n in news ensures exists e :: e in ds && e.owned == n {
      var i :| 0 <= i < |news| && news[i] == n;
      assert ds[i] in ds;
    }
  }

  // --------------------------------------------------------------- one promotion

  /** The table on disk. */
  ghost predicate HasTable(names: Names, root: Path, files: Files) {
    var meta := MetadataFile(root);
    && meta in names && names[meta].File? && names[meta].links == 1
    && names[meta].content.Ownership? && names[meta].content.version == 2 && names[meta].content.files == files
  }

  lemma FinalSame(root: Path, d: Owned, e: Owned)
    requires d.scheme == e.scheme && d.relative == e.relative
    ensures Final(root, d) == Final(root, e)
  {
  }

  /** Different places have different keys. */
  lemma NewOnce(root: Path, ds: seq<Destination>, e: Destination)
    requires e in ds && forall e :: e in ds ==> Final(root, e.owned).Some?
    requires forall i, j :: 0 <= i < j < |ds| ==> Final(root, ds[i].owned) != Final(root, ds[j].owned)
    ensures var key := e.owned.scheme + "/" + e.owned.relative;
      key in NewFiles(Owneds(ds)) && NewFiles(Owneds(ds))[key] == e.owned
  {
    hide Final, NewFiles;
    var key := e.owned.scheme + "/" + e.owned.relative;
    assert Under(e, key);
    NewExactly(root, ds, key);
    var f :| f in ds && Under(f, key) && f.owned == NewFiles(Owneds(ds))[key];
    FinalSame(root, e.owned, f.owned);
    var i :| 0 <= i < |ds| && ds[i] == e;
    var j :| 0 <= j < |ds| && ds[j] == f;
    assert i == j;
  }

  /** The new table, record by record. */
  lemma DesiredExactly(root: Path, current: Files, ds: seq<Destination>)
    requires forall e :: e in ds ==> Final(root, e.owned).Some?
    requires forall i, j :: 0 <= i < j < |ds| ==> Final(root, ds[i].owned) != Final(root, ds[j].owned)
    requires forall key :: key in current ==> Decided(ds, key, current[key])
    ensures var files := Desired(current, Owneds(ds));
      && (forall e :: e in ds ==>
          && e.owned.scheme + "/" + e.owned.relative in files
          && files[e.owned.scheme + "/" + e.owned.relative] == e.owned)
      && (forall key :: key in files ==>
          || (exists e :: e in ds && Under(e, key))
          || (key in current && NoneAbout(ds, current[key]) && files[key] == current[key]))
      && forall key :: key in current && NoneAbout(ds, current[key]) ==> key in files && files[key] == current[key]
    ensures forall key :: key in current && !NoneAbout(ds, current[key]) && (forall e :: e in ds ==> !Under(e, key)) ==>
      key in ObsoleteKeys(current, Owneds(ds))
  {
    hide Final, NewFiles, AllAbout, NoneAbout, Replaced, Untouched;
    forall e | e in ds
      ensures var key := e.owned.scheme + "/" + e.owned.relative;
        key in NewFiles(Owneds(ds)) && NewFiles(Owneds(ds))[key] == e.owned {
      NewOnce(root, ds, e);
    }
    forall key ensures key in NewFiles(Owneds(ds)) <==> exists e :: e in ds && Under(e, key) {
      NewExactly(root, ds, key);
    }
    forall key | key in current
      ensures AllAbout(ds, current[key]) <==> Replaced(Owneds(ds), current[key])
      ensures !(AllAbout(ds, current[key]) && NoneAbout(ds, current[key])) {
      AboutExactly(ds, current[key]);
      NotBoth(ds, current[key]);
    }
  }

  lemma NotBoth(ds: seq<Destination>, d: Owned)
    ensures !(AllAbout(ds, d) && NoneAbout(ds, d))
  {
    var o := if d.shared == [] then Owner(d.distribution, d.version, d.artifact) else d.shared[0];
    assert HasOwner(d, o);
  }

  lemma RenewedParts(root: Path, a: Names, b: Names, ds: seq<Destination>)
    returns (current: Files, locked: Names, left: Names)
    requires Renewed(root, a, b, ds)
    ensures CommittedStep(root, a, b, current, ds, locked, left)
    ensures Agree(root, a, locked) && ReadState(locked, root) == Some(current) && Agree(root, left, b)
    ensures Acceptable(locked, root, current, ds)
    ensures ReadState(left, root) == Some(Desired(current, Owneds(ds)))
    ensures VerifyState(left, root, Desired(current, Owneds(ds)))
  {
    hide Agree, Acceptable, ReadState, VerifyState, Desired, VenvResult.Installed, Items;
    current, locked, left :| CommittedStep(root, a, b, current, ds, locked, left);
  }

  lemma TableKnown(names: Names, root: Path, files: Files)
    requires ReadState(names, root) == Some(files)
    ensures if MetadataFile(root) in names then HasTable(names, root, files) else files == map[]
  {
    hide ValidEntry;
  }

  lemma DesiredThere(root: Path, a: Names, b: Names, current: Files, ds: seq<Destination>, locked: Names, left: Names)
    requires CommittedStep(root, a, b, current, ds, locked, left)
    ensures MetadataFile(root) in b
    ensures forall key :: key in ObsoleteKeys(current, Owneds(ds)) ==>
      Final(root, current[key]).Some? && Final(root, current[key]).value !in b
  {
    hide Final, ObsoleteKeys, Private, Acceptable, Tree, SourcesPrivate, Items, Finals, Sources, Describes, Desired;
    hide FixedPaths, NewMetadata;
    FixedNotPrivate(root);
    assert MetadataPath(root) in left;
    forall key | key in ObsoleteKeys(current, Owneds(ds))
      ensures key in current && Final(root, current[key]).Some? && Final(root, current[key]).value !in b {
      ObsoleteFinal(locked, root, current, Owneds(ds), key);
      var p := Final(root, current[key]).value;
      assert p in ObsoletePaths(root, current, Owneds(ds));
      FinalInSomeScheme(root, current[key]);
      SchemeNotLock(root, p);
    }
  }

  lemma ObsoleteFinal(names: Names, root: Path, current: Files, news: seq<Owned>, key: string)
    requires ReadState(names, root) == Some(current) && key in ObsoleteKeys(current, news)
    ensures key in current && Final(root, current[key]).Some?
  {
    hide Final, HexDigest, ValidOwners;
    assert ValidEntry(root, key, current[key]);
  }

  /** What a committed update leaves of the old records, and where its own are. */
  lemma RenewedExactly(root: Path, a: Names, b: Names, ds: seq<Destination>) returns (current: Files, files: Files)
    requires Renewed(root, a, b, ds)
    ensures if MetadataFile(root) in a then HasTable(a, root, current) else current == map[]
    ensures HasTable(b, root, files) && TableTrue(b, root)
    ensures forall e :: e in ds ==>
      && e.owned.scheme + "/" + e.owned.relative in files && files[e.owned.scheme + "/" + e.owned.relative] == e.owned
    ensures forall key :: key in files ==>
      || (exists e :: e in ds && Under(e, key))
      || (key in current && NoneAbout(ds, current[key]) && files[key] == current[key])
    ensures forall key :: key in current && NoneAbout(ds, current[key]) ==> key in files && files[key] == current[key]
    ensures forall key :: key in current && !NoneAbout(ds, current[key]) && (forall e :: e in ds ==> !Under(e, key)) ==>
      Final(root, current[key]).Some? && Final(root, current[key]).value !in b
  {
    hide *;
    var locked, left;
    current, locked, left := RenewedParts(root, a, b, ds);
    files := Desired(current, Owneds(ds));
    AgreeRead(root, a, locked);
    AgreeRead(root, left, b);
    AgreeVerify(root, left, b, files);
    TableExactly(a, root);
    TableExactly(b, root);
    TableKnown(a, root, current);
    TableKnown(b, root, files);
    AcceptableExactly(locked, root, current, ds);
    forall e | e in ds ensures Final(root, e.owned).Some? {
      PromisingBinds(locked, root, current, e);
    }
    DesiredExactly(root, current, ds);
    DesiredThere(root, a, b, current, ds, locked, left);
  }

  // ---------------------------------------------------------------- the checks

  /** The lock and the configuration are still those of the transaction. */
  ghost predicate Ours(names: Names, f: Frame) {
    var lock, config := f.root + [".heliopause-pypi-transaction.lock"], f.root + ["pyvenv.cfg"];
    && lock in names && names[lock].File? && names[lock].links == 1 && names[lock].inode == f.guard.inode
    && config in names && names[config] == f.config && f.config.File? && f.config.links == 1
  }

  /** A path is as it was frozen: the very directory, or nothing. */
  ghost predicate AsFrozen(names: Names, f: Frame, q: Path) {
    if q in f.directories then q in names && names[q].Dir? && names[q] == f.directories[q]
    else q in f.absent && q !in names
  }

  lemma IdentityExactly(names: Names, f: Frame)
    ensures Identity(names, f) <==>
      && Ours(names, f)
      && (forall q :: q in f.directories ==> AsFrozen(names, f, q))
      && forall q :: q in f.absent ==> q !in names
  {
  }

  /** What is checked before a path is worked on: the six roots and every directory
      above it. */
  lemma PathIdentityExactly(names: Names, f: Frame, p: Path)
    ensures PathIdentity(names, f, p) <==>
      && Ours(names, f)
      && AsFrozen(names, f, f.root) && AsFrozen(names, f, f.root + ["lib", "python3.14", "site-packages"])
      && AsFrozen(names, f, f.root + ["bin"]) && AsFrozen(names, f, f.root + ["share"])
      && AsFrozen(names, f, f.root + ["include"]) && AsFrozen(names, f, f.root + [".heliopause"])
      && forall k :: 0 <= k <= |p| ==> AsFrozen(names, f, p[..k])
  {
    hide AsFrozen, PlannedAt, SchemeRoot;
    SchemeDirectory(f.root, "site");
    forall q ensures AsFrozen(names, f, q) <==> PlannedAt(names, f, q) {
      AsPlanned(names, f, q);
    }
    assert FixedPaths(f.root) == {f.root, f.root + ["lib", "python3.14", "site-packages"], f.root + ["bin"],
      f.root + ["share"], f.root + ["include"], f.root + [".heliopause"]};
  }

  lemma AsPlanned(names: Names, f: Frame, q: Path)
    ensures AsFrozen(names, f, q) <==> PlannedAt(names, f, q)
  {
  }

  /** Every record of a table is of a file with its bytes. */
  lemma VerifyExactly(names: Names, root: Path, files: Files)
    ensures VerifyState(names, root, files) <==>
      forall key :: key in files ==>
        && key == files[key].scheme + "/" + files[key].relative && Final(root, files[key]).Some?
        && HasFile(names, Final(root, files[key]).value, files[key].digest, files[key].size)
  {
    hide Final;
  }

  /** The very file, and no second link to it. */
  ghost predicate Still(names: Names, p: Path, o: Object) {
    p in names && names[p] == o && o.File? && o.links == 1
  }

  /** What the last look of a commit is for. */
  lemma ReconciledExactly(names: Names, root: Path, desired: Files, items: seq<Item>, obsolete: seq<Item>,
      before: Before, outputs: Names, published: Object, moved: set<Path>)
    ensures Reconciled(names, root, desired, items, obsolete, before, outputs, published, moved) <==>
      && (forall key :: key in desired ==>
          && key == desired[key].scheme + "/" + desired[key].relative && Final(root, desired[key]).Some?
          && HasFile(names, Final(root, desired[key]).value, desired[key].digest, desired[key].size))
      && (forall d :: d in items ==> d.final in outputs && Still(names, d.final, outputs[d.final]))
      && Still(names, MetadataFile(root), published) && published.content == Ownership(2, desired)
      && (forall d :: d in obsolete ==> d.final !in names)
      && forall p :: p in before && before[p].Some? && p !in moved ==> Still(names, p, before[p].value)
  {
    hide Final, VerifyState;
    VerifyExactly(names, root, desired);
  }

  /** What a rollback has to find again. */
  lemma BeforeExactly(names: Names, root: Path, before: Before, metadata: Option<Object>)
    ensures BeforeHolds(names, root, before, metadata) <==>
      && (forall p :: p in before ==> if before[p].Some? then Still(names, p, before[p].value) else p !in names)
      && if metadata.Some? then Still(names, MetadataFile(root), metadata.value) else MetadataFile(root) !in names
  {
  }

  /** The backup directory holds exactly the records, each the very file, and the
      ledger with its entries. */
  lemma InventoryExactly(names: Names, i: Inventory)
    requires VenvSweep.Named(i)
    ensures var ledger := i.backup + ["ledger.json"];
      InventoryHolds(names, i) <==>
        && (forall q :: q in names && |q| > 0 && q[..|q| - 1] == i.backup ==>
            q in i.records || (q == ledger && i.ledger.Some?))
        && (forall q :: q in i.records ==>
            q in names && names[q] == i.records[q] && names[q].File? && names[q].links == 1)
        && (i.ledger.Some? ==>
            && ledger in names && names[ledger].File? && names[ledger].content == Journal(i.entries)
            && names[ledger].mode == 384 && names[ledger].links == 1 && names[ledger].inode == i.ledger.value.inode)
  {
    hide MemberKnown;
    var ledger := i.backup + ["ledger.json"];
    assert ledger[..|ledger| - 1] == i.backup;
    forall q | q in Wanted(i) ensures MemberKnown(names, i, q) <==>
      if q == ledger && i.ledger.Some? then
        && ledger in names && names[ledger].File? && names[ledger].content == Journal(i.entries)
        && names[ledger].mode == 384 && names[ledger].links == 1 && names[ledger].inode == i.ledger.value.inode
      else
        q in i.records && q in names && names[q] == i.records[q] && names[q].File? && names[q].links == 1 {
      KnownExactly(names, i, q);
    }
  }

  lemma KnownExactly(names: Names, i: Inventory, q: Path)
    ensures var ledger := i.backup + ["ledger.json"];
      MemberKnown(names, i, q) <==>
        if q == ledger && i.ledger.Some? then
          && ledger in names && names[ledger].File? && names[ledger].content == Journal(i.entries)
          && names[ledger].mode == 384 && names[ledger].links == 1 && names[ledger].inode == i.ledger.value.inode
        else q in i.records && q in names && names[q] == i.records[q] && names[q].File? && names[q].links == 1
  {
  }

  // ------------------------------------------------------------------- recovery

  /** Where the owner of an environment finds what a promotion has moved away. */
  ghost predicate Findable(names: Names, root: Path, name: string, key: string, d: Owned) {
    Final(root, d).Some? &&
      (HasFile(names, Final(root, d).value, d.digest, d.size) ||
        exists n: nat :: HasFile(names, root + [name, "file-" + Decimal(n)], d.digest, d.size))
  }

  /** After a recovery that has not put the new state in place, every recorded file
      and the table itself are at their own paths or in one backup directory. */
  lemma SalvageableExactly(root: Path, a: Names, b: Names) returns (name: string, current: Files)
    requires Salvageable(root, a, b) && TableTrue(a, root)
    ensures ".heliopause-pypi-commit-" <= name
    ensures if MetadataFile(root) in a then HasTable(a, root, current) else current == map[]
    ensures forall key :: key in current ==> Findable(b, root, name, key, current[key])
    ensures MetadataFile(root) in a ==>
      || (MetadataFile(root) in b && b[MetadataFile(root)] == a[MetadataFile(root)])
      || (root + [name, "metadata"] in b && b[root + [name, "metadata"]] == a[MetadataFile(root)])
  {
    hide ReadState, BackupPath, Conserved, ManagedIn, TableTrue, Findable;
    TableExactly(a, root);
    current := ReadState(a, root).value;
    TableKnown(a, root, current);
    var backup, moved, metadataMoved :| BackupPath(root, backup) &&
      Conserved(b, root, backup, ManagedIn(a, root, current), MetadataIn(a, root), moved, metadataMoved);
    BackupExactly(root, backup);
    name := backup[|root|];
    assert backup == root + [name];
    BackupNames(root, name, backup);
    forall key | key in current ensures Findable(b, root, name, key, current[key]) {
      VerifyExactly(a, root, current);
      FileFindable(root, name, backup, a, b, current, moved, metadataMoved, key);
    }
    MetadataFindable(root, name, backup, a, b, ManagedIn(a, root, current), moved, metadataMoved);
  }

  lemma BackupNames(root: Path, name: string, backup: Path)
    requires backup == root + [name]
    ensures forall n: nat :: BackupFile(backup, n) == root + [name, "file-" + Decimal(n)]
    ensures OldMetadataPath(backup) == root + [name, "metadata"]
  {
  }

  lemma FileFindable(root: Path, name: string, backup: Path, a: Names, b: Names, current: Files, moved: seq<Item>,
      metadataMoved: bool, key: string)
    requires key in current && Final(root, current[key]).Some? && backup == root + [name]
    requires HasFile(a, Final(root, current[key]).value, current[key].digest, current[key].size)
    requires Conserved(b, root, backup, ManagedIn(a, root, current), MetadataIn(a, root), moved, metadataMoved)
    ensures Findable(b, root, name, key, current[key])
  {
    hide Final, BackupFile, Finals, DistinctFinals;
    BackupNames(root, name, backup);
    var p := Final(root, current[key]).value;
    assert p in ManagedIn(a, root, current);
    if p in Finals(moved) {
      var i :| 0 <= i < |moved| && moved[i].final == p
        && BackupFile(backup, i) in b && b[BackupFile(backup, i)] == a[p];
      assert HasFile(b, root + [name, "file-" + Decimal(i)], current[key].digest, current[key].size);
    }
  }

  lemma MetadataFindable(root: Path, name: string, backup: Path, a: Names, b: Names, before: Before, moved: seq<Item>,
      metadataMoved: bool)
    requires Conserved(b, root, backup, before, MetadataIn(a, root), moved, metadataMoved) && backup == root + [name]
    ensures MetadataFile(root) in a ==>
      || (MetadataFile(root) in b && b[MetadataFile(root)] == a[MetadataFile(root)])
      || (root + [name, "metadata"] in b && b[root + [name, "metadata"]] == a[MetadataFile(root)])
  {
    hide BackupFile, Finals, DistinctFinals;
    BackupNames(root, name, backup);
  }
}
