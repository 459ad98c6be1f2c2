/** A whole promotion into a virtual environment: what is installed in private is
    validated into a table, and the table is committed. */
module VenvPromotion {
  import opened Wrappers
  import opened Text
  import opened Records
  import opened FileSystem
  import opened Ownership
  import opened Frames
  import opened InstalledRecords
  import opened RecordMerge
  import opened Sorting
  import opened VenvPrepare
  import opened VenvOpening
  import opened VenvResult
  import opened VenvRuns
  import opened VenvTables
  import opened VenvTransaction
  import opened VenvMeaning
  import opened VenvSession

  /** The file of a line is where its text says, with the bytes of the line, and the
      table has it under its key as a file of its distribution. */
  ghost predicate InPlace(names: Names, root: Path, files: Files, row: Row, owner: Owner) {
    exists directory, tail ::
      && Leads(row.value, directory, tail)
      && HasFile(names,
          root + (if directory == "site" then ["lib", "python3.14", "site-packages"] else [directory]) + tail,
          row.digest, row.size)
      && var key := SchemeIn(directory) + "/" + Join(tail);
        key in files && files[key].digest == row.digest && files[key].size == row.size && HasOwner(files[key], owner)
  }

  /** Every line of every distribution is in place, in a table of version 2. */
  ghost predicate AllInPlace(names: Names, root: Path, expected: map<string, Owner>, installed: seq<Installed>) {
    var meta := root + [".heliopause", "pypi-transaction.json"];
    && meta in names && names[meta].File? && names[meta].links == 1
    && names[meta].content.Ownership? && names[meta].content.version == 2
    && forall d, row :: d in installed && row in d.rows ==>
        && d.name in expected
        && InPlace(names, root, names[meta].content.files, row, Owner(d.name, d.version, expected[d.name].artifact))
  }

  lemma RowInPlace(root: Path, base: Path, row: Row, owner: Owner, e: Destination, names: Names, files: Files)
    requires Carries(base, row, owner, e)
    requires var key := e.owned.scheme + "/" + e.owned.relative;
      key in files && files[key] == e.owned && Recorded(names, root, key, e.owned)
    ensures InPlace(names, root, files, row, owner)
  {
    hide Join, Final;
    var directory, tail :|
      && Leads(row.value, directory, tail) && e.source == base + [directory] + tail
      && e.owned.scheme == SchemeIn(directory) && e.owned.relative == Join(tail);
    LeadsDirectory(row.value, directory, tail);
    LeadsFinal(root, e.owned, tail);
  }

  lemma LeadsDirectory(value: string, directory: string, tail: seq<string>)
    requires Leads(value, directory, tail)
    ensures Clear(tail) && directory in {"site", "bin", "share", "include"}
  {
  }

  lemma RowsInPlace(root: Path, base: Path, expected: map<string, Owner>, installed: seq<Installed>,
      table: seq<Destination>, a: Names, b: Names)
    requires Renewed(root, a, b, table)
    requires forall d, row :: d in installed && row in d.rows ==>
      d.name in expected &&
        exists e :: e in table && Carries(base, row, Owner(d.name, d.version, expected[d.name].artifact), e)
    ensures AllInPlace(b, root, expected, installed)
  {
    hide Carries, Renewed, InPlace, Recorded;
    var current, files := RenewedExactly(root, a, b, table);
    forall d, row | d in installed && row in d.rows
      ensures InPlace(b, root, files, row, Owner(d.name, d.version, expected[d.name].artifact)) {
      var owner := Owner(d.name, d.version, expected[d.name].artifact);
      var e :| e in table && Carries(base, row, owner, e);
      RowInPlace(root, base, row, owner, e, b, files);
    }
  }

  /** `promoteActiveVenv`.  Without a fault no promotion ends in recovery or keeps
      the lock, and it is done exactly when the installation is promotable and its
      table acceptable.  A single fault that does not strike between an effect and
      its record leads to recovery only when the new state is in place, and one at a
      checkpoint always to a failure that has changed nothing and holds no lock.
      Done, the table is installed and nothing else has changed: every line of every
      distribution is a file where its text says. */
  method Promote(root: Path, disk: Disk, supported: bool, base: Path, expected: map<string, Owner>,
      installed: seq<Installed>, files: set<Path>) returns (outcome: Outcome, table: seq<Destination>)
    requires Tree(disk.names) && WorkPath(root, base)
    modifies disk, disk.tally
    ensures Tree(disk.names) && disk.faults >= old(disk.faults)
    ensures disk.tally.slips >= old(disk.tally.slips) && disk.tally.checkpoints >= old(disk.tally.checkpoints)
    ensures Concluded(root, old(disk.names), disk.names, table, outcome, disk.faults - old(disk.faults),
              disk.tally.slips - old(disk.tally.slips), disk.tally.checkpoints - old(disk.tally.checkpoints))
    ensures outcome.Done? ==> Renewed(root, old(disk.names), disk.names, table) && LockPath(root) !in disk.names
    ensures outcome.Done? ==> AllInPlace(disk.names, root, expected, installed)
    ensures table == [] || Promoted(root, table)
    ensures Promotable(base, expected, installed, files) && !outcome.Refused? ==>
      IsTable(AllClaims(base, expected, installed), table)
    ensures disk.faults == old(disk.faults) ==>
      (outcome.Refused? <==> !supported || LockPath(root) in old(disk.names) || !Startable(old(disk.names), root))
    ensures disk.faults == old(disk.faults) ==>
      !outcome.Recovery? && (LockPath(root) !in old(disk.names) ==> LockPath(root) !in disk.names)
    ensures disk.faults == old(disk.faults) && Wholesome(old(disk.names), root) && !outcome.Refused? ==>
      (outcome.Done? <==>
        && Promotable(base, expected, installed, files)
        && Acceptable(old(disk.names), root, ReadState(old(disk.names), root).value, table))
    ensures disk.faults == old(disk.faults) + 1 && disk.tally.checkpoints > old(disk.tally.checkpoints) ==>
      Wholesome(old(disk.names), root) ==>
      outcome.Failed? && Agree(root, old(disk.names), disk.names) && LockPath(root) !in disk.names
    ensures outcome.Recovery? && Wholesome(old(disk.names), root) ==>
      || disk.faults > old(disk.faults) + 1 || disk.tally.slips > old(disk.tally.slips)
      || exists start, backup :: NewInPlace(root, old(disk.names), disk.names, start, backup, table)
  {
    hide *;
    ghost var a, faults, slips, checkpoints := disk.names, disk.faults, disk.tally.slips, disk.tally.checkpoints;
    var t := Transaction.Begin(root, disk, supported);
    outcome, table := Refused, [];
    if t == null {
      RefusedStep(root, a, disk.names, [], disk.faults - faults);
      ConcludedRefused(root, a, disk.names, [], disk.faults - faults);
      return;
    }
    var ok, destinations := ValidatedDestinations(base, expected, installed, files);
    if !ok {
      outcome := Dismiss(t, a);
      EmptyUntangled(root);
      PromotionEnds(root, a, disk.names, table, outcome, disk.faults - faults, 0, 0);
      return;
    }
    table := destinations;
    IsPromoted(root, base, expected, installed, files, table);
    PromotedTable(root, table);
    outcome := Complete(t, table, a);
    PromotionEnds(root, a, disk.names, table, outcome, disk.faults - faults, disk.tally.slips - slips,
      disk.tally.checkpoints - checkpoints);
    if outcome.Done? {
      RowsInPlace(root, base, expected, installed, table, a, disk.names);
    }
  }

  /** A table that is untangled wherever it is acceptable gives no cause for
      recovery. */
  lemma PromotionEnds(root: Path, a: Names, b: Names, table: seq<Destination>, outcome: Outcome, faults: nat,
      slips: nat, checkpoints: nat)
    requires Concluded(root, a, b, table, outcome, faults, slips, checkpoints) && LockPath(root) !in a && Tree(a)
    requires OneUse(table) && !outcome.Refused?
    requires forall current :: Acceptable(a, root, current, table) ==> Untangled(root, table)
    ensures outcome.Done? ==> Renewed(root, a, b, table) && LockPath(root) !in b
    ensures faults == 0 ==> !outcome.Recovery? && LockPath(root) !in b
    ensures faults == 0 && Wholesome(a, root) ==>
      ReadState(a, root).Some? && (outcome.Done? <==> Acceptable(a, root, ReadState(a, root).value, table))
    ensures faults == 1 && checkpoints > 0 && Wholesome(a, root) ==>
      outcome.Failed? && Agree(root, a, b) && LockPath(root) !in b
    ensures outcome.Recovery? && Wholesome(a, root) ==>
      faults > 1 || slips > 0 || exists start, backup :: NewInPlace(root, a, b, start, backup, table)
  {
    hide Untangled, Acceptable, LockPath, OneUse, NewInPlace, Renewed, Salvageable, Agree, Tree, ReadState, Laid;
    hide VerifyState;
    WholesomeStarts(a, root);
  }

  lemma IsPromoted(root: Path, base: Path, expected: map<string, Owner>, installed: seq<Installed>, files: set<Path>,
      table: seq<Destination>)
    requires WorkPath(root, base) && Promotable(base, expected, installed, files)
    requires IsTable(AllClaims(base, expected, installed), table)
    ensures Promoted(root, table)
  {
    hide WorkPath, ExactSet, AllGood, Mergeable, SourcesOf, IsTable, AllClaims;
  }

  // ---------------------------------------------------------- one installation

  /** One distribution with one file. */
  lemma SmallInstallation(root: Path, base: Path, digest: Digest, installed: seq<Installed>, table: seq<Destination>)
    requires WorkPath(root, base)
    requires installed == [Installed("d", "1", "d-1.dist-info", [Row("a", digest, 0, true)])]
    requires table == [Destination(Owned("site", "a", "d", "1", "x", [], digest, 0), base + ["site"] + ["a"], None)]
    ensures Promotable(base, map["d" := Owner("d", "1", "x")], installed, {base + ["site"] + ["a"]})
    ensures Promoted(root, table)
  {
    hide WorkPath, ExactSet, AllGood, AllClaims, Mergeable, SourcesOf, IsTable, ResolveRecord;
    var expected := map["d" := Owner("d", "1", "x")];
    var claim := Claim(base + ["site"] + ["a"], "site", "a", digest, 0, Owner("d", "1", "x"));
    SmallSet(expected, installed);
    SmallEntry(base);
    SmallClaims(base, expected, installed, installed[0], claim);
    SmallTable([claim], table, claim);
    IsPromoted(root, base, expected, installed, {base + ["site"] + ["a"]}, table);
  }

  lemma SmallSet(expected: map<string, Owner>, installed: seq<Installed>)
    requires expected == map["d" := Owner("d", "1", "x")] && |installed| == 1
    requires installed[0].name == "d" && installed[0].version == "1" && |installed[0].rows| > 0
    ensures ExactSet(expected, installed)
  {
    assert NamesOf(installed) == {"d"} == expected.Keys;
  }

  lemma SmallClaims(base: Path, expected: map<string, Owner>, installed: seq<Installed>, d: Installed, c: Claim)
    requires installed == [d] && |d.rows| == 1 && ClaimOf(base, d.info, OwnerOf(expected, d), d.rows[0]) == Some(c)
    ensures AllGood(base, expected, installed) && AllClaims(base, expected, installed) == [c]
  {
    hide ClaimOf, OwnerOf;
    assert d.rows[..0] == [] && installed[..0] == [];
  }

  lemma SmallEntry(base: Path)
    ensures ResolveRecord(base, "d-1.dist-info", "a") == Some(Resolved("site", "a", base + ["site"] + ["a"]))
  {
    hide ResolveRecord;
    TangledPieces();
    ResolvedParts(base, "d-1.dist-info", "a");
    assert ["a"][0..] == ["a"];
  }

  lemma SmallTable(claims: seq<Claim>, table: seq<Destination>, c: Claim)
    requires claims == [c] && c.owner == Owner("d", "1", "x")
    requires table == [Destination(Owned(c.scheme, c.relative, "d", "1", "x", [], c.digest, c.size), c.source, None)]
    ensures Mergeable(claims) && IsTable(claims, table) && SourcesOf(claims) == {c.source}
  {
    assert forall p :: OwnersAt(claims, p) == if p == c.source then {c.owner} else {};
    assert Elements(Owners(table[0].owned)) == {c.owner};
  }
}
