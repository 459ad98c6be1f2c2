/** One whole session over a virtual environment: begin, commit, close. */
module VenvSession {
  import opened Wrappers
  import opened Records
  import opened FileSystem
  import opened Ownership
  import opened Frames
  import opened Layout
  import opened Geometry
  import opened VenvPrepare
  import opened VenvOpening
  import opened VenvConclude
  import opened VenvResult
  import opened VenvRuns
  import opened VenvTransaction

  datatype Outcome = Refused | Failed | Done | Recovery

  /** How a session ends, when it meets so many faults, so many of them slips, and so
      many at checkpoints on the way forward.  Whatever faults strike, it is one step of a run.  With none, it
      is done exactly when the update is acceptable and untangled, and an untangled
      update neither ends in recovery nor keeps the lock; of plain destinations the
      acceptable tangled ones always end in recovery.  With a single fault at a
      checkpoint an untangled update fails, with nothing changed and no lock left;
      with a single fault that does not strike between an effect and its record,
      recovery means that the new state is in place.  Done, the update is on the disk and nothing else has
      changed; failed or refused, nothing has changed, unless giving the lock back
      failed after the commit; in recovery nothing managed is lost. */
  ghost predicate Concluded(root: Path, a: Names, b: Names, ds: seq<Destination>, outcome: Outcome, faults: nat,
      slips: nat, checkpoints: nat) {
    && SessionStep(root, a, b, ds, faults) && slips + checkpoints <= faults
    && (outcome.Done? ==> LockPath(root) !in b && Renewed(root, a, b, ds))
    && (outcome.Refused? ==> Agree(root, a, b))
    && (outcome.Failed? ==>
        Agree(root, a, b) || (faults > 0 && LockPath(root) in b && Renewed(root, a, b, ds)))
    && (outcome.Recovery? ==>
        && LockPath(root) in b
        && (Salvageable(root, a, b) || exists start, backup :: NewInPlace(root, a, b, start, backup, ds)))
    && (outcome.Recovery? || checkpoints > 0 ==>
        ReadState(a, root).Some? && Acceptable(a, root, ReadState(a, root).value, ds))
    && (faults == 1 && checkpoints == 1 && Untangled(root, ds) && OneUse(ds) && Wholesome(a, root) ==>
        outcome.Failed? && Agree(root, a, b) && LockPath(root) !in b)
    && (faults == 0 && Untangled(root, ds) ==>
        !outcome.Recovery? && (LockPath(root) !in a ==> LockPath(root) !in b))
    && (outcome.Recovery? && Untangled(root, ds) && OneUse(ds) && Wholesome(a, root) ==>
        faults > 1 || slips > 0 || exists start, backup :: NewInPlace(root, a, b, start, backup, ds))
    && (faults == 0 && OneUse(ds) && Wholesome(a, root) && LockPath(root) !in a && !outcome.Refused? ==>
        && (outcome.Done? <==> Acceptable(a, root, ReadState(a, root).value, ds) && Untangled(root, ds))
        && (AllPlain(ds) ==> (outcome.Recovery? <==> Jammed(root, a, ds))))
  }

  /** Begin, commit and close; refused without a fault only when the lock is held,
      the interpreter is not supported, or the environment is not one to begin in. */
  method Update(root: Path, disk: Disk, supported: bool, ds: seq<Destination>) returns (outcome: Outcome)
    requires Tree(disk.names) && SourcesPrivate(root, ds)
    modifies disk, disk.tally
    ensures Tree(disk.names) && disk.faults >= old(disk.faults)
    ensures disk.tally.slips >= old(disk.tally.slips) && disk.tally.checkpoints >= old(disk.tally.checkpoints)
    ensures Concluded(root, old(disk.names), disk.names, ds, outcome, disk.faults - old(disk.faults),
              disk.tally.slips - old(disk.tally.slips), disk.tally.checkpoints - old(disk.tally.checkpoints))
    ensures disk.faults == old(disk.faults) ==>
      (outcome.Refused? <==> !supported || LockPath(root) in old(disk.names) || !Startable(old(disk.names), root))
  {
    hide *;
    ghost var a, faults, slips := disk.names, disk.faults, disk.tally.slips;
    var t := Transaction.Begin(root, disk, supported);
    outcome := Refused;
    if t == null {
      RefusedStep(root, a, disk.names, ds, disk.faults - faults);
      ConcludedRefused(root, a, disk.names, ds, disk.faults - faults);
      return;
    }
    outcome := Complete(t, ds, a);
  }

  /** Commit and close. */
  method Complete(t: Transaction, ds: seq<Destination>, ghost a: Names) returns (outcome: Outcome)
    requires t.Begun() && SourcesPrivate(t.root, ds)
    requires LockPath(t.root) !in a && t.disk.names == a[LockPath(t.root) := t.guard]
    modifies t, t.disk, t.disk.tally
    ensures Tree(t.disk.names) && t.disk.faults >= old(t.disk.faults)
    ensures t.disk.tally.slips >= old(t.disk.tally.slips) && !outcome.Refused?
    ensures t.disk.tally.checkpoints >= old(t.disk.tally.checkpoints)
    ensures Concluded(t.root, a, t.disk.names, ds, outcome, t.disk.faults - old(t.disk.faults),
              t.disk.tally.slips - old(t.disk.tally.slips), t.disk.tally.checkpoints - old(t.disk.tally.checkpoints))
  {
    hide *;
    ghost var root, faults, slips, checkpoints := t.root, t.disk.faults, t.disk.tally.slips, t.disk.tally.checkpoints;
    ghost var locked, current := t.disk.names, t.current;
    LockApart(root, a, t.guard);
    t.BegunParts();
    AgreeRead(root, a, locked);
    AcceptableLocked(root, a, t.guard, current, ds);
    WholesomeStarts(a, root);
    var ok := t.Commit(ds);
    ghost var left := t.disk.names;
    t.EndedParts(locked, ds, ok);
    var closed := t.Close();
    outcome := if ok && closed then Done else if t.recovery then Recovery else Failed;
    RecoveryJams(root, a, ds, current, ok, t.recovery);
    ClosedStep(root, a, locked, left, t.disk.names, current, ds, ok, t.recovery, t.backup, closed,
      t.disk.faults - faults);
    if t.recovery && Committed(root, locked, Outside(t.disk.names, t.backup), current, ds) {
      NowInPlace(root, a, t.disk.names, locked, t.backup, ds);
    }
    ConcludedSession(root, a, t.disk.names, ds, outcome, t.disk.faults - faults, t.disk.tally.slips - slips,
      t.disk.tally.checkpoints - checkpoints);
  }

  /** Close without a commit. */
  method Dismiss(t: Transaction, ghost a: Names) returns (outcome: Outcome)
    requires t.Begun() && LockPath(t.root) !in a && t.disk.names == a[LockPath(t.root) := t.guard]
    modifies t.disk
    ensures Tree(t.disk.names) && t.disk.faults >= old(t.disk.faults)
    ensures outcome.Failed?
    ensures Concluded(t.root, a, t.disk.names, [], outcome, t.disk.faults - old(t.disk.faults), 0, 0)
  {
    hide *;
    ghost var root, faults, locked := t.root, t.disk.faults, t.disk.names;
    LockApart(root, a, t.guard);
    t.BegunParts();
    WholesomeStarts(a, root);
    outcome := Failed;
    var closed := t.Close();
    NothingAsked(root, a, locked);
    ClosedStep(root, a, locked, locked, t.disk.names, t.current, [], false, false, [], closed,
      t.disk.faults - faults);
    ConcludedSession(root, a, t.disk.names, [], outcome, t.disk.faults - faults, 0, 0);
  }

  lemma NothingAsked(root: Path, a: Names, locked: Names)
    ensures SourcesPrivate(root, []) && forall current :: !Acceptable(a, root, current, [])
    ensures SourcesUsed([]) == {} && locked == locked - {} && {} <= SourcesUsed([])
  {
  }

  lemma ConcludedRefused(root: Path, a: Names, b: Names, ds: seq<Destination>, faults: nat)
    requires SessionStep(root, a, b, ds, faults) && (faults == 0 ==> b == a || LockPath(root) !in b)
    requires Agree(root, a, b)
    ensures Concluded(root, a, b, ds, Refused, faults, 0, 0)
  {
    hide SessionStep, Untangled, Wholesome, Acceptable, ReadState, LockPath, Agree;
  }

  lemma ConcludedSession(root: Path, a: Names, b: Names, ds: seq<Destination>, outcome: Outcome, faults: nat,
      slips: nat, checkpoints: nat)
    requires SessionStep(root, a, b, ds, faults) && slips + checkpoints <= faults
    requires LockPath(root) !in a && !outcome.Refused?
    requires outcome.Done? ==> LockPath(root) !in b && Renewed(root, a, b, ds)
    requires outcome.Failed? ==>
      Agree(root, a, b) || (faults > 0 && LockPath(root) in b && Renewed(root, a, b, ds))
    requires outcome.Recovery? ==> LockPath(root) in b
    requires outcome.Recovery? ==>
      Salvageable(root, a, b) || exists start, backup :: NewInPlace(root, a, b, start, backup, ds)
    requires outcome.Recovery? || checkpoints > 0 ==>
      ReadState(a, root).Some? && Acceptable(a, root, ReadState(a, root).value, ds)
    requires faults == 1 && checkpoints == 1 && Untangled(root, ds) && OneUse(ds) && Wholesome(a, root) ==>
      outcome.Failed? && Agree(root, a, b) && LockPath(root) !in b
    requires faults == 0 && Untangled(root, ds) ==> !outcome.Recovery?
    requires outcome.Recovery? && Untangled(root, ds) && OneUse(ds) && Wholesome(a, root) ==>
      faults > 1 || slips > 0 || exists start, backup :: NewInPlace(root, a, b, start, backup, ds)
    requires Wholesome(a, root) ==> ReadState(a, root).Some?
    requires faults == 0 && OneUse(ds) && Wholesome(a, root) ==>
      (outcome.Done? <==> Acceptable(a, root, ReadState(a, root).value, ds) && Untangled(root, ds))
    requires faults == 0 && OneUse(ds) && Wholesome(a, root) && AllPlain(ds) ==>
      (outcome.Recovery? <==> Acceptable(a, root, ReadState(a, root).value, ds) && !Untangled(root, ds))
    ensures Concluded(root, a, b, ds, outcome, faults, slips, checkpoints)
  {
    hide Untangled, Wholesome, Acceptable, ReadState, LockPath, OneUse, AllPlain, NewInPlace, Renewed, Agree;
    hide Salvageable;
    hide Tree;
  }

  lemma RecoveryJams(root: Path, a: Names, ds: seq<Destination>, current: Files, ok: bool, recovery: bool)
    requires ReadState(a, root) == Some(current) && (recovery ==> Acceptable(a, root, current, ds))
    ensures recovery && !Untangled(root, ds) ==> Jammed(root, a, ds)
  {
    hide ReadState, Acceptable, Untangled;
  }

  lemma NowInPlace(root: Path, a: Names, b: Names, start: Names, backup: Path, ds: seq<Destination>)
    requires Agree(root, a, start) && ReadState(start, root).Some? && BackupPath(root, backup)
    requires Committed(root, start, Outside(b, backup), ReadState(start, root).value, ds)
    ensures NewInPlace(root, a, b, start, backup, ds)
  {
    hide Agree, ReadState, BackupPath, Committed, Outside;
  }

  // ----------------------------------------------------- a tangled environment

  /** A virtual environment without packages, and two private outputs. */
  function Environment(digest: Digest): Names {
    map[[] := Dir(1, 493), ["venv"] := Dir(2, 493), ["venv", "pyvenv.cfg"] := File(3, Data(digest, 0), 420, 1),
        ["venv", "bin"] := Dir(4, 493), ["venv", "lib"] := Dir(5, 493), ["venv", "lib", "python3.14"] := Dir(6, 493),
        ["venv", "lib", "python3.14", "site-packages"] := Dir(7, 493), ["work"] := Dir(8, 448),
        ["work", "0"] := File(9, Data(digest, 0), 420, 1), ["work", "1"] := File(10, Data(digest, 0), 420, 1)]
  }

  function Package(relative: string, digest: Digest): Owned {
    Owned("site", relative, "d", "1", "", [], digest, 0)
  }

  /** A session that ends in recovery without a fault: `a` is free, so a file `a`
      and a file below it are both accepted. */
  lemma TangledSession(names: Names, root: Path, ds: seq<Destination>, digest: Digest)
    requires names == Environment(digest) && root == ["venv"]
    requires ds == [Destination(Package("a", digest), ["work", "0"], None),
                    Destination(Package("a/b", digest), ["work", "1"], None)]
    ensures Wholesome(names, root) && LockPath(root) !in names && ReadState(names, root) == Some(map[])
    ensures SourcesPrivate(root, ds) && OneUse(ds) && AllPlain(ds)
    ensures Acceptable(names, root, map[], ds) && !Untangled(root, ds)
  {
    hide Environment, Wholesome, Acceptable, ReadState, Untangled, AllPlain, AllBind, LockPath;
    TangledExample(root, ds);
    EnvironmentWholesome(names, root, digest);
    UpdateAcceptable(names, root, ds, digest);
    SourcesApart(root, ds);
  }

  lemma SourcesApart(root: Path, ds: seq<Destination>)
    requires root == ["venv"] && |ds| == 2 && ds[0].source == ["work", "0"] && ds[1].source == ["work", "1"]
    ensures SourcesPrivate(root, ds) && OneUse(ds)
  {
    assert ["work", "0"][1] != ["work", "1"][1];
    assert ["work", "0"][..1] == ["work"] && ["work", "1"][..1] == ["work"] && ["work"][0] != root[0];
  }

  lemma EnvironmentTree(names: Names, digest: Digest)
    requires names == Environment(digest)
    ensures Tree(names)
  {
    EnvironmentDirs(names, digest);
    forall p | p in names && |p| > 0 ensures IsDir(names, Parent(p)) {
      if p[0] == "work" {
        assert Parent(p) == [] || Parent(p) == ["work"];
      } else if |p| <= 2 {
        assert Parent(p) == [] || Parent(p) == ["venv"];
      } else {
        assert Parent(p) == ["venv", "lib"] || Parent(p) == ["venv", "lib", "python3.14"];
      }
    }
  }

  lemma EnvironmentDirs(names: Names, digest: Digest)
    requires names == Environment(digest)
    ensures IsDir(names, []) && IsDir(names, ["venv"]) && IsDir(names, ["work"])
    ensures IsDir(names, ["venv", "lib"]) && IsDir(names, ["venv", "lib", "python3.14"])
  {
  }

  /** Nothing is in the environment that has no place in it. */
  lemma EnvironmentPaths(names: Names, root: Path, digest: Digest)
    requires names == Environment(digest) && root == ["venv"]
    ensures IsDir(names, root) && IsDir(names, root + ["bin"])
    ensures IsDir(names, root + ["lib", "python3.14", "site-packages"])
    ensures root + ["share"] !in names && root + ["include"] !in names && root + [".heliopause"] !in names
    ensures root + [".heliopause", "pypi-transaction.json"] !in names
    ensures root + [".heliopause-pypi-transaction.lock"] !in names
    ensures SingleLinkFile(names, root + ["pyvenv.cfg"])
  {
    assert root + ["bin"] == ["venv", "bin"] && root + ["pyvenv.cfg"] == ["venv", "pyvenv.cfg"];
    assert root + ["lib", "python3.14", "site-packages"] == ["venv", "lib", "python3.14", "site-packages"];
    assert (root + ["share"])[1] == "share" && (root + ["include"])[1] == "include";
    assert (root + [".heliopause"])[1] == ".heliopause";
    assert (root + [".heliopause", "pypi-transaction.json"])[1] == ".heliopause";
    assert (root + [".heliopause-pypi-transaction.lock"])[1] == ".heliopause-pypi-transaction.lock";
  }

  lemma NoBackupThere(names: Names, root: Path, digest: Digest)
    requires names == Environment(digest) && root == ["venv"]
    ensures forall q :: q in names ==> !BackupPath(root, q)
  {
  }

  lemma EnvironmentWholesome(names: Names, root: Path, digest: Digest)
    requires names == Environment(digest) && root == ["venv"]
    ensures Wholesome(names, root) && LockPath(root) !in names && ReadState(names, root) == Some(map[])
  {
    hide Environment, Tree, BackupPath, Final;
    EnvironmentTree(names, digest);
    EnvironmentPaths(names, root, digest);
    NoBackupThere(names, root, digest);
    assert Laid(names, root);
    assert ReadState(names, root) == Some(map[]);
    assert Startable(names, root);
  }

  lemma UpdateAcceptable(names: Names, root: Path, ds: seq<Destination>, digest: Digest)
    requires names == Environment(digest) && root == ["venv"]
    requires ds == [Destination(Package("a", digest), ["work", "0"], None),
                    Destination(Package("a/b", digest), ["work", "1"], None)]
    ensures Acceptable(names, root, map[], ds)
  {
    hide Final, Freezable, Environment;
    TangledFinals(root, ds[0].owned, ds[1].owned);
    BelowSite(names, root, digest, ["a"]);
    BelowSite(names, root, digest, ["a", "b"]);
    SourcesThere(names, digest);
    assert Owneds(ds) == [ds[0].owned, ds[1].owned];
  }

  lemma SourcesThere(names: Names, digest: Digest)
    requires names == Environment(digest)
    ensures ["work", "0"] in names && names[["work", "0"]] == File(9, Data(digest, 0), 420, 1)
    ensures ["work", "1"] in names && names[["work", "1"]] == File(10, Data(digest, 0), 420, 1)
  {
  }

  /** Nothing is below `site-packages`. */
  lemma BelowSite(names: Names, root: Path, digest: Digest, parts: seq<string>)
    requires names == Environment(digest) && root == ["venv"] && |parts| > 0
    ensures var site := SchemeRoot(root, "site").value;
      site + parts !in names && Freezable(names, Up(site + parts))
  {
    var site := SchemeRoot(root, "site").value;
    var p := Up(site + parts);
    assert |site + parts| > 4 && forall q :: q in names ==> |q| <= 4;
    assert site == ["venv", "lib", "python3.14", "site-packages"] && p[..4] == site;
    forall k | 0 <= k <= |p| && p[..k] in names ensures names[p[..k]].Dir? {
      if k <= 4 {
        assert p[..k] == site[..k];
        assert k > 0 ==> p[..k][0] == "venv";
        assert k > 1 ==> p[..k][1] == "lib";
      }
    }
  }
}
