/** What holds of a Go project over any number of sessions, each of which may be
    cut short anywhere. */
module GoRuns {
  import opened Wrappers
  import opened GoDisk
  import opened ControlBackup
  import opened GoLayout
  import opened GoTransaction
  import opened GoApproval

  /** What a session that began in one state may leave behind, if it is stopped
      there: the lock is not looked at, because its owner may have cleared it. */
  ghost predicate Reachable(a: Names, u: Update, b: Names) {
    LockOnly(a, b) || (Accepted(a) && exists c :: LockOnly(a, c) && Settled(c, u, b))
  }

  ghost predicate AllReachable(a: Names, u: Update, trace: seq<Names>) {
    forall i :: 0 <= i < |trace| ==> Reachable(a, u, trace[i])
  }

  lemma LockOnlyReachable(a: Names, u: Update, trace: seq<Names>)
    requires AllLockOnly(a, trace)
    ensures AllReachable(a, u, trace)
  {
  }

  lemma CrashproofReachable(a: Names, c: Names, u: Update, trace: seq<Names>)
    requires Accepted(a) && LockOnly(a, c) && Crashproof(c, u, trace)
    ensures AllReachable(a, u, trace)
  {
    hide Accepted, Settled, LockOnly;
  }

  lemma ReachableMore(a: Names, u: Update, trace: seq<Names>, more: seq<Names>, names: Names)
    requires AllReachable(a, u, trace) && |trace| > 0 && LockOnly(trace[|trace| - 1], names)
    requires (more == trace || more == trace + [names])
    ensures AllReachable(a, u, more)
  {
    hide Accepted, Settled, LockOnly;
    var last := trace[|trace| - 1];
    assert Reachable(a, u, last);
    if LockOnly(a, last) {
      LockOnlyTwice(a, last, names);
    } else {
      var c :| LockOnly(a, c) && Settled(c, u, last);
      LockOnlySettles(c, u, last, names);
    }
    assert Reachable(a, u, names);
    forall i | 0 <= i < |more| ensures Reachable(a, u, more[i]) {
      assert i < |trace| ==> more[i] == trace[i];
    }
  }

  /** A project the next session takes without a fault. */
  ghost predicate Ready(names: Names) {
    Lock !in names && Accepted(names) && Sound(names)
  }

  /** A project nobody has approved, with dependencies or something in `go.sum`. */
  ghost predicate Unapproved(names: Names) {
    && Approval !in names
    && (|| (Project(Mod) in names && names[Project(Mod)].File? && names[Project(Mod)].content.Body?
            && !names[Project(Mod)].content.dependencyFree)
        || (Project(Sum) in names && names[Project(Sum)].File? && names[Project(Sum)].content.Body?
            && names[Project(Sum)].content.text != ""))
  }

  lemma UnapprovedRefused(names: Names)
    ensures Unapproved(names) ==> !Accepted(names)
  {
    AcceptedExactly(names);
  }

  datatype Outcome = Refused | Failed | Done

  /** A project with a second hard link on `go.mod`: the guard accepts it, and its
      update ends marked. */
  lemma HardLinkedProject(names: Names)
    requires names == map[Project(Mod) := File(0, Body("module m", true), 1)]
    ensures WellFormed(names, 1) && Lock !in names && Accepted(names) && Typed(names) && !Unshared(names)
  {
    assert FileAt(names, Project(Mod));
  }

  /** Begin, commit and close.  Wherever it is stopped the project is settled; with
      no fault and no other writer it is done exactly when the project was ready,
      and then the project is ready again; and it ends marked exactly when an
      original is linked from elsewhere. */
  method Session(disk: Disk, u: Update) returns (outcome: Outcome)
    requires disk.Valid()
    modifies disk
    ensures disk.Valid() && disk.faults >= old(disk.faults)
    ensures AllReachable(old(disk.names), u, disk.trace)
    ensures outcome.Refused? ==> LockOnly(old(disk.names), disk.names)
    ensures outcome.Done? ==> Ready(disk.names) && AllNew(u, disk.names)
    ensures outcome.Done? ==>
      && (forall n :: n in disk.names ==> n != Lock && n != CommitDirectory && n != MetadataTemp)
      && FileAt(disk.names, Project(Mod)) && disk.names[Project(Mod)].content == u.mod
      && FileAt(disk.names, Project(Sum)) && disk.names[Project(Sum)].content == u.sum
      && FileAt(disk.names, Metadata) && disk.names[Metadata].content == Record(u.mod, u.sum)
      && FileAt(disk.names, Approval) && disk.names[Approval].content == Approved(u.mod, u.sum, u.cache)
    ensures Unapproved(old(disk.names)) ==> outcome.Refused?
    ensures disk.faults == old(disk.faults) && !Visited(disk.names) && Lock !in old(disk.names) ==>
      (outcome.Done? <==> Ready(old(disk.names)))
    ensures disk.faults == old(disk.faults) && !Visited(disk.names) && Lock !in old(disk.names) ==>
      Accepted(old(disk.names)) ==>
      (CommitDirectory in disk.names <==> Typed(old(disk.names)) && !Unshared(old(disk.names)))
  {
    hide *;
    ghost var start, faults := disk.names, disk.faults;
    disk.Remember();
    outcome := Refused;
    var g := Guard.Begin(disk);
    if g == null {
      LockOnlyReachable(start, u, disk.trace);
      ReadyParts(start);
      return;
    }
    g.HoldingParts(start);
    LockOnlyAccepts(start, g.plan);
    UnapprovedRefused(start);
    ghost var plan := g.plan;
    var ok := g.Commit(u, start);
    ghost var before, left := disk.trace, disk.names;
    LockKept(plan, left);
    disk.ValidParts();
    CrashproofReachable(start, plan, u, before);
    var closed := g.Close();
    ReachableMore(start, u, before, disk.trace, disk.names);
    outcome := if ok && closed then Done else Failed;
    ReadyParts(start);
    SessionEnds(plan, u, left, disk.names, ok, disk.faults > faults);
    ReadyParts(disk.names);
    DoneWholly(u, disk.names);
  }

  /** An update done, name by name. */
  lemma DoneWholly(u: Update, names: Names)
    ensures Ready(names) && AllNew(u, names) ==>
      && (forall n :: n in names ==> n != Lock && n != CommitDirectory && n != MetadataTemp)
      && FileAt(names, Project(Mod)) && names[Project(Mod)].content == u.mod
      && FileAt(names, Project(Sum)) && names[Project(Sum)].content == u.sum
      && FileAt(names, Metadata) && names[Metadata].content == Record(u.mod, u.sum)
      && FileAt(names, Approval) && names[Approval].content == Approved(u.mod, u.sum, u.cache)
  {
  }

  lemma ReadyParts(names: Names)
    ensures Ready(names) <==> Lock !in names && Accepted(names) && Sound(names)
  {
  }

  lemma LockKept(a: Names, b: Names)
    requires SameAt(a, b, Lock) && Lock in a
    ensures Lock in b && b[Lock] == a[Lock]
  {
  }

  /** A project that has been updated is accepted by the next session. */
  lemma NewAccepted(u: Update, names: Names)
    requires AllNew(u, names) && Sound(names) && CommitDirectory !in names
    ensures Accepted(names)
  {
  }

  lemma SessionEnds(plan: Names, u: Update, a: Names, b: Names, ok: bool, faulty: bool)
    requires LockOnly(a, b) && (ok ==> Sound(a))
    requires ok ==> Concluded(plan, u, a, true, true) || Concluded(plan, u, a, true, false)
    ensures ok ==> AllNew(u, b) && Sound(b) && Accepted(b)
    ensures Visited(a) ==> Visited(b)
    ensures CommitDirectory in a <==> CommitDirectory in b
  {
    hide Accepted, Sound;
    MarkStays(a, b);
    LockOnlyAccepts(a, b);
    LockOnlySettles(plan, u, a, b);
    if ok {
      NewAccepted(u, b);
    }
    if Visited(a) {
      var n :| n in a && n.Foreign?;
      assert SameAt(a, b, n);
    }
  }

  // --------------------------------------------------------------------- runs

  /** The approval there is names the control files there are. */
  ghost predicate Coherent(names: Names) {
    Approval in names ==> Bound(names)
  }

  /** Between two states at most one session, cut short or not. */
  ghost predicate Run(s: seq<Names>, us: seq<Update>) {
    |s| == |us| + 1 && forall i :: 0 <= i < |us| ==> Reachable(s[i], us[i], s[i + 1])
  }

  lemma OldCoherent(a: Names, b: Names)
    requires AllOld(a, b) && Coherent(a)
    ensures Coherent(b)
  {
  }

  lemma StepCoherent(a: Names, u: Update, b: Names)
    requires Reachable(a, u, b) && (CommitDirectory in a || Coherent(a))
    ensures CommitDirectory in b || Coherent(b)
    ensures CommitDirectory in a ==> LockOnly(a, b)
    ensures CommitDirectory !in b ==> CommitDirectory !in a && (AllOld(a, b) || AllNew(u, b))
  {
    hide SameAt;
    if LockOnly(a, b) {
      LockOnlyAccepts(a, b);
      LockOnlyStart(a);
      LockOnlyOld(a, a, b);
      MarkStays(a, b);
      if CommitDirectory !in a {
        OldCoherent(a, b);
      }
    } else {
      var c :| LockOnly(a, c) && Settled(c, u, b);
      LockOnlyOldAgain(a, c, b);
      if CommitDirectory !in b && AllOld(a, b) {
        OldCoherent(a, b);
      }
    }
  }

  lemma MarkStays(a: Names, b: Names)
    requires LockOnly(a, b)
    ensures CommitDirectory in a <==> CommitDirectory in b
  {
    assert SameAt(a, b, CommitDirectory);
  }

  lemma LockOnlyOldAgain(a: Names, b: Names, c: Names)
    requires LockOnly(a, b)
    ensures AllOld(b, c) ==> AllOld(a, c)
  {
    assert SameAt(a, b, Project(Mod)) && SameAt(a, b, Project(Sum)) && SameAt(a, b, Metadata) && SameAt(a, b, Approval);
  }

  /** Wherever sessions are stopped, the retained approval fits the control files,
      or a commit directory refuses every later session. */
  lemma {:induction false} RunsStayCoherent(s: seq<Names>, us: seq<Update>, i: nat)
    requires Run(s, us) && Coherent(s[0]) && i < |s|
    ensures CommitDirectory in s[i] || Coherent(s[i])
  {
    if i > 0 {
      RunsStayCoherent(s, us, i - 1);
      assert Reachable(s[i - 1], us[i - 1], s[i - 1 + 1]);
      StepCoherent(s[i - 1], us[i - 1], s[i]);
    }
  }

  /** A marked project stays as it is until its owner repairs it. */
  lemma {:induction false} MarkedStays(s: seq<Names>, us: seq<Update>, i: nat, j: nat)
    requires Run(s, us) && Coherent(s[0]) && i <= j < |s| && CommitDirectory in s[i]
    ensures LockOnly(s[i], s[j])
  {
    if i < j {
      MarkedStays(s, us, i, j - 1);
      RunsStayCoherent(s, us, j - 1);
      assert SameAt(s[i], s[j - 1], CommitDirectory);
      assert Reachable(s[j - 1], us[j - 1], s[j - 1 + 1]);
      StepCoherent(s[j - 1], us[j - 1], s[j]);
      LockOnlyTwice(s[i], s[j - 1], s[j]);
    } else {
      LockOnlyStart(s[i]);
    }
  }

  /** A project with dependencies that nobody has approved is left alone by every
      run: its control files, its marker, and the approval it does not have. */
  lemma {:induction false} UnapprovedStays(s: seq<Names>, us: seq<Update>, i: nat)
    requires Run(s, us) && Unapproved(s[0]) && i < |s|
    ensures LockOnly(s[0], s[i]) && Unapproved(s[i])
  {
    if i > 0 {
      UnapprovedStays(s, us, i - 1);
      UnapprovedRefused(s[i - 1]);
      assert Reachable(s[i - 1], us[i - 1], s[i - 1 + 1]);
      LockOnlyTwice(s[0], s[i - 1], s[i]);
      assert SameAt(s[0], s[i], Project(Mod)) && SameAt(s[0], s[i], Project(Sum)) && SameAt(s[0], s[i], Approval);
    } else {
      LockOnlyStart(s[0]);
    }
  }

  /** Where an unmarked project comes from: it is the first one, or what one of
      the updates put in place, never a mixture. */
  ghost predicate Whole(s: seq<Names>, us: seq<Update>, i: nat)
    requires |s| == |us| + 1 && i < |s|
  {
    AllOld(s[0], s[i]) || exists k :: 0 <= k < i && AllNew(us[k], s[i])
  }

  lemma OldTwice(a: Names, b: Names, c: Names)
    requires AllOld(b, c)
    ensures AllOld(a, b) ==> AllOld(a, c)
    ensures forall u :: AllNew(u, b) ==> AllNew(u, c)
  {
  }

  lemma {:induction false} RunsStayWhole(s: seq<Names>, us: seq<Update>, i: nat)
    requires Run(s, us) && Coherent(s[0]) && i < |s| && CommitDirectory !in s[i]
    ensures Whole(s, us, i)
  {
    hide AllOld, AllNew, Reachable;
    if i > 0 {
      RunsStayCoherent(s, us, i - 1);
      assert Reachable(s[i - 1], us[i - 1], s[i - 1 + 1]);
      StepCoherent(s[i - 1], us[i - 1], s[i]);
      RunsStayWhole(s, us, i - 1);
      if AllOld(s[i - 1], s[i]) {
        OldTwice(s[0], s[i - 1], s[i]);
      }
    } else {
      OldItself(s[0]);
    }
  }

  lemma OldItself(a: Names)
    ensures AllOld(a, a)
  {
  }
}
