/** The guard of a Go project: the lock, the recovery check, the retained
    approval, and one update under it. */
module GoApproval {
  import opened Wrappers
  import opened GoDisk
  import opened ControlBackup
  import opened GoLayout
  import opened GoTransaction

  /** `checkRecoveryState`. */
  predicate Unmarked(names: Names) {
    CommitDirectory !in names && (MetadataDirectory in names ==> names[MetadataDirectory].Directory?)
  }

  /** `verifyRetainedApproval`: the approval names the control files there are. */
  predicate Bound(names: Names) {
    && FileAt(names, Project(Mod)) && FileAt(names, Project(Sum)) && FileAt(names, Approval)
    && names[Approval].content.Approved?
    && names[Approval].content.mod == names[Project(Mod)].content
    && names[Approval].content.sum == names[Project(Sum)].content
  }

  /** A project without approval has no dependencies. */
  predicate Adoptable(names: Names) {
    && Freezable(names) && Approval !in names
    && names[Project(Mod)].content.Body? && names[Project(Mod)].content.dependencyFree
    && (Project(Sum) in names ==> names[Project(Sum)].content.Body? && names[Project(Sum)].content.text == "")
  }

  predicate Accepted(names: Names) {
    Unmarked(names) && (Bound(names) || Adoptable(names))
  }

  /** What is accepted, name by name: no mark, `go.mod` a file, and either an
      approval that holds the very contents of both control files, or no approval,
      no dependency and an empty or absent `go.sum`. */
  lemma AcceptedExactly(names: Names)
    ensures Accepted(names) <==>
      && CommitDirectory !in names && (MetadataDirectory in names ==> names[MetadataDirectory].Directory?)
      && Project(Mod) in names && names[Project(Mod)].File?
      && (Project(Sum) in names ==> names[Project(Sum)].File?)
      && (if Approval in names then
            && names[Approval].File? && Project(Sum) in names && exists cache ::
                names[Approval].content ==
                  Approved(names[Project(Mod)].content, names[Project(Sum)].content, cache)
          else
            && (exists text :: names[Project(Mod)].content == Body(text, true))
            && (Project(Sum) in names ==> exists free :: names[Project(Sum)].content == Body("", free)))
  {
    hide *;
    UnmarkedExactly(names);
    BoundExactly(names);
    AdoptableExactly(names);
    AcceptedParts(names);
  }

  lemma AcceptedParts(names: Names)
    ensures Accepted(names) <==> Unmarked(names) && (Bound(names) || Adoptable(names))
  {
  }

  lemma UnmarkedExactly(names: Names)
    ensures Unmarked(names) <==>
      CommitDirectory !in names && (MetadataDirectory in names ==> names[MetadataDirectory].Directory?)
  {
  }

  lemma BoundExactly(names: Names)
    ensures Bound(names) <==>
      && Project(Mod) in names && names[Project(Mod)].File? && Project(Sum) in names && names[Project(Sum)].File?
      && Approval in names && names[Approval].File? && exists cache ::
          names[Approval].content == Approved(names[Project(Mod)].content, names[Project(Sum)].content, cache)
  {
    if Bound(names) {
      var content := names[Approval].content;
      assert content == Approved(names[Project(Mod)].content, names[Project(Sum)].content, content.cache);
    }
  }

  lemma AdoptableExactly(names: Names)
    ensures Adoptable(names) <==>
      && Project(Mod) in names && names[Project(Mod)].File? && (Project(Sum) in names ==> names[Project(Sum)].File?)
      && Approval !in names && (exists text :: names[Project(Mod)].content == Body(text, true))
      && (Project(Sum) in names ==> exists free :: names[Project(Sum)].content == Body("", free))
  {
    if Adoptable(names) {
      var mod := names[Project(Mod)].content;
      assert mod == Body(mod.text, true);
      if Project(Sum) in names {
        var sum := names[Project(Sum)].content;
        assert sum == Body("", sum.dependencyFree);
      }
    }
  }

  ghost predicate LockOnly(a: Names, b: Names) {
    forall n :: n != Lock ==> SameAt(a, b, n)
  }

  ghost predicate AllLockOnly(a: Names, trace: seq<Names>) {
    forall i :: 0 <= i < |trace| ==> LockOnly(a, trace[i])
  }

  lemma LockOnlyMore(a: Names, trace: seq<Names>, more: seq<Names>, names: Names)
    requires AllLockOnly(a, trace) && LockOnly(a, names) && (more == trace || more == trace + [names])
    ensures AllLockOnly(a, more)
  {
  }

  lemma LockOnlyAccepts(a: Names, b: Names)
    requires LockOnly(a, b)
    ensures Accepted(a) <==> Accepted(b)
    ensures Sound(a) <==> Sound(b)
    ensures Typed(a) <==> Typed(b)
    ensures Unshared(a) <==> Unshared(b)
    ensures Approval in b ==> At(a, Approval) == At(b, Approval)
  {
    assert SameAt(a, b, CommitDirectory) && SameAt(a, b, MetadataDirectory) && SameAt(a, b, Approval);
    assert SameAt(a, b, Metadata) && SameAt(a, b, MetadataTemp);
    assert forall c: Control :: SameAt(a, b, Project(c));
  }

  lemma LockOnlyCrashproof(a: Names, b: Names, u: Update, trace: seq<Names>)
    requires AllLockOnly(a, trace) && LockOnly(a, b)
    ensures Crashproof(b, u, trace)
  {
    forall i | 0 <= i < |trace| ensures Settled(b, u, trace[i]) {
      assert LockOnly(a, trace[i]);
      LockOnlyOld(a, b, trace[i]);
    }
  }

  lemma LockOnlyOld(a: Names, b: Names, c: Names)
    requires LockOnly(a, b) && LockOnly(a, c)
    ensures AllOld(b, c)
  {
    assert SameAt(a, b, Project(Mod)) && SameAt(a, b, Project(Sum)) && SameAt(a, b, Metadata) && SameAt(a, b, Approval);
    assert SameAt(a, c, Project(Mod)) && SameAt(a, c, Project(Sum)) && SameAt(a, c, Metadata) && SameAt(a, c, Approval);
  }

  /** Taking or giving back the lock does not unsettle. */
  lemma LockOnlySettles(o: Names, u: Update, a: Names, b: Names)
    requires LockOnly(a, b)
    ensures Settled(o, u, a) ==> Settled(o, u, b)
    ensures AllOld(o, a) ==> AllOld(o, b)
    ensures AllNew(u, a) ==> AllNew(u, b)
    ensures Kept(o, a) ==> Kept(o, b)
    ensures ApprovalWhole(o, u, a) ==> ApprovalWhole(o, u, b)
    ensures CommitDirectory in a <==> CommitDirectory in b
  {
    assert SameAt(a, b, Project(Mod)) && SameAt(a, b, Project(Sum)) && SameAt(a, b, Metadata) && SameAt(a, b, Approval);
    assert SameAt(a, b, CommitDirectory) && SameAt(a, b, Moved(Mod)) && SameAt(a, b, Moved(Sum));
    assert SameAt(a, b, MovedMetadata);
  }

  class Guard {
    const disk: Disk
    /** The project as it was frozen under the lock. */
    const plan: Names
    var closed: bool
    var committed: bool

    /** The lock is held and nothing has happened since the project was frozen. */
    ghost predicate Holding(start: Names)
      reads this, disk`names, disk`next, disk`trace
    {
      && disk.Valid() && disk.names == plan && FileAt(plan, Lock) && !closed && !committed
      && AllLockOnly(start, disk.trace) && LockOnly(start, plan) && Accepted(plan)
    }

    constructor (disk: Disk, plan: Names)
      ensures this.disk == disk && this.plan == plan && !closed && !committed
    {
      this.disk, this.plan, closed, committed := disk, plan, false, false;
    }

    lemma NowHolding(start: Names)
      requires disk.Valid() && disk.names == plan && Lock in plan && plan[Lock].File? && !closed && !committed
      requires AllLockOnly(start, disk.trace) && LockOnly(start, plan) && Accepted(plan)
      ensures Holding(start)
    {
    }

    lemma HoldingParts(start: Names)
      requires Holding(start)
      ensures disk.Valid() && disk.names == plan && Lock in plan && plan[Lock].File? && !closed && !committed
      ensures AllLockOnly(start, disk.trace) && LockOnly(start, plan) && Accepted(plan)
      ensures CommitDirectory !in plan && Freezable(plan) && (Approval in plan ==> plan[Approval].File?)
    {
    }

    /** The recovery check, the freeze, the retained approval, and once more that
        nothing has changed. */
    method Examine() returns (ok: bool)
      requires plan == disk.names
      modifies disk`faults
      ensures disk.faults >= old(disk.faults)
      ensures ok <==> disk.faults == old(disk.faults) && Accepted(disk.names)
    {
      ok := disk.Try();
      ok := ok && CommitDirectory !in disk.names &&
        (MetadataDirectory in disk.names ==> disk.names[MetadataDirectory].Directory?);
      if !ok { return; }
      ok := disk.Try();
      ok := ok && Freezable(plan);
      if !ok { return; }
      ok := disk.Try();
      if !ok { return; }
      if Approval !in disk.names {
        ok := Adoptable(plan);
      } else {
        ok := Bound(plan);
      }
      if ok {
        ok := disk.Try();
      }
    }

    /** `VerifyUnchanged`. */
    method VerifyUnchanged() returns (ok: bool)
      modifies disk`faults
      ensures disk.faults >= old(disk.faults)
      ensures disk.names == plan && !closed && !committed ==> (ok <==> disk.faults == old(disk.faults))
    {
      ok := disk.Try();
      ok := ok && !closed && !committed
        && At(disk.names, Project(Mod)) == At(plan, Project(Mod))
        && At(disk.names, Project(Sum)) == At(plan, Project(Sum))
        && At(disk.names, Approval) == At(plan, Approval);
    }

    /** `Close`: gives the lock back. */
    method Close() returns (ok: bool)
      requires disk.Valid() && (Lock in disk.names ==> disk.names[Lock].File?)
      modifies disk, this`closed
      ensures disk.Valid() && disk.faults >= old(disk.faults) && closed
      ensures LockOnly(old(disk.names), disk.names)
      ensures disk.trace == old(disk.trace) || disk.trace == old(disk.trace) + [disk.names]
      ensures ok ==> Lock !in disk.names
      ensures disk.faults == old(disk.faults) && !old(closed) && Lock in old(disk.names) ==> ok
    {
      LockOnlyStart(disk.names);
      ok := !closed;
      closed := true;
      if !ok { return; }
      ok := disk.Try();
      ok := ok && Lock in disk.names;
      if !ok { return; }
      ghost var was := disk.names;
      ok := disk.Remove(Lock);
      if ok {
        LockGone(was);
      }
    }

    static method AcquireLock(disk: Disk) returns (ok: bool)
      requires disk.Valid() && disk.trace == [disk.names]
      modifies disk
      ensures disk.Valid() && disk.faults >= old(disk.faults)
      ensures LockOnly(old(disk.names), disk.names) && AllLockOnly(old(disk.names), disk.trace)
      ensures ok ==> Lock in disk.names && disk.names[Lock].File? && Lock !in old(disk.names)
      ensures disk.faults == old(disk.faults) ==> (ok <==> Lock !in old(disk.names))
    {
      hide *;
      ghost var start := disk.names;
      LockOnlyStart(start);
      ok := disk.Try();
      if !ok { return; }
      var made;
      ok, made := disk.Create(Lock, false, Body("", true));
      if !ok { return; }
      LockTaken(start, made);
      ghost var taken, before := disk.names, disk.trace;
      LockOnlyMore(start, [start], before, taken);
      ok := disk.Try();
      if !ok {
        ok := disk.Remove(Lock);
        if ok {
          LockGone(taken);
          LockOnlyTwice(start, taken, disk.names);
        }
        LockOnlyMore(start, before, disk.trace, disk.names);
        ok := false;
      }
    }

    /** `Begin`: refuses a project that is marked, whose approval does not fit, or
        that has dependencies and no approval. */
    static method Begin(disk: Disk) returns (g: Guard?)
      requires disk.Valid() && disk.trace == [disk.names]
      modifies disk
      ensures disk.Valid() && disk.faults >= old(disk.faults)
      ensures LockOnly(old(disk.names), disk.names) && AllLockOnly(old(disk.names), disk.trace)
      ensures g != null ==> fresh(g) && g.disk == disk && g.Holding(old(disk.names)) && Lock !in old(disk.names)
      ensures g != null ==>
        && CommitDirectory !in old(disk.names)
        && Project(Mod) in old(disk.names) && old(disk.names)[Project(Mod)].File?
        && (Project(Sum) in old(disk.names) ==> old(disk.names)[Project(Sum)].File?)
      ensures g != null && Approval !in old(disk.names) ==>
        && (exists text :: old(disk.names)[Project(Mod)].content == Body(text, true))
        && (Project(Sum) in old(disk.names) ==>
            exists free :: old(disk.names)[Project(Sum)].content == Body("", free))
      ensures g != null && Approval in old(disk.names) ==>
        && old(disk.names)[Approval].File? && Project(Sum) in old(disk.names) && exists cache ::
            old(disk.names)[Approval].content ==
              Approved(old(disk.names)[Project(Mod)].content, old(disk.names)[Project(Sum)].content, cache)
      ensures disk.faults == old(disk.faults) ==> (g != null <==> Lock !in old(disk.names) && Accepted(old(disk.names)))
      ensures disk.faults == old(disk.faults) && g == null && Lock !in old(disk.names) ==> Lock !in disk.names
    {
      hide *;
      ghost var start := disk.names;
      AcceptedExactly(start);
      g := null;
      var ok := AcquireLock(disk);
      if !ok { return; }
      ghost var locked, before := disk.names, disk.trace;
      LockOnlyAccepts(start, locked);
      var made := new Guard(disk, disk.names);
      ok := made.Examine();
      if !ok {
        var released := made.Close();
        LockOnlyTwice(start, locked, disk.names);
        LockOnlyMore(start, before, disk.trace, disk.names);
        return;
      }
      made.NowHolding(start);
      g := made;
    }

    /** `commitSelection`: one update of the frozen project. */
    method Commit(u: Update, ghost start: Names) returns (ok: bool)
      requires Holding(start)
      modifies disk, this`committed
      ensures disk.Valid() && Crashproof(plan, u, disk.trace) && disk.faults >= old(disk.faults)
      ensures Concluded(plan, u, disk.names, ok, disk.faults > old(disk.faults))
      ensures SameAt(plan, disk.names, Lock)
      ensures ok ==> committed && Sound(plan) && Sound(disk.names)
      ensures disk.faults == old(disk.faults) && !Visited(disk.names) ==> (ok <==> Sound(plan))
      ensures disk.faults == old(disk.faults) && !Visited(disk.names) ==>
        (CommitDirectory in disk.names <==> Typed(plan) && !Unshared(plan))
    {
      hide *;
      HoldingParts(start);
      ghost var faults := disk.faults;
      LockOnlyCrashproof(start, plan, u, disk.trace);
      InsideOnlyItself(plan);
      InsideOnlyOld(plan, plan);
      OldKept(plan, u, plan);
      ConcludedOld(plan, u, plan);
      ok := VerifyUnchanged();
      if !ok { return; }
      ok := disk.Try();
      if !ok { return; }
      ok := VerifyUnchanged();
      if !ok { return; }
      ok := Transact(u);
      var disposed := disk.Try();
      if ok && !disposed {
        ConcludedLate(plan, u, disk.names);
        ok := false;
      }
      ConcludedFaulty(plan, u, disk.names, ok, disk.faults > faults);
    }

    method Transact(u: Update) returns (ok: bool)
      requires disk.Valid() && Crashproof(plan, u, disk.trace) && disk.names == plan && CommitDirectory !in plan
      requires Freezable(plan) && (Approval in plan ==> plan[Approval].File?)
      modifies disk, this`committed
      ensures disk.Valid() && Crashproof(plan, u, disk.trace) && disk.faults >= old(disk.faults)
      ensures Concluded(plan, u, disk.names, ok, disk.faults > old(disk.faults))
      ensures SameAt(plan, disk.names, Lock)
      ensures ok ==> committed && Sound(plan) && Sound(disk.names)
      ensures disk.faults == old(disk.faults) && !Visited(disk.names) ==> (ok <==> Sound(plan))
      ensures disk.faults == old(disk.faults) && !Visited(disk.names) ==>
        (CommitDirectory in disk.names <==> Typed(plan) && !Unshared(plan))
    {
      hide *;
      var t := Transaction.Begin(disk, u, plan);
      InsideOnlyOld(plan, disk.names);
      if t == null {
        OldKept(plan, u, disk.names);
        ConcludedOld(plan, u, disk.names);
        ok := false;
        return;
      }
      ok := t.Commit();
      committed := committed || ok;
    }
  }

  lemma LockOnlyStart(names: Names)
    ensures LockOnly(names, names) && AllLockOnly(names, [names]) && Placed(names, Lock)
  {
  }

  lemma LockGone(names: Names)
    ensures LockOnly(names, names - {Lock})
  {
  }

  lemma LockTaken(names: Names, made: Object)
    ensures LockOnly(names, names[Lock := made])
  {
  }

  lemma LockOnlyTwice(a: Names, b: Names, c: Names)
    requires LockOnly(a, b) && LockOnly(b, c)
    ensures LockOnly(a, c)
  {
    forall n | n != Lock ensures SameAt(a, c, n) {
      assert SameAt(a, b, n) && SameAt(b, c, n);
    }
  }

  lemma InsideOnlyItself(names: Names)
    ensures InsideOnly(names, names)
  {
  }

  /** The private workspace may be left behind after all is done. */
  lemma ConcludedLate(o: Names, u: Update, names: Names)
    requires exists faulty :: Concluded(o, u, names, true, faulty)
    ensures Concluded(o, u, names, false, true)
  {
  }

  lemma ConcludedFaulty(o: Names, u: Update, names: Names, ok: bool, faulty: bool)
    requires Concluded(o, u, names, ok, true) || Concluded(o, u, names, ok, false)
    requires !faulty ==> Concluded(o, u, names, ok, false)
    ensures Concluded(o, u, names, ok, faulty)
  {
  }
}
