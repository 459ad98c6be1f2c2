/** The Go project transaction: control files, project marker and retained
    approval change together, or a commit directory says that they may not
    have. */
module GoTransaction {
  import opened Wrappers
  import opened GoDisk
  import opened ControlBackup
  import opened GoLayout

  class Transaction {
    const disk: Disk
    const u: Update
    /** The project as it was frozen. */
    const original: Names
    var p: Progress

    /** Whatever a crash leaves is settled, and the fields describe the disk. */
    ghost predicate Active()
      reads this, disk`names, disk`next, disk`trace
    {
      && disk.Valid() && Crashproof(original, u, disk.trace)
      && Shape(original, u, p, disk.names)
    }

    lemma ActiveParts()
      requires Active()
      ensures disk.Valid() && Crashproof(original, u, disk.trace) && Shape(original, u, p, disk.names)
      ensures BoundaryShape(p, disk.names) && CommitDirectory in disk.names && WellFormed(disk.names, disk.next)
      ensures ControlShape(original, u, p, disk.names, Mod) && ControlShape(original, u, p, disk.names, Sum)
    {
    }

    constructor (disk: Disk, u: Update, original: Names)
      ensures this.disk == disk && this.u == u && this.original == original && p == NOTHING
    {
      this.disk, this.u, this.original, p := disk, u, original, NOTHING;
    }

    lemma Packed()
      requires disk.Valid() && Crashproof(original, u, disk.trace) && Shape(original, u, p, disk.names)
      ensures Active()
    {
    }

    // ------------------------------------------------- primitives behind the mark

    /** The commit directory is there, so whatever happens is marked. */
    ghost predicate Guarded()
      reads disk`names, disk`next, disk`trace
    {
      disk.Valid() && Crashproof(original, u, disk.trace) && CommitDirectory in disk.names
    }

    lemma ActiveGuarded()
      requires Active()
      ensures Guarded()
    {
    }

    lemma GuardedParts()
      requires Guarded()
      ensures disk.Valid() && Crashproof(original, u, disk.trace) && CommitDirectory in disk.names
      ensures WellFormed(disk.names, disk.next)
    {
    }

    lemma GuardedAgain(before: seq<Names>)
      requires disk.Valid() && Crashproof(original, u, before) && CommitDirectory in disk.names
      requires disk.trace == before || disk.trace == before + [disk.names]
      ensures Guarded()
    {
      CrashproofMarked(original, u, before, disk.trace, disk.names);
    }

    method Unlink(n: Name) returns (ok: bool)
      requires Guarded() && n != CommitDirectory && (n in disk.names ==> disk.names[n].File?)
      modifies disk
      ensures Guarded() && disk.faults >= old(disk.faults) && disk.next == old(disk.next)
      ensures disk.names == if ok then old(disk.names) - {n} else old(disk.names)
      ensures ok <==> disk.faults == old(disk.faults) && n in old(disk.names)
      ensures n in old(disk.names) && !ok ==> n in disk.names
      ensures ok ==> n !in disk.names
      ensures forall m :: m != n ==> SameAt(old(disk.names), disk.names, m)
    {
      hide *;
      GuardedParts();
      ghost var was, before := disk.names, disk.trace;
      Unchanged(was);
      ok := disk.Remove(n);
      if ok {
        RemovedNames(was, disk.names, n);
      }
      GuardedAgain(before);
    }

    method MakeFile(n: Name, content: Content) returns (ok: bool, made: Object)
      requires Guarded() && Placed(disk.names, n) && (n.ApprovalTemp? ==> n.id <= disk.next)
      modifies disk
      ensures Guarded() && disk.faults >= old(disk.faults)
      ensures made == File(old(disk.next), content, 0)
      ensures disk.names == if ok then old(disk.names)[n := made] else old(disk.names)
      ensures ok <==> disk.faults == old(disk.faults) && n !in old(disk.names)
      ensures ok ==> At(disk.names, n) == Some(made) && Alone(disk.names, n)
      ensures forall m :: m != n ==> SameAt(old(disk.names), disk.names, m)
    {
      hide *;
      GuardedParts();
      ghost var was, before, next := disk.names, disk.trace, disk.next;
      Unchanged(was);
      ok, made := disk.Create(n, false, content);
      if ok {
        CreatedNames(was, disk.names, n, made);
        FreshAlone(was, disk.names, next, n, made);
      }
      GuardedAgain(before);
    }

    method PutOver(from: Name, to: Name) returns (ok: bool)
      requires Guarded() && from != to && !to.ApprovalTemp? && from != CommitDirectory && to != CommitDirectory
      requires Placed(disk.names, to)
      requires FileAt(disk.names, from) && Alone(disk.names, from) && (to in disk.names ==> FileAt(disk.names, to))
      modifies disk
      ensures Guarded() && disk.faults >= old(disk.faults)
      ensures from in old(disk.names)
      ensures disk.names == if ok then (old(disk.names) - {from})[to := old(disk.names)[from]] else old(disk.names)
      ensures ok <==> disk.faults == old(disk.faults)
      ensures ok ==> At(disk.names, to) == At(old(disk.names), from) && from !in disk.names
      ensures !ok ==> At(disk.names, to) == At(old(disk.names), to) && from in disk.names
      ensures forall m :: m != from && m != to ==> SameAt(old(disk.names), disk.names, m)
    {
      hide *;
      GuardedParts();
      ghost var was, before := disk.names, disk.trace;
      Unchanged(was);
      FileParts(was, from);
      if to in was {
        FileParts(was, to);
      }
      ok := disk.Replace(from, to);
      if ok {
        RenamedNames(was, disk.names, from, to);
        ThereNow(was, disk.names, from, to);
      }
      GuardedAgain(before);
    }

    method PutLink(from: Name, to: Name) returns (ok: bool)
      requires Guarded() && Kin(from, to) && !to.ApprovalTemp? && (FileAt(disk.names, from) ==> Alone(disk.names, from))
      requires Placed(disk.names, to)
      modifies disk
      ensures Guarded() && disk.faults >= old(disk.faults) && disk.next == old(disk.next)
      ensures ok <==> disk.faults == old(disk.faults) && FileAt(old(disk.names), from) && to !in old(disk.names)
      ensures ok ==> from in old(disk.names)
      ensures disk.names == if ok then old(disk.names)[to := old(disk.names)[from]] else old(disk.names)
      ensures ok ==> At(disk.names, to) == At(old(disk.names), from)
      ensures forall m :: m != to ==> SameAt(old(disk.names), disk.names, m)
    {
      hide *;
      GuardedParts();
      ghost var was, before := disk.names, disk.trace;
      Unchanged(was);
      FileFound(was, from);
      ok := disk.Link(from, to);
      if ok {
        CreatedNames(was, disk.names, to, was[from]);
      }
      GuardedAgain(before);
    }

    // ------------------------------------------------------------------ opening

    /** The staging directory; a fault after its creation leaves it unrecorded. */
    method MakeStaging(ghost commit: Object) returns (ok: bool)
      requires Guarded() && commit.Directory? && Bare(original) && disk.names == original[CommitDirectory := commit]
      requires p == NOTHING.(commitDirectory := Some(commit))
      requires Freezable(original) && (Approval in original ==> original[Approval].File?)
      modifies disk, this`p
      ensures Guarded() && disk.faults >= old(disk.faults) && InsideOnly(original, disk.names)
      ensures ok ==> Active() && p == old(p).(selectedDirectory := p.selectedDirectory) && p.selectedDirectory.Some?
      ensures ok <==> disk.faults == old(disk.faults)
    {
      hide *;
      GuardedParts();
      ghost var was, before := disk.names, disk.trace;
      OpeningNames(original, was, commit);
      ok := disk.Try();
      if !ok { return; }
      var made;
      ok, made := disk.Create(SelectedDirectory, true, Body("", true));
      if ok {
        CreatedNames(was, disk.names, SelectedDirectory, made);
        InsideOnlyOne(original, was, disk.names, SelectedDirectory);
      }
      GuardedAgain(before);
      if ok {
        ok := disk.Try();
      }
      if ok {
        p := p.(selectedDirectory := Some(made));
        StartShape(original, u, p, disk.names, commit, made);
        GuardedParts();
        Packed();
      }
    }

    /** `prepareSelectedControls`. */
    method PrepareSelected(ghost commit: Object) returns (ok: bool)
      requires Guarded() && commit.Directory? && Bare(original) && disk.names == original[CommitDirectory := commit]
      requires p == NOTHING.(commitDirectory := Some(commit))
      requires Freezable(original) && (Approval in original ==> original[Approval].File?)
      modifies disk, this`p
      ensures Guarded() && disk.faults >= old(disk.faults) && InsideOnly(original, disk.names)
      ensures ok ==> Active() && Stage(original, p, 0)
      ensures ok <==> disk.faults == old(disk.faults)
    {
      hide *;
      NothingParts();
      ok := MakeStaging(commit);
      if !ok { return; }
      ghost var was, first := disk.names, p;
      InsideOnlyNames();
      ok := PrepareControl(Mod);
      ghost var mid, second := disk.names, p;
      InsideOnlyOne(original, was, mid, Selected(Mod));
      if !ok { return; }
      ok := PrepareControl(Sum);
      InsideOnlyOne(original, mid, disk.names, Selected(Sum));
      if ok {
        StagePrepared(original, first, second, p);
      }
    }

    /** The commit directory exists and has to be recorded and filled. */
    method Open(ghost commit: Object) returns (ok: bool)
      requires Guarded() && p == NOTHING
      requires commit.Directory? && Bare(original) && disk.names == original[CommitDirectory := commit]
      requires Freezable(original) && (Approval in original ==> original[Approval].File?)
      modifies disk, this`p
      ensures disk.Valid() && Crashproof(original, u, disk.trace) && disk.faults >= old(disk.faults)
      ensures InsideOnly(original, disk.names)
      ensures ok ==> Active() && Stage(original, p, 0)
      ensures ok <==> disk.faults == old(disk.faults)
    {
      hide *;
      GuardedParts();
      OpeningNames(original, disk.names, commit);
      InsideOnlyNames();
      ok := disk.Try();
      if !ok {
        RemoveUnrecorded(commit);
        return;
      }
      ok := disk.Try();
      if !ok { return; }
      p := p.(commitDirectory := Some(disk.names[CommitDirectory]));
      ok := PrepareSelected(commit);
      if !ok {
        ghost var was := disk.names;
        InsideOnlyOld(original, was);
        var removed := RemoveBackup(false);
        InsideOnlySwept(original, was, disk.names, BackupRecords(original, p, false));
      } else {
        ActiveParts();
      }
    }

    /** `os.RemoveAll` of the empty commit directory; its error is dropped. */
    method RemoveUnrecorded(ghost commit: Object)
      requires Guarded() && commit.Directory? && Bare(original) && disk.names == original[CommitDirectory := commit]
      modifies disk
      ensures disk.Valid() && Crashproof(original, u, disk.trace) && disk.faults >= old(disk.faults)
      ensures InsideOnly(original, disk.names)
    {
      hide *;
      GuardedParts();
      ghost var was, before := disk.names, disk.trace;
      OpeningNames(original, was, commit);
      InsideOnlyNames();
      var removed := disk.Remove(CommitDirectory);
      disk.ValidParts();
      if removed {
        RemovedNames(was, disk.names, CommitDirectory);
        InsideOnlyOne(original, was, disk.names, CommitDirectory);
      }
      InsideOnlyOld(original, disk.names);
      MarkingOne(before, disk.trace, disk.names);
      OldSettled(original, u, disk.names);
      CrashproofSettled(original, u, before, disk.trace);
    }

    /** `beginGoProjectTransaction`: nothing outside the commit directory has
        changed when it fails. */
    static method Begin(disk: Disk, u: Update, original: Names) returns (t: Transaction?)
      requires disk.Valid() && Crashproof(original, u, disk.trace) && disk.names == original
      requires CommitDirectory !in original
      requires Freezable(original) && (Approval in original ==> original[Approval].File?)
      modifies disk
      ensures disk.Valid() && Crashproof(original, u, disk.trace) && disk.faults >= old(disk.faults)
      ensures InsideOnly(original, disk.names)
      ensures t != null ==>
        fresh(t) && t.disk == disk && t.u == u && t.original == original && t.Active() && Stage(original, t.p, 0)
      ensures t != null <==> disk.faults == old(disk.faults)
    {
      hide *;
      ghost var before := disk.trace;
      var made := new Transaction(disk, u, original);
      t := null;
      AtTop(original);
      disk.ValidParts();
      NoneInside(original, disk.next);
      var ok := made.VerifyUnchanged();
      UnchangedFrom(original);
      if !ok { return; }
      var directory;
      ok, directory := disk.Create(CommitDirectory, true, Body("", true));
      if !ok { return; }
      CreatedNames(original, disk.names, CommitDirectory, directory);
      FoundThere(disk.names, CommitDirectory, directory);
      made.GuardedAgain(before);
      ok := made.Open(directory);
      if ok {
        t := made;
      }
    }

    // ------------------------------------------------------------ going forward

    /** A private copy; a fault after its creation leaves it without a record. */
    method StageControl(c: Control) returns (ok: bool, made: Object)
      requires Guarded() && Placed(disk.names, Selected(c)) && Selected(c) !in disk.names
      modifies disk
      ensures Guarded() && disk.faults >= old(disk.faults)
      ensures made == File(old(disk.next), Wanted(u, c), 0)
      ensures ok ==> disk.names == old(disk.names)[Selected(c) := made]
      ensures ok <==> disk.faults == old(disk.faults)
      ensures forall n :: n != Selected(c) ==> SameAt(old(disk.names), disk.names, n)
    {
      hide *;
      Unchanged(disk.names);
      made := File(disk.next, Wanted(u, c), 0);
      ok := disk.Try();
      if !ok { return; }
      ok, made := MakeFile(Selected(c), Wanted(u, c));
      if ok {
        ok := disk.Try();
      }
    }

    /** One selected control is written below the commit directory. */
    method PrepareControl(c: Control) returns (ok: bool)
      requires Active() && c !in p.moved && c !in p.published && c !in p.chosen && p.selectedDirectory.Some?
      modifies disk, this`p
      ensures Guarded() && disk.faults >= old(disk.faults)
      ensures ok <==> disk.faults == old(disk.faults)
      ensures ok ==> Active() && c in p.chosen && p == old(p).(chosen := old(p).chosen[c := p.chosen[c]])
      ensures forall n :: n != Selected(c) ==> SameAt(old(disk.names), disk.names, n)
    {
      hide *;
      ActiveParts();
      ActiveGuarded();
      ReadyToChoose(original, u, p, disk.names, disk.next, c);
      ghost var was := disk.names;
      var made;
      ok, made := StageControl(c);
      if ok {
        StepChosen(original, u, p, was, c, made);
        p := p.(chosen := p.chosen[c := made]);
        GuardedParts();
        Packed();
      }
    }

    /** One original goes into the commit directory. */
    method BackUpControl(c: Control) returns (ok: bool)
      requires Active() && c !in p.moved && c !in p.published
      modifies disk, this`p
      ensures Active() && disk.faults >= old(disk.faults)
      ensures p == if ok && Project(c) in original then old(p).(moved := old(p).moved + {c}) else old(p)
      ensures ok <==> disk.faults == old(disk.faults)
      ensures forall n :: n != Project(c) && n != Moved(c) ==> SameAt(old(disk.names), disk.names, n)
    {
      hide *;
      ActiveParts();
      Unchanged(disk.names);
      ReadyToMove(original, u, p, disk.names, disk.next, c);
      AtSame(original, disk.names, Project(c));
      assert c == Mod || c == Sum;
      ok := disk.Try();
      if !ok || (c == Sum && Project(c) !in disk.names && Project(c) !in original) {
        return;
      }
      ok := FileAt(disk.names, Project(c)) && disk.names[Project(c)] == original[Project(c)];
      if !ok { return; }
      ghost var was, before := disk.names, disk.trace;
      StepMoved(original, u, p, was, c);
      ok := disk.Rename(Project(c), Moved(c));
      if ok {
        RenamedNames(was, disk.names, Project(c), Moved(c));
        p := p.(moved := p.moved + {c});
      }
      CrashproofMarked(original, u, before, disk.trace, disk.names);
      Packed();
    }

    method LinkControl(c: Control) returns (ok: bool)
      requires Active() && c !in p.published && c in p.chosen && (c in p.moved || Project(c) !in original)
      modifies disk, this`p
      ensures Active() && disk.faults >= old(disk.faults)
      ensures p == if ok then old(p).(published := old(p).published + {c}) else old(p)
      ensures ok ==> FileAt(disk.names, Selected(c))
      ensures ok <==> disk.faults == old(disk.faults)
      ensures forall n :: n != Project(c) ==> SameAt(old(disk.names), disk.names, n)
    {
      hide *;
      ActiveParts();
      ActiveGuarded();
      Unchanged(disk.names);
      ReadyToPublish(original, u, p, disk.names, disk.next, c);
      ok := disk.Try();
      ok := ok && FileAt(disk.names, Selected(c)) && Project(c) !in disk.names &&
        disk.names[Selected(c)] == p.chosen[c];
      if !ok { return; }
      StepPublished(original, u, p, disk.names, c);
      KinLinks(c);
      ok := PutLink(Selected(c), Project(c));
      if ok {
        p := p.(published := p.published + {c});
        StillFile(old(disk.names), disk.names, Selected(c));
      }
      GuardedParts();
      Packed();
    }

    /** One selected control is linked into the project and is no longer staged. */
    method PublishControl(c: Control) returns (ok: bool)
      requires Active() && c !in p.published && c in p.chosen && (c in p.moved || Project(c) !in original)
      modifies disk, this`p
      ensures Active() && disk.faults >= old(disk.faults)
      ensures ok ==> p == old(p).(published := old(p).published + {c}) && Selected(c) !in disk.names
      ensures ok <==> disk.faults == old(disk.faults)
      ensures forall n :: n != Project(c) && n != Selected(c) ==> SameAt(old(disk.names), disk.names, n)
    {
      hide *;
      ok := LinkControl(c);
      if !ok { return; }
      ActiveParts();
      ActiveGuarded();
      ghost var linked := disk.names;
      StepUnstaged(original, u, p, linked, c);
      FileParts(linked, Selected(c));
      ok := Unlink(Selected(c));
      ChangedTwice(old(disk.names), linked, disk.names, Project(c), Selected(c));
      GuardedParts();
      Packed();
    }

    /** The project marker, if there is one, goes into the commit directory. */
    method BackUpMetadata() returns (ok: bool)
      requires Active() && !p.metadataMoved && !p.metadataPublished && SameAt(original, disk.names, MetadataDirectory)
      modifies disk, this`p
      ensures Active() && disk.faults >= old(disk.faults)
      ensures ok ==> p == old(p).(metadataMoved := Metadata in original,
        originalMetadata := if Metadata in original then At(original, Metadata) else old(p).originalMetadata)
      ensures !ok ==> p == old(p)
      ensures ok <==> disk.faults == old(disk.faults) && Typed(original)
      ensures forall n :: n != Metadata && n != MovedMetadata ==> SameAt(old(disk.names), disk.names, n)
    {
      hide *;
      ActiveParts();
      Unchanged(disk.names);
      ReadyToMoveMetadata(original, u, p, disk.names, disk.next);
      AtSame(original, disk.names, Metadata);
      TypedNow(original, disk.names);
      ok := disk.Try();
      ok := ok && (MetadataDirectory in disk.names ==> disk.names[MetadataDirectory].Directory?);
      if !ok { return; }
      ok := disk.Try();
      if !ok || Metadata !in disk.names {
        return;
      }
      ok := FileAt(disk.names, Metadata);
      if !ok { return; }
      ghost var was, before := disk.names, disk.trace;
      FileParts(was, Metadata);
      StepMetadataMoved(original, u, p, was);
      ok := disk.Rename(Metadata, MovedMetadata);
      if ok {
        RenamedNames(was, disk.names, Metadata, MovedMetadata);
        p := p.(metadataMoved := true, originalMetadata := Some(original[Metadata]));
        FoundAt(original, Metadata);
      }
      CrashproofMarked(original, u, before, disk.trace, disk.names);
      Packed();
    }

    method MakeMetadataDirectory() returns (ok: bool)
      requires Active() && !p.metadataPublished
      modifies disk, this`p
      ensures Active() && disk.faults >= old(disk.faults)
      ensures p == if ok then old(p).(metadataDirectory := At(disk.names, MetadataDirectory)) else old(p)
      ensures ok ==>
        && p.metadataDirectory.Some? && p.metadataDirectory.value.Directory? && Placed(disk.names, Metadata)
        && Placed(disk.names, MetadataTemp)
      ensures disk.next >= old(disk.next)
      ensures ok <==>
        && disk.faults == old(disk.faults)
        && (MetadataDirectory in old(disk.names) ==> old(disk.names)[MetadataDirectory].Directory?)
      ensures forall n :: n != MetadataDirectory ==> SameAt(old(disk.names), disk.names, n)
    {
      hide *;
      ActiveParts();
      ActiveGuarded();
      ghost var was, before := disk.names, disk.trace;
      Unchanged(was);
      PlacedAtTop(was);
      ok := disk.Try();
      if !ok { return; }
      if MetadataDirectory !in disk.names {
        var made;
        ok, made := disk.Create(MetadataDirectory, true, Body("", true));
        if ok {
          CreatedNames(was, disk.names, MetadataDirectory, made);
        }
        GuardedAgain(before);
        GuardedParts();
        MetadataStillPlaced(was, disk.names);
        StepBesideMetadata(original, u, p, p.metadataDirectory, was, disk.names);
        Packed();
        if !ok { return; }
      }
      ok := disk.Try();
      ok := ok && MetadataDirectory in disk.names && disk.names[MetadataDirectory].Directory?;
      if !ok { return; }
      MetadataStillPlaced(was, disk.names);
      StepBesideMetadata(original, u, p, At(disk.names, MetadataDirectory), was, disk.names);
      p := p.(metadataDirectory := At(disk.names, MetadataDirectory));
      PlacedBelow(disk.names);
      Packed();
    }

    /** `defer metadata.Remove`: whether it works is not asked. */
    method DisposeRecord()
      requires Active() && (MetadataTemp in disk.names ==> FileAt(disk.names, MetadataTemp))
      modifies disk
      ensures Active() && disk.faults >= old(disk.faults)
      ensures MetadataTemp !in old(disk.names) ==> MetadataTemp !in disk.names
      ensures forall n :: n != MetadataTemp ==> SameAt(old(disk.names), disk.names, n)
    {
      hide *;
      ActiveParts();
      ActiveGuarded();
      ghost var was := disk.names;
      if MetadataTemp in was {
        FileParts(was, MetadataTemp);
      }
      var gone := Unlink(MetadataTemp);
      GuardedParts();
      StepRecord(original, u, p, was, disk.names);
      Packed();
    }

    method RenameRecord(made: Object) returns (ok: bool)
      requires Active() && !p.metadataPublished && (p.metadataMoved || Metadata !in original)
      requires p.metadataDirectory.Some? && p.metadataDirectory == At(disk.names, MetadataDirectory)
      requires Placed(disk.names, Metadata)
      requires Made(Some(made), MarkerOf(u), At(original, Metadata)) && At(disk.names, MetadataTemp) == Some(made)
      requires Alone(disk.names, MetadataTemp)
      modifies disk, this`p
      ensures Active() && disk.faults >= old(disk.faults)
      ensures p == if ok then old(p).(metadataPublished := true, metadataInfo := Some(made)) else old(p)
      ensures MetadataTemp in disk.names ==> FileAt(disk.names, MetadataTemp)
      ensures ok ==> MetadataTemp !in disk.names
      ensures ok <==> disk.faults == old(disk.faults)
      ensures forall n :: n != Metadata && n != MetadataTemp ==> SameAt(old(disk.names), disk.names, n)
    {
      hide *;
      ActiveParts();
      ActiveGuarded();
      ghost var was := disk.names;
      StepMetadataPublished(original, u, p, was, made);
      MarkerAbsent(original, u, p, was);
      RecordThere(was, made, u, At(original, Metadata));
      ok := PutOver(MetadataTemp, Metadata);
      if ok {
        p := p.(metadataPublished := true, metadataInfo := Some(made));
      }
      GuardedParts();
      Packed();
    }

    method PublishRecord(content: Content) returns (ok: bool)
      requires Active() && !p.metadataPublished && (p.metadataMoved || Metadata !in original)
      requires p.metadataDirectory.Some? && p.metadataDirectory == At(disk.names, MetadataDirectory)
      requires Placed(disk.names, Metadata) && Placed(disk.names, MetadataTemp)
      requires content == MarkerOf(u)
      modifies disk, this`p
      ensures Active() && disk.faults >= old(disk.faults)
      ensures p == old(p) || p == old(p).(metadataPublished := true, metadataInfo := p.metadataInfo)
      ensures ok ==> p.metadataPublished && MetadataTemp !in old(disk.names) && MetadataTemp !in disk.names
      ensures disk.faults == old(disk.faults) ==> (ok <==> MetadataTemp !in old(disk.names))
      ensures forall n :: n != Metadata && n != MetadataTemp ==> SameAt(old(disk.names), disk.names, n)
    {
      hide *;
      ActiveParts();
      ActiveGuarded();
      ghost var was, next := disk.names, disk.next;
      MarkerOlder(original, u, p, was, next);
      var made;
      ok, made := MakeFile(MetadataTemp, content);
      GuardedParts();
      StepRecord(original, u, p, was, disk.names);
      Packed();
      if !ok { return; }
      ghost var named := disk.names;
      MadeFresh(original, next, was, content, made);
      StillPlaced(was, named);
      RecordThere(named, made, u, At(original, Metadata));
      Unchanged(named);
      ok := disk.Try();
      if ok {
        ok := RenameRecord(made);
      }
      ghost var renamed := disk.names;
      if ok {
        ok := disk.Try();
      }
      DisposeRecord();
      RecordGone(was, named, renamed, disk.names);
    }

    /** The marker names the control files that are live; it is written privately
        and renamed into place.  What is left of a failed attempt is the private
        record. */
    method PublishMetadata() returns (ok: bool)
      requires Active() && !p.metadataPublished && (p.metadataMoved || Metadata !in original)
      requires p.published == {Mod, Sum}
      requires SameAt(original, disk.names, MetadataDirectory) && SameAt(original, disk.names, MetadataTemp)
      modifies disk, this`p
      ensures Active() && disk.faults >= old(disk.faults)
      ensures ok ==>
        p == old(p).(metadataPublished := true, metadataInfo := p.metadataInfo,
                     metadataDirectory := p.metadataDirectory)
      ensures ok ==> MetadataTemp !in original && MetadataTemp !in disk.names
      ensures p.moved == old(p).moved && p.published == old(p).published && p.chosen == old(p).chosen
      ensures p.metadataMoved == old(p).metadataMoved && p.approvalPublished == old(p).approvalPublished
      ensures disk.faults == old(disk.faults) ==> (ok <==> Typed(original) && MetadataTemp !in original)
      ensures forall n ::
        n != Metadata && n != MetadataTemp && n != MetadataDirectory ==> SameAt(old(disk.names), disk.names, n)
    {
      hide *;
      ActiveParts();
      Unchanged(disk.names);
      ghost var was := disk.names;
      TypedDirectory(original, u, p, was);
      ok := MakeMetadataDirectory();
      ghost var made := disk.names;
      if !ok { return; }
      ActiveParts();
      TempSame(original, was, made);
      ok := disk.Try();
      if !ok { return; }
      ReadyToMark(original, u, p, made);
      FileParts(made, Project(Mod));
      FileParts(made, Project(Sum));
      var content := Record(disk.names[Project(Mod)].content, disk.names[Project(Sum)].content);
      ok := disk.Try();
      if !ok { return; }
      ok := PublishRecord(content);
      MetadataOnly(was, made, disk.names);
    }

    // ---------------------------------------------------------------- approval

    /** A first approval is linked, so as not to replace one; a later one is
        renamed over its predecessor. */
    method PlaceRecord(n: Name, content: Content) returns (ok: bool)
      requires Guarded() && n.ApprovalTemp? && Replaceable(original, disk.names)
      requires FileAt(disk.names, n) && Alone(disk.names, n) && disk.names[n].content == content
      modifies disk
      ensures Guarded() && disk.faults >= old(disk.faults)
      ensures ok <==> disk.faults == old(disk.faults)
      ensures ok ==> Holds(disk.names, Approval, content)
      ensures !ok ==> SameAt(old(disk.names), disk.names, Approval)
      ensures n in disk.names ==> FileAt(disk.names, n)
      ensures forall m :: m != n && m != Approval ==> SameAt(old(disk.names), disk.names, m)
    {
      hide *;
      ghost var was := disk.names;
      PlaceableRecord(original, was, n);
      if Approval !in original {
        ok := PutLink(n, Approval);
      } else {
        ok := PutOver(n, Approval);
      }
      RecordPlaced(was, disk.names, n, content, ok);
    }

    /** `writeState`, for a new approval and for an old one. */
    method WriteState(content: Content) returns (ok: bool, published: bool)
      requires Guarded() && Replaceable(original, disk.names)
      modifies disk
      ensures Guarded() && disk.faults >= old(disk.faults)
      ensures ok <==> disk.faults == old(disk.faults)
      ensures ok ==> published
      ensures if published then Holds(disk.names, Approval, content) else SameAt(old(disk.names), disk.names, Approval)
      ensures ApprovalOnly(old(disk.names), disk.names)
    {
      hide *;
      GuardedParts();
      ghost var was := disk.names;
      Unchanged(was);
      FreshRecord(was, disk.next);
      published := false;
      ok := disk.Try();
      var n := ApprovalTemp(disk.next);
      ApprovalOnlyOne(was, was, n);
      if !ok { return; }
      var made;
      ok, made := MakeFile(n, content);
      if !ok { return; }
      ghost var written := disk.names;
      RecordWritten(original, was, written, n, made);
      Unchanged(written);
      ok := disk.Try();
      if ok {
        ok := PlaceRecord(n, content);
        published := ok;
      }
      ghost var placed := disk.names;
      if ok {
        ok := disk.Try();
      }
      var disposed := DisposePrivate(n);
      ok := ok && disposed;
      StateWritten(was, written, placed, disk.names, n, published, content);
    }

    method DisposePrivate(n: Name) returns (ok: bool)
      requires Guarded() && n.ApprovalTemp? && (n in disk.names ==> FileAt(disk.names, n))
      modifies disk
      ensures Guarded() && disk.faults >= old(disk.faults)
      ensures ok <==> disk.faults == old(disk.faults)
      ensures forall m :: m != n ==> SameAt(old(disk.names), disk.names, m)
    {
      hide *;
      Unchanged(disk.names);
      ok := disk.Try();
      if ok && n in disk.names {
        FileParts(disk.names, n);
        ok := Unlink(n);
      }
    }

    method PublishApproval() returns (ok: bool)
      requires Active() && !p.approvalPublished
      modifies disk, this`p
      ensures Active() && disk.faults >= old(disk.faults)
      ensures p == old(p).(approvalPublished := p.approvalPublished)
      ensures ok ==> p.approvalPublished
      ensures ok <==> disk.faults == old(disk.faults)
      ensures ApprovalOnly(old(disk.names), disk.names)
    {
      hide *;
      ActiveParts();
      ActiveGuarded();
      ghost var was := disk.names;
      Unchanged(was);
      ApprovalOnlyOne(was, was, Approval);
      ApprovalThere(original, u, p, was);
      ok := disk.Try();
      ok := ok && At(disk.names, Approval) == At(original, Approval);
      if !ok { return; }
      var published;
      ok, published := WriteState(ApprovalOf(u));
      ApprovalStep(original, u, p, published, was, disk.names);
      p := p.(approvalPublished := published);
      GuardedParts();
      Packed();
    }

    // ---------------------------------------------------------------- rollback

    /** An original is linked back and then leaves the commit directory. */
    method PutBack(from: Name, to: Name) returns (ok: bool)
      requires Guarded() && Kin(from, to) && Placed(disk.names, to) && !to.ApprovalTemp? && from != CommitDirectory
      requires from != to
      requires FileAt(disk.names, from) && Alone(disk.names, from) && At(disk.names, from) == At(original, to)
      modifies disk
      ensures Guarded() && disk.faults >= old(disk.faults)
      ensures ok <==> disk.faults == old(disk.faults) && SingleLink(old(disk.names), from) && to !in old(disk.names)
      ensures ok ==> SameAt(original, disk.names, to) && from !in disk.names
      ensures KeptAt(original, disk.names, to, from)
      ensures forall n :: n != from && n != to ==> SameAt(old(disk.names), disk.names, n)
    {
      hide *;
      ghost var was := disk.names;
      Unchanged(was);
      KeptAside(original, was, from, to);
      ok := disk.Try();
      ok := ok && SingleLink(disk.names, from) && At(disk.names, from) == At(original, to);
      if !ok { return; }
      ok := PutLink(from, to);
      if !ok { return; }
      ghost var linked := disk.names;
      LinkedBack(original, was, linked, from, to);
      ok := Unlink(from);
      ChangedTwice(was, linked, disk.names, to, from);
      KeptBack(original, linked, disk.names, from, to);
    }

    method TakeBack(c: Control) returns (checked: bool, ok: bool)
      requires Guarded() && ControlShape(original, u, p, disk.names, c) && c in p.published
      modifies disk
      ensures Guarded() && disk.faults >= old(disk.faults) && (ok ==> checked)
      ensures disk.names == if ok then old(disk.names) - {Project(c)} else old(disk.names)
      ensures ok <==> disk.faults == old(disk.faults) && Selected(c) !in old(disk.names)
      ensures ok <==> Project(c) !in disk.names
    {
      hide *;
      GuardedParts();
      ReadyToTakeBack(original, u, p, disk.names, disk.next, c);
      FileParts(disk.names, Project(c));
      checked := disk.Try();
      checked := checked && SingleLink(disk.names, Project(c)) && At(disk.names, Project(c)) == Chosen(p, c);
      ok := checked;
      if checked {
        ok := Unlink(Project(c));
      }
    }

    /** One control file goes back to what it was. */
    method RollBackControl(c: Control) returns (ok: bool)
      requires Guarded() && ControlShape(original, u, p, disk.names, c)
      modifies disk
      ensures Guarded() && disk.faults >= old(disk.faults)
      ensures ok ==> Restored(original, p, disk.names, c)
      ensures ok <==> disk.faults == old(disk.faults) && SteadyControl(original, p, old(disk.names), c)
      ensures KeptAt(original, disk.names, Project(c), Moved(c))
      ensures forall n :: n != Project(c) && n != Moved(c) ==> SameAt(old(disk.names), disk.names, n)
    {
      hide *;
      GuardedParts();
      ghost var was := disk.names;
      Unchanged(was);
      ReadyToTakeBack(original, u, p, was, disk.next, c);
      KeptShape(original, u, p, was, c);
      Steadied(original, p, was, c);
      ok := true;
      if c in p.published {
        var checked;
        checked, ok := TakeBack(c);
        if !checked { return; }
      }
      ghost var taken := disk.names;
      if c in p.moved {
        KinLinks(c);
        StillAlone(was, taken, Moved(c), Project(c));
        SingleStill(was, taken, Moved(c), Project(c));
        var back := PutBack(Moved(c), Project(c));
        ok := ok && back;
      }
      ControlRolledBack(original, u, p, was, taken, disk.names, c, ok);
    }

    method TakeBackMetadata() returns (ok: bool)
      requires Guarded() && MetadataShape(original, u, p, disk.names) && p.metadataPublished
      modifies disk
      ensures Guarded() && disk.faults >= old(disk.faults)
      ensures disk.names == if ok then old(disk.names) - {Metadata} else old(disk.names)
      ensures ok <==> disk.faults == old(disk.faults)
      ensures ok <==> Metadata !in disk.names
    {
      hide *;
      GuardedParts();
      ReadyToTakeBackMetadata(original, u, p, disk.names, disk.next);
      FileParts(disk.names, Metadata);
      ok := disk.Try();
      ok := ok && At(disk.names, Metadata) == p.metadataInfo &&
        At(disk.names, MetadataDirectory) == p.metadataDirectory;
      if ok {
        ok := Unlink(Metadata);
      }
    }

    /** The project marker goes back to what it was. */
    method RollBackMetadata() returns (ok: bool)
      requires Guarded() && MetadataShape(original, u, p, disk.names)
      modifies disk
      ensures Guarded() && disk.faults >= old(disk.faults)
      ensures ok ==> SameAt(original, disk.names, Metadata) && MovedMetadata !in disk.names
      ensures ok <==> disk.faults == old(disk.faults) && SteadyMetadata(original, p)
      ensures KeptAt(original, disk.names, Metadata, MovedMetadata)
      ensures forall n :: n != Metadata && n != MovedMetadata ==> SameAt(old(disk.names), disk.names, n)
    {
      hide *;
      GuardedParts();
      ghost var was := disk.names;
      Unchanged(was);
      ReadyToTakeBackMetadata(original, u, p, was, disk.next);
      ok := true;
      if p.metadataPublished {
        ok := TakeBackMetadata();
      }
      ghost var taken := disk.names;
      if p.metadataMoved {
        StillAlone(was, taken, MovedMetadata, Metadata);
        SingleStill(was, taken, MovedMetadata, Metadata);
        PlacedStill(was, taken);
        var back := PutBack(MovedMetadata, Metadata);
        ok := ok && back;
      }
      MetadataRolledBack(original, u, p, was, taken, disk.names, ok);
    }

    method RollBackApproval() returns (ok: bool)
      requires Guarded() && ApprovalShape(original, u, p, disk.names)
      modifies disk
      ensures Guarded() && disk.faults >= old(disk.faults)
      ensures ok ==> ApprovalOld(original, disk.names)
      ensures ApprovalWhole(original, u, disk.names)
      ensures ok <==> disk.faults == old(disk.faults)
      ensures ApprovalOnly(old(disk.names), disk.names)
    {
      hide *;
      ghost var was := disk.names;
      Unchanged(was);
      ApprovalOnlyOne(was, was, Approval);
      ApprovalRolls(original, u, p, was);
      ok := true;
      if !p.approvalPublished { return; }
      ok := disk.Try();
      ok := ok && FileAt(disk.names, Approval) && disk.names[Approval].content == ApprovalOf(u);
      if !ok { return; }
      if Approval !in original {
        FileParts(was, Approval);
        ok := Unlink(Approval);
        ApprovalOnlyOne(was, disk.names, Approval);
        if ok {
          ApprovalGone(original, u, disk.names);
          ok := disk.Try();
        }
      } else {
        var restored;
        ok, restored := WriteState(original[Approval].content);
        if restored {
          ApprovalBack(original, u, disk.names);
        } else {
          ApprovalWholeStays(original, u, was, disk.names);
        }
      }
    }

    method RollBackControls() returns (ok: bool)
      requires Guarded() && ControlShape(original, u, p, disk.names, Mod)
      requires ControlShape(original, u, p, disk.names, Sum)
      modifies disk
      ensures Guarded() && disk.faults >= old(disk.faults)
      ensures ok ==> RestoredControls(original, p, disk.names)
      ensures ok <==> disk.faults == old(disk.faults) && SteadyControls(original, p, old(disk.names))
      ensures KeptControls(original, disk.names) && ControlsOnly(old(disk.names), disk.names)
    {
      hide *;
      ghost var was := disk.names;
      ok := RollBackControl(Sum);
      ghost var first := disk.names;
      ControlsBetween(original, u, p, was, first);
      var second := RollBackControl(Mod);
      ControlsBack(original, p, was, first, disk.names);
      ControlsTogether(original, p, was, disk.names);
      ok := ok && second;
    }

    /** Approval, marker and control files, in this order; an error does not stop
        the rest. */
    method RollBackAll() returns (ok: bool)
      requires Active()
      modifies disk
      ensures Guarded() && disk.faults >= old(disk.faults)
      ensures ok ==> RolledBack(original, p, disk.names)
      ensures ok <==> disk.faults == old(disk.faults) && Steady(original, p, old(disk.names))
      ensures Kept(original, disk.names) && ApprovalWhole(original, u, disk.names) && BoundaryShape(p, disk.names)
      ensures SameAt(old(disk.names), disk.names, Lock)
    {
      hide *;
      ActiveParts();
      ActiveGuarded();
      ghost var was := disk.names;
      ShapeBoundary(original, u, p, was);
      var approval := RollBackApproval();
      ghost var first := disk.names;
      AfterApproval(original, u, p, was, first);
      var metadata := RollBackMetadata();
      ghost var second := disk.names;
      AfterMetadata(original, u, p, first, second);
      ApprovalWholeStays(original, u, first, second);
      var controls := RollBackControls();
      AfterControls(original, u, p, second, disk.names);
      ControlsApproval(second, disk.names);
      ApprovalWholeStays(original, u, second, disk.names);
      LockOutside(was, first);
      LockOutside(second, disk.names);
      LockStaysTwice(was, first, second);
      LockStaysTwice(was, second, disk.names);
      AllTogether(original, p, was, disk.names);
      ok := approval && metadata && controls;
    }

    /** `rollback`: restores everything or says that it did not. */
    method Rollback() returns (ok: bool)
      requires Active()
      modifies disk
      ensures Guarded() && disk.faults >= old(disk.faults)
      ensures ok ==> RolledBack(original, p, disk.names)
      ensures ok <==> disk.faults == old(disk.faults) && Steady(original, p, old(disk.names))
      ensures Kept(original, disk.names) && ApprovalWhole(original, u, disk.names) && BoundaryShape(p, disk.names)
      ensures SameAt(old(disk.names), disk.names, Lock)
    {
      hide *;
      Unchanged(disk.names);
      ActiveParts();
      ActiveGuarded();
      ShapeKept(original, u, p, disk.names);
      ShapeWhole(original, u, p, disk.names);
      BoundaryThere(p, disk.names);
      ok := disk.Try();
      ok := ok && SameDirectory(disk.names, CommitDirectory, p.commitDirectory);
      if !ok { return; }
      ok := RollBackAll();
      var synced := disk.Try();
      ok := ok && synced;
    }

    // ------------------------------------------------------------------ endings

    /** `removeBackup`: checks the inventory twice and removes it.  The commit
        directory goes only when all is old or all is new. */
    method RemoveBackup(originals: bool) returns (ok: bool)
      requires Guarded() && (AllOld(original, disk.names) || AllNew(u, disk.names))
      modifies disk
      ensures disk.Valid() && Crashproof(original, u, disk.trace) && disk.faults >= old(disk.faults)
      ensures Swept(old(disk.names), disk.names, BackupRecords(original, p, originals))
      ensures ok <==> CommitDirectory !in disk.names
      ensures ok ==>
        && disk.faults == old(disk.faults)
        && Inventory(old(disk.names), p.commitDirectory, p.selectedDirectory, BackupRecords(original, p, originals))
      ensures !ok && disk.faults == old(disk.faults) && BoundaryShape(p, old(disk.names)) ==>
        Inside(old(disk.names), BackupRecords(original, p, originals)) ==>
        Visited(disk.names)
    {
      hide *;
      GuardedParts();
      ghost var was, next, before := disk.names, disk.next, disk.trace;
      var records := BackupRecords(original, p, originals);
      SweptNothing(was, records);
      if BoundaryShape(p, was) && Inside(was, records) && !Visited(was) {
        ExactInside(was, next, p, records);
      }
      NotExact(was, was, p.commitDirectory, p.selectedDirectory, records);
      ok := CheckControlBackup(disk, p.commitDirectory, p.selectedDirectory, records);
      if !ok { return; }
      ok := RemoveControlBackup(disk, p.commitDirectory, p.selectedDirectory, records);
      VisitStays(was, disk.names, records);
      SweptSettles(original, u, was, disk.names, records);
      disk.ValidParts();
      MarkedOrSettled(original, u, disk.names);
      CrashproofSettled(original, u, before, disk.trace);
    }

    /** `fail`: what is left is the old project, or it is marked and nothing that
        was there is lost. */
    method Fail() returns (clean: bool)
      requires Active()
      modifies disk
      ensures disk.Valid() && Crashproof(original, u, disk.trace) && disk.faults >= old(disk.faults)
      ensures clean <==> CommitDirectory !in disk.names
      ensures clean ==> AllOld(original, disk.names)
      ensures Kept(original, disk.names) && ApprovalWhole(original, u, disk.names) && SameAt(original, disk.names, Lock)
      ensures clean ==> Steady(original, p, old(disk.names))
      ensures disk.faults == old(disk.faults) && Steady(original, p, old(disk.names)) && !Visited(disk.names) ==> clean
    {
      hide *;
      ActiveParts();
      ghost var a := disk.names;
      clean := Rollback();
      LockStays(original, u, p, a);
      LockStaysTwice(original, a, disk.names);
      GuardedParts();
      if !clean { return; }
      ghost var was := disk.names;
      RolledBackOld(original, p, was);
      RolledBackInside(original, u, p, a, was);
      clean := RemoveBackup(false);
      LockOutside(was, disk.names);
      LockStaysTwice(original, was, disk.names);
      SweptSettles(original, u, was, disk.names, BackupRecords(original, p, false));
      OldKept(original, u, disk.names);
    }

    method BackUpCurrent() returns (ok: bool)
      requires Active() && Stage(original, p, 0) && MarkerSide(original, disk.names)
      modifies disk, this`p
      ensures Active() && disk.faults >= old(disk.faults)
      ensures ok ==> Stage(original, p, 1) && MarkerSide(original, disk.names)
      ensures p.published == {}
      ensures ok <==> disk.faults == old(disk.faults) && Typed(original)
      ensures !ok && disk.faults == old(disk.faults) ==> p == old(p)
    {
      hide *;
      ghost var was := disk.names;
      StageParts(original, p);
      SideParts(original, was);
      ok := BackUpMetadata();
      ghost var first := disk.names;
      SideStays(original, was, first);
      if !ok { return; }
      ok := BackUpControl(Mod);
      ghost var second := disk.names;
      SideStays(original, first, second);
      if !ok { return; }
      ok := BackUpControl(Sum);
      SideStays(original, second, disk.names);
      if ok {
        StageBackedUp(original, old(p), p);
      }
    }

    method PublishWorkspace() returns (ok: bool)
      requires Active() && Stage(original, p, 1) && MarkerSide(original, disk.names)
      modifies disk, this`p
      ensures Active() && disk.faults >= old(disk.faults)
      ensures ok ==> Stage(original, p, 2) && MarkerSide(original, disk.names) && Unstaged(p, disk.names)
      ensures ok <==> disk.faults == old(disk.faults)
    {
      hide *;
      ghost var was := disk.names;
      StageParts(original, p);
      ok := PublishControl(Mod);
      ghost var first := disk.names;
      SideStays(original, was, first);
      if !ok { return; }
      ok := PublishControl(Sum);
      SideStays(original, first, disk.names);
      if ok {
        StageLinked(original, old(p), p, first, disk.names);
      }
    }

    method PublishRest() returns (ok: bool)
      requires Active() && Stage(original, p, 2) && MarkerSide(original, disk.names) && Unstaged(p, disk.names)
      modifies disk, this`p
      ensures Active() && disk.faults >= old(disk.faults)
      ensures ok ==> Stage(original, p, 4) && MetadataTemp !in original && MetadataTemp !in disk.names
      ensures Unstaged(p, disk.names)
      ensures disk.faults == old(disk.faults) ==> (ok <==> Typed(original) && MetadataTemp !in original)
      ensures p.moved == old(p).moved && p.metadataMoved == old(p).metadataMoved
    {
      hide *;
      ghost var was := disk.names;
      StageParts(original, p);
      SideParts(original, was);
      ok := PublishMetadata();
      ghost var first, mid := disk.names, p;
      UnstagedStays(old(p), mid, was, first);
      if !ok { return; }
      StageMarked(original, old(p), mid);
      StageParts(original, mid);
      ok := PublishApproval();
      UnstagedAfter(mid, p, first, disk.names);
      TempStays(first, disk.names);
      if ok {
        StageApproved(original, mid, p);
      }
    }

    /** Everything up to the last sync before the backup goes. */
    method Advance() returns (ok: bool)
      requires Active() && Stage(original, p, 0) && MarkerSide(original, disk.names)
      modifies disk, this`p
      ensures Active() && disk.faults >= old(disk.faults)
      ensures ok ==>
        && Stage(original, p, 4) && Unstaged(p, disk.names) && Typed(original) && MetadataTemp !in original
        && MetadataTemp !in disk.names
      ensures disk.faults == old(disk.faults) ==>
        Unstaged(p, disk.names) && (if Typed(original) then MovedAll(original, p) else MovedNone(p))
      ensures disk.faults == old(disk.faults) ==> (ok <==> Typed(original) && MetadataTemp !in original)
    {
      hide *;
      NoneStaged(p, disk.names);
      StageParts(original, p);
      ActiveParts();
      StillOriginal(original, u, p, disk.names);
      ok := VerifyUnchanged();
      if !ok { return; }
      StageMoved(original, p);
      ok := BackUpCurrent();
      StageMoved(original, p);
      NoneStaged(p, disk.names);
      if !ok { return; }
      ok := PublishWorkspace();
      StageMoved(original, p);
      if !ok { return; }
      ghost var linked := p;
      ok := PublishRest();
      MovedSame(original, linked, p);
      if ok {
        ok := disk.Try();
      }
    }

    method VerifyUnchanged() returns (ok: bool)
      modifies disk`faults
      ensures disk.faults >= old(disk.faults)
      ensures ok <==>
        && disk.faults == old(disk.faults) && SameAt(original, disk.names, Project(Mod))
        && SameAt(original, disk.names, Project(Sum))
    {
      ok := disk.Try();
      ok := ok && At(disk.names, Project(Mod)) == At(original, Project(Mod)) &&
        At(disk.names, Project(Sum)) == At(original, Project(Sum));
    }

    /** `commit`: the new project, the old one, or a marked one in which nothing
        that was there is lost.  An error with the new project in place is an error
        of the last sync.  Without a fault or another writer it succeeds exactly
        when the ground is right and no original has another hard link; and the
        project stays marked exactly when one that could be moved away has. */
    method Commit() returns (ok: bool)
      requires Active() && Stage(original, p, 0) && MarkerSide(original, disk.names)
      modifies disk, this`p
      ensures disk.Valid() && Crashproof(original, u, disk.trace) && disk.faults >= old(disk.faults)
      ensures Concluded(original, u, disk.names, ok, disk.faults > old(disk.faults))
      ensures ok ==> Sound(original) && Sound(disk.names)
      ensures SameAt(original, disk.names, Lock)
      ensures disk.faults == old(disk.faults) && !Visited(disk.names) ==> (ok <==> Sound(original))
      ensures disk.faults == old(disk.faults) && !Visited(disk.names) ==>
        (CommitDirectory in disk.names <==> Typed(original) && !Unshared(original))
    {
      hide *;
      SoundParts(original);
      ghost var faults := disk.faults;
      ok := Advance();
      ActiveParts();
      ghost var was := disk.names;
      if Unstaged(p, was) {
        SteadyExactly(original, u, p, was);
      }
      if !ok {
        var clean := Fail();
        ConcludedOld(original, u, disk.names);
        return;
      }
      LockStays(original, u, p, was);
      StageNew(original, u, p, was);
      StageSound(original, u, p, was, disk.next);
      ActiveGuarded();
      if Unshared(original) {
        RecordsInside(original, u, p, was);
      }
      ok := RemoveBackup(true);
      LockOutside(was, disk.names);
      LockStaysTwice(original, was, disk.names);
      NewStays(original, u, p, was, disk.names);
      if ok {
        InventoryUnshared(original, u, p, was);
        SoundStays(was, disk.names, BackupRecords(original, p, true));
        ok := disk.Try();
      }
      ConcludedNew(original, u, disk.names, ok, disk.faults > faults);
    }
  }

  /** How a commit ends. */
  ghost predicate Concluded(o: Names, u: Update, names: Names, ok: bool, faulty: bool) {
    && (ok ==> CommitDirectory !in names && AllNew(u, names))
    && (!ok && CommitDirectory !in names ==> AllOld(o, names) || (AllNew(u, names) && faulty))
    && (CommitDirectory in names ==> (Kept(o, names) && ApprovalWhole(o, u, names)) || AllNew(u, names))
  }

  lemma ConcludedOld(o: Names, u: Update, names: Names)
    requires Kept(o, names) && ApprovalWhole(o, u, names) && (CommitDirectory !in names ==> AllOld(o, names))
    ensures forall faulty :: Concluded(o, u, names, false, faulty)
  {
  }

  lemma NewStays(o: Names, u: Update, p: Progress, a: Names, b: Names)
    requires AllNew(u, a) && Swept(a, b, BackupRecords(o, p, true))
    ensures AllNew(u, b)
  {
    SweptSettles(o, u, a, b, BackupRecords(o, p, true));
  }

  lemma ConcludedNew(o: Names, u: Update, names: Names, ok: bool, faulty: bool)
    requires AllNew(u, names) && (ok ==> CommitDirectory !in names) && (!ok && CommitDirectory !in names ==> faulty)
    ensures Concluded(o, u, names, ok, faulty)
  {
  }

  lemma AtSame(a: Names, b: Names, n: Name)
    requires At(a, n) == At(b, n)
    ensures (n in a <==> n in b) && (n in a ==> a[n] == b[n])
  {
  }

  lemma TypedNow(o: Names, names: Names)
    requires At(names, Metadata) == At(o, Metadata) && SameAt(o, names, MetadataDirectory)
    ensures Typed(o) <==>
      && (MetadataDirectory in names ==> names[MetadataDirectory].Directory?)
      && (Metadata in names ==> FileAt(names, Metadata))
  {
  }

  lemma PlacedAtTop(names: Names)
    ensures Placed(names, MetadataDirectory)
  {
  }

  lemma PlacedBelow(names: Names)
    requires MetadataDirectory in names && names[MetadataDirectory].Directory?
    ensures Placed(names, Metadata) && Placed(names, MetadataTemp)
    ensures At(names, MetadataDirectory) == Some(names[MetadataDirectory])
  {
  }

  lemma RecordThere(names: Names, made: Object, u: Update, before: Option<Object>)
    requires Made(Some(made), MarkerOf(u), before) && At(names, MetadataTemp) == Some(made)
    ensures MetadataTemp in names && FileAt(names, MetadataTemp) && names[MetadataTemp] == made
  {
  }

  lemma StillPlaced(a: Names, b: Names)
    requires Placed(a, Metadata) && forall n :: n != MetadataTemp ==> SameAt(a, b, n)
    ensures Placed(b, Metadata) && At(a, MetadataDirectory) == At(b, MetadataDirectory)
  {
    assert SameAt(a, b, MetadataDirectory);
  }

  lemma RecordGone(a: Names, b: Names, c: Names, d: Names)
    requires forall n :: n != MetadataTemp ==> SameAt(a, b, n)
    requires (forall n :: n != Metadata && n != MetadataTemp ==> SameAt(b, c, n))
    requires forall n :: n != MetadataTemp ==> SameAt(c, d, n)
    ensures forall n :: n != Metadata && n != MetadataTemp ==> SameAt(a, d, n)
  {
    forall n | n != Metadata && n != MetadataTemp ensures SameAt(a, d, n) {
      assert SameAt(a, b, n) && SameAt(b, c, n) && SameAt(c, d, n);
    }
  }

  lemma TempSame(o: Names, a: Names, b: Names)
    requires SameAt(o, a, MetadataTemp) && forall n :: n != MetadataDirectory ==> SameAt(a, b, n)
    ensures MetadataTemp in b <==> MetadataTemp in o
  {
    assert SameAt(a, b, MetadataTemp);
  }

  lemma MetadataOnly(a: Names, b: Names, c: Names)
    requires (forall n :: n != MetadataDirectory ==> SameAt(a, b, n))
    requires forall n :: n != Metadata && n != MetadataTemp ==> SameAt(b, c, n)
    ensures forall n :: n != Metadata && n != MetadataTemp && n != MetadataDirectory ==> SameAt(a, c, n)
  {
    forall n | n != Metadata && n != MetadataTemp && n != MetadataDirectory ensures SameAt(a, c, n) {
      assert SameAt(a, b, n) && SameAt(b, c, n);
    }
  }

  lemma PlaceableRecord(o: Names, names: Names, n: Name)
    requires n.ApprovalTemp? && FileAt(names, n) && Replaceable(o, names)
    ensures Kin(n, Approval) && Placed(names, Approval) && n in names
    ensures Approval !in o ==> Approval !in names
    ensures Approval in names ==> FileAt(names, Approval)
  {
  }

  lemma RecordPlaced(a: Names, b: Names, n: Name, content: Content, ok: bool)
    requires n.ApprovalTemp? && FileAt(a, n) && a[n].content == content
    requires b == if ok then if n in b then a[Approval := a[n]] else (a - {n})[Approval := a[n]] else a
    ensures ok ==> Holds(b, Approval, content)
    ensures !ok ==> SameAt(a, b, Approval)
    ensures n in b ==> FileAt(b, n)
    ensures forall m :: m != n && m != Approval ==> SameAt(a, b, m)
  {
  }

  lemma RecordWritten(o: Names, a: Names, b: Names, n: Name, made: Object)
    requires Replaceable(o, a) && n.ApprovalTemp? && made.File? && b == a[n := made]
    ensures Replaceable(o, b) && FileAt(b, n) && b[n] == made
  {
  }

  lemma ApprovalSettled(a: Names, b: Names, c: Names, d: Names, published: bool, content: Content)
    requires SameAt(a, b, Approval) && SameAt(c, d, Approval)
    requires if published then Holds(c, Approval, content) else SameAt(b, c, Approval)
    ensures if published then Holds(d, Approval, content) else SameAt(a, d, Approval)
  {
  }

  lemma StateWritten(a: Names, b: Names, c: Names, d: Names, n: Name, published: bool, content: Content)
    requires n.ApprovalTemp?
    requires (forall m :: m != n ==> SameAt(a, b, m)) && (forall m :: m != n && m != Approval ==> SameAt(b, c, m))
    requires forall m :: m != n ==> SameAt(c, d, m)
    requires if published then Holds(c, Approval, content) else SameAt(b, c, Approval)
    ensures if published then Holds(d, Approval, content) else SameAt(a, d, Approval)
    ensures ApprovalOnly(a, d)
  {
    ApprovalSettled(a, b, c, d, published, content);
    ApprovalOnlyOne(a, b, n);
    ApprovalOnlyTwo(b, c, n);
    ApprovalOnlyOne(c, d, n);
    ApprovalOnlyTwice(a, b, c);
    ApprovalOnlyTwice(a, c, d);
  }

  lemma ApprovalThere(o: Names, u: Update, p: Progress, names: Names)
    requires Shape(o, u, p, names) && !p.approvalPublished
    ensures At(names, Approval) == At(o, Approval) && Replaceable(o, names)
  {
  }

  lemma ApprovalStep(o: Names, u: Update, p: Progress, published: bool, a: Names, b: Names)
    requires Shape(o, u, p, a) && !p.approvalPublished && ApprovalOnly(a, b)
    requires if published then Holds(b, Approval, ApprovalOf(u)) else SameAt(a, b, Approval)
    ensures Shape(o, u, p.(approvalPublished := published), b)
  {
    StepApproval(o, u, p, published, a, b);
  }

  lemma KeptAside(o: Names, names: Names, from: Name, to: Name)
    requires At(names, from) == At(o, to)
    ensures KeptAt(o, names, to, from)
  {
  }

  lemma LinkedBack(o: Names, a: Names, b: Names, from: Name, to: Name)
    requires FileAt(a, from) && At(a, from) == At(o, to) && At(b, to) == At(a, from)
    requires forall m :: m != to ==> SameAt(a, b, m)
    requires from != to
    ensures SameAt(o, b, to) && from in b && b[from].File?
  {
    assert SameAt(a, b, from);
  }

  lemma KeptBack(o: Names, a: Names, b: Names, from: Name, to: Name)
    requires SameAt(o, a, to) && (forall m :: m != from ==> SameAt(a, b, m)) && from != to
    ensures SameAt(o, b, to) && KeptAt(o, b, to, from)
  {
    assert SameAt(a, b, to);
  }

  lemma KeptShape(o: Names, u: Update, p: Progress, names: Names, c: Control)
    requires ControlShape(o, u, p, names, c)
    ensures KeptAt(o, names, Project(c), Moved(c))
  {
  }

  lemma Steadied(o: Names, p: Progress, names: Names, c: Control)
    requires c in p.moved ==>
      FileAt(names, Moved(c)) && Alone(names, Moved(c)) && At(names, Moved(c)) == At(o, Project(c))
    ensures SteadyControl(o, p, names, c) <==>
      (c in p.published ==> Selected(c) !in names) && (c in p.moved ==> SingleLink(names, Moved(c)))
  {
  }

  lemma SingleStill(a: Names, b: Names, n: Name, gone: Name)
    requires FileAt(a, n) && Alone(a, n) && n != gone && (b == a || b == a - {gone})
    ensures SingleLink(a, n) <==> SingleLink(b, n)
  {
  }

  lemma ControlRolledBack(o: Names, u: Update, p: Progress, a: Names, b: Names, d: Names, c: Control, ok: bool)
    requires ControlShape(o, u, p, a, c)
    requires b == a || (c in p.published && b == a - {Project(c)})
    requires c in p.moved ==> forall n :: n != Project(c) && n != Moved(c) ==> SameAt(b, d, n)
    requires c !in p.moved ==> d == b
    requires ok && c in p.moved ==> SameAt(o, d, Project(c)) && Moved(c) !in d
    requires ok && c in p.published ==> Selected(c) !in a && b == a - {Project(c)}
    requires KeptAt(o, a, Project(c), Moved(c)) && (c in p.moved ==> KeptAt(o, d, Project(c), Moved(c)))
    ensures ok ==> Restored(o, p, d, c)
    ensures KeptAt(o, d, Project(c), Moved(c))
    ensures forall n :: n != Project(c) && n != Moved(c) ==> SameAt(a, d, n)
  {
    forall n | n != Project(c) && n != Moved(c) ensures SameAt(a, d, n) {
      assert c in p.moved ==> SameAt(b, d, n);
    }
    assert SameAt(a, d, Selected(c));
  }

  lemma PlacedStill(a: Names, b: Names)
    requires Placed(a, Metadata) && (b == a || b == a - {Metadata})
    ensures Placed(b, Metadata)
  {
  }

  lemma MetadataRolledBack(o: Names, u: Update, p: Progress, a: Names, b: Names, d: Names, ok: bool)
    requires MetadataShape(o, u, p, a)
    requires b == a || (p.metadataPublished && b == a - {Metadata})
    requires p.metadataMoved ==> forall n :: n != Metadata && n != MovedMetadata ==> SameAt(b, d, n)
    requires !p.metadataMoved ==> d == b
    requires ok && p.metadataMoved ==> SameAt(o, d, Metadata) && MovedMetadata !in d
    requires ok && p.metadataPublished ==> b == a - {Metadata}
    requires KeptAt(o, a, Metadata, MovedMetadata) && (p.metadataMoved ==> KeptAt(o, d, Metadata, MovedMetadata))
    ensures ok ==> SameAt(o, d, Metadata) && MovedMetadata !in d
    ensures KeptAt(o, d, Metadata, MovedMetadata)
    ensures forall n :: n != Metadata && n != MovedMetadata ==> SameAt(a, d, n)
  {
    forall n | n != Metadata && n != MovedMetadata ensures SameAt(a, d, n) {
      assert p.metadataMoved ==> SameAt(b, d, n);
    }
  }

  lemma ApprovalRolls(o: Names, u: Update, p: Progress, names: Names)
    requires ApprovalShape(o, u, p, names)
    ensures !p.approvalPublished ==> ApprovalOld(o, names)
    ensures p.approvalPublished ==> FileAt(names, Approval) && names[Approval].content == ApprovalOf(u)
    ensures Approval in o && p.approvalPublished ==> Replaceable(o, names)
    ensures Approval in o ==> o[Approval].File?
    ensures ApprovalWhole(o, u, names)
  {
  }

  lemma ApprovalGone(o: Names, u: Update, names: Names)
    requires Approval !in o && Approval !in names
    ensures ApprovalOld(o, names) && ApprovalWhole(o, u, names)
  {
  }

  lemma ApprovalBack(o: Names, u: Update, names: Names)
    requires Approval in o && o[Approval].File? && Holds(names, Approval, o[Approval].content)
    ensures ApprovalOld(o, names) && ApprovalWhole(o, u, names)
  {
  }

  lemma BoundaryThere(p: Progress, names: Names)
    requires BoundaryShape(p, names)
    ensures SameDirectory(names, CommitDirectory, p.commitDirectory)
  {
  }

  lemma VisitStays(a: Names, b: Names, records: Names)
    requires Swept(a, b, records)
    ensures Visited(a) ==> Visited(b)
  {
    if n :| n in a && n.Foreign? {
      assert n in b;
    }
  }

  lemma RolledBackInside(o: Names, u: Update, p: Progress, a: Names, names: Names)
    requires Shape(o, u, p, a) && RolledBack(o, p, names)
    ensures Inside(names, BackupRecords(o, p, false)) && BoundaryShape(p, names)
  {
    RestoredInside(o, u, p, a, names);
  }

  lemma SideParts(o: Names, names: Names)
    requires MarkerSide(o, names)
    ensures SameAt(o, names, MetadataDirectory) && SameAt(o, names, MetadataTemp)
  {
  }

  lemma StageBackedUp(o: Names, p: Progress, q: Progress)
    requires Stage(o, p, 0)
    requires q == p.(moved := q.moved, metadataMoved := Metadata in o, originalMetadata := q.originalMetadata)
    requires q.moved == (if Project(Mod) in o then {Mod} else {}) + (if Project(Sum) in o then {Sum} else {})
    ensures Stage(o, q, 1)
  {
  }

  lemma StageLinked(o: Names, p: Progress, q: Progress, a: Names, b: Names)
    requires Stage(o, p, 1) && q == p.(published := {Mod, Sum})
    requires Selected(Mod) !in a && Selected(Sum) !in b && SameAt(a, b, Selected(Mod))
    ensures Stage(o, q, 2) && Unstaged(q, b)
  {
  }

  lemma UnstagedStays(p: Progress, q: Progress, a: Names, b: Names)
    requires Unstaged(p, a) && q.published == p.published
    requires forall n :: n != Metadata && n != MetadataTemp && n != MetadataDirectory ==> SameAt(a, b, n)
    ensures Unstaged(q, b)
  {
    forall c | c in q.published ensures Selected(c) !in b {
      assert SameAt(a, b, Selected(c));
    }
  }

  lemma UnstagedAfter(p: Progress, q: Progress, a: Names, b: Names)
    requires Unstaged(p, a) && q.published == p.published && ApprovalOnly(a, b)
    ensures Unstaged(q, b)
  {
    forall c | c in q.published ensures Selected(c) !in b {
      assert SameAt(a, b, Selected(c));
    }
  }

  lemma StageMarked(o: Names, p: Progress, q: Progress)
    requires Stage(o, p, 2)
    requires q == p.(metadataPublished := true, metadataInfo := q.metadataInfo,
      metadataDirectory := q.metadataDirectory)
    ensures Stage(o, q, 3)
  {
  }

  lemma StageApproved(o: Names, p: Progress, q: Progress)
    requires Stage(o, p, 3) && q == p.(approvalPublished := true)
    ensures Stage(o, q, 4)
  {
  }

  lemma MarkerOlder(o: Names, u: Update, p: Progress, names: Names, next: nat)
    requires Shape(o, u, p, names) && WellFormed(names, next) && (p.metadataMoved || Metadata !in o)
    ensures Metadata in o ==> o[Metadata].inode < next
  {
    if Metadata in o {
      assert MovedMetadata in names;
    }
  }

  lemma StillOriginal(o: Names, u: Update, p: Progress, names: Names)
    requires Shape(o, u, p, names) && p.moved == {} && p.published == {}
    ensures SameAt(o, names, Project(Mod)) && SameAt(o, names, Project(Sum))
  {
  }

  lemma TempStays(a: Names, b: Names)
    requires ApprovalOnly(a, b) && MetadataTemp !in a
    ensures MetadataTemp !in b
  {
    assert SameAt(a, b, MetadataTemp);
  }

  lemma ControlsApproval(a: Names, b: Names)
    requires ControlsOnly(a, b)
    ensures SameAt(a, b, Approval)
  {
  }

  lemma ShapeWhole(o: Names, u: Update, p: Progress, names: Names)
    requires Shape(o, u, p, names)
    ensures ApprovalWhole(o, u, names)
  {
  }

  lemma OpeningNames(o: Names, names: Names, commit: Object)
    requires Bare(o) && names == o[CommitDirectory := commit] && commit.Directory?
    ensures InsideOnly(o, names)
    ensures SelectedDirectory !in names && Placed(names, SelectedDirectory)
    ensures Empty(names, CommitDirectory) && CommitDirectory in names && names[CommitDirectory] == commit
  {
  }

  lemma InsideOnlyNames()
    ensures InCommit(CommitDirectory) && InCommit(SelectedDirectory) && InCommit(Selected(Mod))
    ensures InCommit(Selected(Sum))
  {
  }

  lemma AtTop(o: Names)
    ensures Placed(o, CommitDirectory) && InsideOnly(o, o)
  {
  }

  lemma UnchangedFrom(o: Names)
    ensures SameAt(o, o, Project(Mod)) && SameAt(o, o, Project(Sum))
  {
  }

  lemma ThereNow(a: Names, b: Names, from: Name, to: Name)
    requires from in a && b == (a - {from})[to := a[from]]
    ensures At(b, to) == At(a, from)
  {
  }

  lemma FileFound(names: Names, n: Name)
    ensures FileAt(names, n) ==> n in names && At(names, n) == Some(names[n])
  {
  }

  lemma FoundAt(names: Names, n: Name)
    requires n in names
    ensures At(names, n) == Some(names[n])
  {
  }

  lemma FoundThere(names: Names, n: Name, made: Object)
    requires At(names, n) == Some(made)
    ensures n in names
  {
  }

  lemma OldSettled(original: Names, u: Update, names: Names)
    requires AllOld(original, names)
    ensures Settled(original, u, names)
  {
  }

  lemma MarkedOrSettled(original: Names, u: Update, names: Names)
    requires CommitDirectory in names || AllOld(original, names) || AllNew(u, names)
    ensures Settled(original, u, names)
  {
  }

  lemma NoneStaged(p: Progress, names: Names)
    ensures p.published == {} ==> Unstaged(p, names)
  {
  }

  lemma ControlsTogether(o: Names, p: Progress, a: Names, b: Names)
    ensures RestoredControls(o, p, b) <==> Restored(o, p, b, Mod) && Restored(o, p, b, Sum)
    ensures SteadyControls(o, p, a) <==> SteadyControl(o, p, a, Mod) && SteadyControl(o, p, a, Sum)
    ensures KeptControls(o, b) <==> KeptAt(o, b, Project(Mod), Moved(Mod)) && KeptAt(o, b, Project(Sum), Moved(Sum))
  {
  }

  lemma AllTogether(o: Names, p: Progress, a: Names, b: Names)
    ensures RestoredControls(o, p, b) && SameAt(o, b, Metadata) && MovedMetadata !in b && ApprovalOld(o, b) &&
      BoundaryShape(p, b)
      ==> RolledBack(o, p, b)
    ensures Steady(o, p, a) <==> SteadyControls(o, p, a) && SteadyMetadata(o, p)
    ensures KeptControls(o, b) && KeptAt(o, b, Metadata, MovedMetadata) ==> Kept(o, b)
  {
  }

  lemma SoundParts(o: Names)
    ensures Sound(o) <==> Typed(o) && MetadataTemp !in o && Unshared(o)
  {
  }
}
