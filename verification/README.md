# Heliopause promotion, verified

Heliopause takes packages that were built and approved in private and promotes them into
live projects. This project models the hand-written transactions that do so, the resource
engine that meters the observed builds, and the self-contained scanners around them, and
proves what they keep over every input, every schedule of host errors and every run.

## What is modelled

**A virtual environment** (`FileSystem`, `Records`, `Ownership`, `Frames`, `Geometry`,
`Layout`, the `Venv*` modules). The disk maps paths to inodes with content, mode and link
count. Every primitive takes full effect or none and may fail at any time; `Disk.faults`
counts the failures, `Tally.slips` those that strike between an effect and its record, and
`Tally.checkpoints` those of the checkpoints on the way forward. A crash is the schedule in which every primitive after it fails. `VenvTransaction`
is the transaction object with its fields, its append-only ledger, backup, publication,
metadata, rollback and cleanup; `VenvState` to `VenvConclude` are what each step keeps.
`VenvSession` is begin, commit and close; `VenvRuns` is any number of sessions, each with
its update and its faults. `VenvTables` and `VenvPromotion` join the transaction to the
RECORD validation that feeds it; `VenvMeaning` says what the promises mean path by path.

**A Go project** (`GoDisk`, `ControlBackup`, `GoLayout`, `GoTransaction`, `GoApproval`,
`GoRuns`). Control files, project marker and a retained approval in a second root change
together. The disk keeps a trace of all its states, so a crash may happen in any of them,
and another writer may add names to the commit directory at any moment of its removal.

**The npm member** (`NpmMember`): exact snapshots of a tree and its ordered removal.

**RECORD files** (`InstalledRecords`, `RecordMerge`, `Sorting`): PEP 376, section "RECORD",
as the promotion resolves and merges it.

**The observation engine** (`ObservationSteps`, `ObservationEngine`, `ObservationRuns`,
`ObservationLaws`): one step for each region under the mutex, all interleavings of all
requests, and who gets what.

**Scanners** (`Starlark`, `StarlarkCalls`, `StarlarkPieces`, `CargoOutput`): the comment stripper and call
extractor of the lock generator, and the filter of Cargo build archives.

## What the proofs found

The code is modelled as it is; where a promise fails, the condition under which it holds
is stated exactly.

- `commit`, taken alone, accepts an update with one destination below another (`site/a` and
  `site/a/b`), publishes the file, cannot make the directory, and its rollback refuses because
  a frozen absent directory has appeared: recovery without a fault. Of plain destinations
  these updates are exactly the ones that do. RECORD validation, the only source of updates,
  keeps them out: both sources would have to be there, one below the other. So a promotion
  without a fault never ends in recovery and never leaves the environment locked.
- `bind` is not injective on (scheme, relative): leading parent pieces reach the same final
  path. RECORD entries never have them, and for those relocation is injective.
- A fault between an effect and its record ends in recovery. There are five such places:
  freezing the backup directory just made, the first stat of the ledger, `Lstat` after
  `mkdir`, a failed write of `next-metadata`, and what lies between that write and its
  snapshot. No other single fault does, unless the new state is already in place; one at a
  checkpoint is always rolled back.
- A rolled-back PyPI update has put back every managed file but not the private sources it
  had used up. `begin` leaves the lock behind when the first stat, sync or close of it fails.
- A Go control file or marker with a hard link from elsewhere is accepted by `Begin`; the
  update then always ends with the commit directory in place.
- A Go rollback refuses when the fault struck between linking a selected file and removing
  its staged name. A leftover private marker record makes every later update fail.
- Overlapping reads fail a healthy observation session exactly when one is overtaken. The
  first lease may exceed the ceiling, and then it is the last one.

## Model

| member | source | states |
|---|---|---|
| VenvTransaction.Transaction.Commit | internal/promotion/pypi_venv_transaction.go:757-1042 | for every fault schedule: success with exactly the new files and table and no backup left, or failure with the old names back but for used-up sources, or recovery with the lock held and either the new state in place or every file of the old table, and its metadata, at its path or under a number of its own in the backup; without a fault an untangled update never ends in recovery, nor with one fault at a checkpoint, and with one fault that is no slip only when the new state is in place; without a fault it succeeds exactly when the update is acceptable and untangled, and plain tangled ones always end in recovery |
| VenvTransaction.Transaction.Begin | internal/promotion/pypi_venv_transaction.go:326-381 | without a fault it begins exactly when the environment is unlocked and startable; when it refuses, nothing changes but possibly the lock, which stays only after a fault |
| VenvTransaction.Transaction.Prepare | internal/promotion/pypi_venv_transaction.go:535-599 | without a fault it accepts exactly the acceptable updates, and the desired table and obsolete files are those of the ownership rules |
| VenvTransaction.Transaction.Rollback | internal/promotion/pypi_venv_transaction.go:980-1042 | it succeeds exactly without a fault and with every identity check passing, and then everything is undone |
| VenvTransaction.Transaction.RemoveBackup | internal/promotion/pypi_venv_backup.go:15-78 | cleanup removes only recorded members and the backup directory; success leaves nothing of it; without a fault a steady one fails only when something unrecorded is there |
| VenvTransaction.Transaction.Reconcile | internal/promotion/pypi_venv_transaction.go:913-963 | the final reconciliation decides whether table, outputs, metadata, obsolete and retained files are as wanted |
| VenvSession.Update | internal/promotion/pypi_venv_transaction.go:326-388 | begin, commit and close over any update make one step of a run; done means that the update is on the disk and nothing else changed, refused and failed that nothing changed, unless giving the lock back failed after the commit, and recovery that nothing managed is lost; without a fault an untangled update neither ends in recovery nor keeps the lock, a session that has begun is done exactly when the update is acceptable and untangled, and of plain updates the acceptable tangled ones are exactly those that end in recovery; one fault at a checkpoint makes an untangled update fail with nothing changed and no lock left |
| VenvPromotion.Promote | internal/promotion/pypi_promotion.go:134-176 | a whole promotion, from begin over the validation of RECORD files to close: its outcomes mean what those of a session mean, for the table of the installation; done, every line of every RECORD file is a file with the bytes of the line in `lib/python3.14/site-packages`, `bin`, `share` or `include`, as its text says, and the table of version 2 in `.heliopause/pypi-transaction.json` has it under its key for its distribution; without a fault it never ends in recovery, never keeps the lock, and once begun is done exactly when the installation is promotable and its table acceptable; one fault at a checkpoint only makes it fail with nothing changed; one fault that is no slip leads to recovery only with the new state in place |
| VenvPromotion.SmallInstallation | internal/promotion/pypi_promotion.go:317-371 | an installation of one distribution with one file is promotable, and its table is one of a promotion |
| VenvMeaning.StartableExactly | internal/promotion/pypi_venv_transaction.go:326-381 | the directories, the configuration, the absence of earlier backup directories and the table of true records that a begin asks for, path by path |
| VenvMeaning.AcceptableExactly | internal/promotion/pypi_venv_transaction.go:535-599 | which updates are accepted: every file in its private place with its bytes, with valid owners and a free or managed final path below directories; different final paths; one version for each distribution; and every old record either left alone or wholly for distributions of the update |
| VenvMeaning.RenewedExactly | internal/promotion/pypi_venv_transaction.go:801-963 | what a committed update leaves: its records and files, every record of other distributions as it was, all with their bytes on disk, nothing else in the table, and no file of an obsolete record |
| VenvMeaning.SalvageableExactly | internal/promotion/pypi_venv_transaction.go:801-858 | after a recovery that has not put the new state in place, every recorded file is at its path or is `file-<n>` of one `.heliopause-pypi-commit-` directory, and so is the table, as `metadata` |
| VenvMeaning.PathIdentityExactly | internal/promotion/pypi_venv_transaction.go:460-488 | what is checked before a path is worked on: lock, configuration, the six roots and every directory above |
| VenvMeaning.InventoryExactly | internal/promotion/pypi_venv_backup.go:31-56 | the inventory holds exactly when the directory has the recorded files, the ledger with its entries, and nothing else |
| VenvTables.PromotedTable | internal/promotion/pypi_promotion.go:314-371 | every table that RECORD validation gives has private sources, each used once, and plain destinations, and where it is acceptable no destination lies below another |
| VenvTables.SourcesNest | internal/promotion/pypi_promotion.go:492-549 | of two RECORD entries one has a final path below that of the other only if its source is below the other's |
| VenvTables.PromotionsStayOpen | internal/promotion/pypi_promotion.go:134-176 | no self-lockout: after any run of fault-free promotions the environment is unlocked and the next one can begin |
| VenvSession.TangledSession | internal/promotion/pypi_venv_transaction.go:833-850 | a concrete environment and a plain update with `a` and `a/b` that `commit` by itself would accept and end in recovery without a fault |
| VenvRuns.RunsStayWholesome | internal/promotion/pypi_venv_transaction.go:225-265 | at any moment of a run the table describes the files and the next update can begin, or the environment is locked and one of the sessions so far took the lock and kept it: that session met a fault or committed an acceptable update with a destination below another, and it has lost nothing managed |
| VenvRuns.CalmRunsStayOpen | internal/promotion/pypi_venv_transaction.go:382-388 | runs of fault-free untangled updates, whatever they come from, are never locked and always ready for the next |
| VenvRuns.CommittedWholesome | internal/promotion/pypi_venv_transaction.go:885-963 | metadata written by a commit is accepted by the next begin on the disk the commit leaves |
| VenvRuns.AgreeWholesome | internal/promotion/pypi_venv_transaction.go:326-381 | whether an update can begin depends only on what promotion looks at |
| VenvConclude.AlwaysConserved | internal/promotion/pypi_venv_transaction.go:801-858 | at every step each managed original is in one place, with its inode: at its final path, or under its own index in the backup; no other index is used, and what is at the path of one moved away the transaction has put there |
| VenvConclude.SweepDecided | internal/promotion/pypi_venv_backup.go:15-78 | after a rollback the inventory check passes exactly when everything in the backup directory was recorded |
| VenvSweep.CountedInventory | internal/promotion/pypi_venv_backup.go:31-56 | as many entries as records, each known, means that the directory holds exactly the records |
| VenvUndo.KnottedUnsteady | internal/promotion/pypi_venv_transaction.go:414-433 | a published file where a directory is planned fails every identity check, so rollback refuses |
| VenvUndo.AllRestored | internal/promotion/pypi_venv_transaction.go:1035-1041 | with everything undone the old table describes the disk and every path is as before |
| VenvResult.TangledExample | internal/promotion/pypi_venv_transaction.go:833-850 | `site/a` with `site/a/b` is a plain update that is tangled |
| VenvResult.UpperComesFirst | internal/promotion/pypi_venv_transaction.go:808 | of two plain destinations the upper one has the smaller key, so it is published first |
| VenvResult.UpdateDoable | internal/promotion/pypi_venv_transaction.go:801-859 | nothing but a destination below another stands in the way of an acceptable plain update |
| VenvResult.UpdateFeasible | internal/promotion/pypi_venv_transaction.go:535-599 | an acceptable untangled update can be carried out and leaves replaced, obsolete and retained files apart |
| VenvResult.InjectiveAfter | internal/promotion/pypi_venv_transaction.go:535-599 | updates keep the files of the table at distinct final paths |
| Ownership.UpdatePartition | internal/promotion/pypi_venv_transaction.go:562-598 | every old file is exactly one of replaced, obsolete or retained, and nothing else is in the new table than the new and the retained files |
| Ownership.UpdatedOwnership | internal/promotion/pypi_venv_transaction.go:535-599 | afterwards the files of each updated distribution are exactly the new ones |
| Ownership.OtherOwnership | internal/promotion/pypi_venv_transaction.go:535-599 | a distribution that is not named keeps its files and their records |
| Ownership.UpdateKeepsOneVersion | internal/promotion/pypi_venv_transaction.go:535-599 | one version for each distribution survives every update |
| Ownership.FinalInScheme | internal/promotion/pypi_venv_transaction.go:124-147 | a final path lies below the root of its scheme, and the schemes share none |
| Ownership.PlainBindingInjective | internal/promotion/pypi_venv_transaction.go:124-147 | without parent pieces binding keeps the relative path and is injective |
| Ownership.BindingTwin | internal/promotion/pypi_venv_transaction.go:124-147 | every bound identity has the final path of its plain twin and equals that twin exactly when it is plain itself; being plain does not keep others away from the path |
| Ownership.ParentPiecesCollide | internal/promotion/pypi_venv_transaction.go:124-147 | `scripts/../bin/x` and `scripts/x` bind to one final path |
| Ownership.FinalExactly | internal/promotion/pypi_venv_transaction.go:124-147 | which identities bind and where: safe characters, and parents before plain pieces that lead back below the scheme |
| Ownership.ValidOwnersExactly | internal/promotion/pypi_venv_transaction.go:53-70 | one owner, or 2 to 64 of a file of `site`, complete and in the order of their names |
| GoTransaction.Transaction.Begin | internal/promotion/go_transaction.go:227-266 | it begins exactly without a fault; whenever it is stopped nothing outside the commit directory has changed |
| GoTransaction.Transaction.Commit | internal/promotion/go_transaction.go:329-366 | every state it passes through is all old, all new or marked by the commit directory; without a fault or another writer it succeeds exactly on sound ground, and ends marked exactly when an original that could be moved has another hard link |
| GoTransaction.Transaction.Rollback | internal/promotion/go_transaction.go:473-530 | from every reachable combination of flags: it succeeds exactly without a fault and on a steady disk, and nothing that was there is ever lost |
| GoTransaction.Transaction.RemoveBackup | internal/promotion/control_transaction_backup.go:105-133 | the backup goes only from a project that is all old or all new, and only when its inventory is exact |
| GoTransaction.Transaction.Fail | internal/promotion/go_transaction.go:357-366 | either clean with the old project back, or marked with every original kept |
| GoLayout.SteadyExactly | internal/promotion/go_transaction.go:473-530 | once all originals are away rollback depends on nothing but whether they have other hard links |
| ControlBackup.CheckControlBackup | internal/promotion/control_transaction_backup.go:19-74 | the counted inventory check passes exactly when the directory holds its records |
| ControlBackup.DirectoryExactly | internal/promotion/control_transaction_backup.go:19-74 | the inventory of one directory, name by name: the directory that was made, every record in it, and only recorded files, each without a second name |
| ControlBackup.RemoveControlBackup | internal/promotion/control_transaction_backup.go:76-103 | only recorded members go, in any order; a name another writer adds at any moment survives and makes it fail; it succeeds exactly when the commit directory is gone; without a fault only another writer or an inexact inventory stops it |
| GoApproval.Guard.Begin | internal/promotion/go_approved_transaction.go:52-169 | without a fault the guard is given exactly when the project is unlocked, unmarked and its retained approval fits, or there is none and it has no dependencies; whenever it is given, an approval there holds the very contents of both control files, and without one `go.mod` is free of dependencies and `go.sum` empty or absent |
| GoApproval.AcceptedExactly | internal/promotion/go_approved_transaction.go:95-139 | which projects are accepted, name by name |
| GoApproval.Guard.Commit | internal/promotion/go_approved_transaction.go:246-337 | one update of the frozen project, with the contract of the transaction |
| GoRuns.Session | internal/promotion/go_approved_transaction.go:52-385 | wherever a session is stopped the project is settled; without a fault or another writer it is done exactly when the project was ready, which it then is again; done, control files, marker and approval hold what the update says, and no lock, mark or marker record is left; a project with dependencies that nobody approved is refused |
| GoRuns.RunsStayCoherent | internal/promotion/go_approved_transaction.go:116-169 | over any run of sessions, each stopped anywhere, the approval fits the control files or the project is marked |
| GoRuns.UnapprovedStays | internal/promotion/go_approved_transaction.go:99-103 | over any run a project with dependencies and no approval keeps its control files and its marker and gets no approval |
| GoRuns.MarkedStays | internal/promotion/go_approved_transaction.go:116-139 | a marked project is refused and left alone by every later session |
| GoRuns.RunsStayWhole | internal/promotion/go_transaction.go:227-376 | an unmarked project is the first one or what one update put in place, never a mixture |
| GoRuns.HardLinkedProject | internal/promotion/go_transaction.go:143-168 | a project with a second link on `go.mod` is accepted, and is one whose update ends marked |
| NpmMember.Snapshot | internal/promotion/npm_transaction_member.go:17-39 | it succeeds exactly on trees of directories and single-link files, and then the tree is the snapshot |
| NpmMember.Verify | internal/promotion/npm_transaction_member.go:41-72 | it succeeds exactly when the tree is the snapshot |
| NpmMember.ExactExactly | internal/promotion/npm_transaction_member.go:41-72 | being the snapshot means the same names and the very objects, directories and files |
| NpmMember.RecordableExactly | internal/promotion/npm_transaction_member.go:17-39 | only directories and files without a second link below the root can be recorded |
| NpmMember.CountedExact | internal/promotion/npm_transaction_member.go:41-72 | meeting only recorded names, and as many as recorded, is meeting exactly them |
| NpmMember.EmptyWhenReached | internal/promotion/npm_transaction_member.go:74-120 | in the order of removal every directory is empty when its turn comes |
| NpmMember.Remove | internal/promotion/npm_transaction_member.go:74-120 | it succeeds exactly without a fault on an unchanged member, which then is gone whole; it never takes anything else, and does not begin on a changed one |
| InstalledRecords.ResolvedParts | internal/promotion/pypi_promotion.go:492-549 | exactly which RECORD entries are accepted, and where they resolve |
| InstalledRecords.LeadsResolved | internal/promotion/pypi_promotion.go:492-549 | a text of plain pieces, alone or after `../`, resolves below `site`, and after `../../bin/`, `../../share/` or `../../include/` below that directory, under its scheme |
| InstalledRecords.ResolvedLeads | internal/promotion/pypi_promotion.go:492-549 | no other text is accepted |
| InstalledRecords.LeadsFinal | internal/promotion/pypi_venv_transaction.go:124-147 | where the environment has such a file: the same pieces below the directory of its scheme, unless they hold a colon |
| InstalledRecords.RecordInOneRoot | internal/promotion/pypi_promotion.go:492-554 | an accepted entry lies below exactly one of the four staging roots, that of its scheme |
| InstalledRecords.SameSource | internal/promotion/pypi_promotion.go:492-549 | two accepted entries name one file exactly when scheme and relative path agree |
| InstalledRecords.RecordBinds | internal/promotion/pypi_venv_transaction.go:124-147 | an accepted entry binds into the environment exactly when it holds no colon, and keeps its relative path |
| InstalledRecords.RecordBindsApart | internal/promotion/pypi_venv_transaction.go:124-147 | relocation of accepted entries is injective |
| RecordMerge.Merge.Add | internal/promotion/pypi_promotion.go:443-486 | a claim joins the table exactly when all claims so far can stand together |
| RecordMerge.Merge.Record | internal/promotion/pypi_promotion.go:387-486 | a RECORD file is taken exactly when its lines are good and agree with all before |
| RecordMerge.ValidatedDestinations | internal/promotion/pypi_promotion.go:317-371 | it succeeds exactly when every expected distribution is installed once, all claims can stand together and every file is recorded; every line of every distribution is in the table with its digest, its size, its place in the private installation and its distribution among the owners; every owner of every entry has such a line; entries are in the order of their keys and owners in that of their names |
| RecordMerge.PromotableExactly | internal/promotion/pypi_promotion.go:314-371 | which installations are promotable, line by line: sound lines that lead somewhere; two lines of one file only in `site`, alike, and of two complete distributions; at most 64 owners; every expected distribution once, in its version; every file recorded |
| RecordMerge.EntryUnique | internal/promotion/pypi_promotion.go:443-486 | the destination of a file is determined by the set of claims |
| RecordMerge.OrderIsNothing | internal/promotion/pypi_promotion.go:317-371 | success and the resulting table do not depend on the order of the distributions |
| RecordMerge.RepeatRefused | internal/promotion/pypi_promotion.go:443-486 | a distribution that records one file twice is always refused |
| ObservationEngine.VerifyMembers | internal/hosttool/observation_resource_linux.go:498-535 | it accepts exactly the listings whose directories are the keeper's, a live runtime's or an empty drained one's |
| ObservationEngine.Service.ApplyRequest | internal/hosttool/observation_resource_linux.go:267-385 | every request under the lock keeps the engine's registrations and table sound and takes nothing back, and is the step the runs are made of; only the peer of a session gets a lease of it, and another peer only marks it |
| ObservationEngine.Service.FinishRead | internal/hosttool/observation_resource_linux.go:127-138 | so does the locked end of `read` |
| ObservationEngine.Service.FinishTerminate | internal/hosttool/observation_resource_linux.go:186-211 | so does the locked end of `terminate` |
| ObservationRuns.RunsFit | internal/hosttool/observation_resource_linux.go:90-211 | in every interleaving registrations are live or drained, never both and never more than allowed, and at most eight sessions are open |
| ObservationRuns.RunsGrow | internal/hosttool/observation_resource_linux.go:127-146 | no failure is forgotten, no closed session reopens, no usage is taken back, no registration is lost |
| ObservationRuns.LeasesGrow | internal/hosttool/observation_resource_linux.go:324-384 | leases of one session never go back and, the first aside, stay within its ceiling |
| ObservationRuns.HighBaseline | internal/hosttool/observation_resource_linux.go:312-322 | a first lease above the ceiling is the last one |
| ObservationRuns.CloseMeansClean | internal/hosttool/observation_resource_linux.go:186-210 | a session closed with a lease never failed, and every runtime ever registered was drained |
| ObservationRuns.OthersUntouched | internal/hosttool/observation_resource_linux.go:90-211 | a read or termination changes no other session but for the failure mark |
| ObservationRuns.StaleEnds | internal/hosttool/observation_resource_linux.go:127-133 | the end of a read or termination of a replaced session leaves the new one alone |
| ObservationRuns.StaleRun | internal/hosttool/observation_resource_linux.go:140-146 | a whole run from the empty engine in which the failed look of a read marks a new session of the same name |
| ObservationRuns.OverlappingTerminations | internal/hosttool/observation_resource_linux.go:173-211 | a termination loses its runtime exactly when another has drained it, and then the session fails |
| ObservationRuns.RegistrationFailsRead | internal/hosttool/observation_resource_linux.go:90-126 | in any run, a runtime registered between the start of a read and its look, and running then, makes the read fail and marks the session that has the name |
| ObservationRuns.HealthyReadFails | internal/hosttool/observation_resource_linux.go:127-138 | a read fails a healthy session exactly when another request got a lease with more between its look and its end |
| ObservationRuns.OverlappingReads | internal/hosttool/observation_resource_linux.go:130-133 | of two overlapping reads in one order of ends the session fails, in the other it does not |
| ObservationRuns.OverlappingRun | internal/hosttool/observation_resource_linux.go:130-133 | a whole run from the empty engine in which a read of a healthy session is overtaken and fails it |
| ObservationLaws.PeersOnly | internal/hosttool/observation_resource_linux.go:90-385 | in any run a lease goes to the peer of the session: the one that founds it, the one that asks, or the one whose earlier request began the read or termination |
| ObservationLaws.OtherPeers | internal/hosttool/observation_resource_linux.go:90-327 | a request of another peer gets no lease, begins no call, leaves the table, and at most marks the session |
| ObservationLaws.SessionsFounded | internal/hosttool/observation_resource_linux.go:289-322 | in any run every session has the peer, the parent, the CPU, the ceiling and the number of launches of one creation under a free name |
| ObservationLaws.RuntimesEnrolled | internal/hosttool/observation_resource_linux.go:331-349 | in any run every live runtime was enrolled in its role by the peer of its session, with a name of 64 hexadecimal digits and room left; every drained one was struck off by a termination |
| ObservationLaws.WorkDone | internal/hosttool/observation_resource_linux.go:173-185 | a termination reaches its end only after the work outside the lock succeeded |
| ObservationLaws.CreateExactly | internal/hosttool/observation_resource_linux.go:289-322 | when a creation gives a lease, what it says, and the session it founds |
| ObservationLaws.RegisterExactly | internal/hosttool/observation_resource_linux.go:331-385 | when a registration gives a lease and when it enrols without one; any refusal marks the session |
| ObservationLaws.CloseExactly | internal/hosttool/observation_resource_linux.go:350-370 | when a session closes, and when with a lease |
| ObservationLaws.ReadLooksExactly | internal/hosttool/observation_resource_linux.go:90-126 | a read goes on exactly when all was in order with the session it remembers |
| ObservationLaws.ReadEndExactly | internal/hosttool/observation_resource_linux.go:127-138 | when a read ends with a lease, and what it says |
| ObservationLaws.TerminateEndExactly | internal/hosttool/observation_resource_linux.go:186-211 | when a termination ends with a lease; the runtime is struck off in any case if it was as found |
| Starlark.StripComments | scripts/generate-runtime-lock.go:152-220 | the index loop computes the token-wise stripper, without reads out of range |
| Starlark.StripIdempotent | scripts/generate-runtime-lock.go:152-220 | stripping twice is stripping once |
| Starlark.StripFixed | scripts/generate-runtime-lock.go:152-220 | exactly the sources without comments are left as they are |
| Starlark.EraseComment | scripts/generate-runtime-lock.go:152-220 | erasing a comment that begins in code does not change the result |
| Starlark.StripTrims | scripts/generate-runtime-lock.go:152-220 | only ends of lines are cut, so every newline stays |
| StarlarkPieces.StripReads | scripts/generate-runtime-lock.go:152-220 | however a source is read as code, comments and literals of either quote, short, long or not closed, stripping keeps every piece but the comments as it is |
| StarlarkPieces.ReadsEverything | scripts/generate-runtime-lock.go:152-220 | every source has such a reading |
| StarlarkCalls.ExtractTargets | scripts/generate-runtime-lock.go:227-347 | the index loop computes the extractor, without reads out of range |
| StarlarkCalls.CloseBalances | scripts/generate-runtime-lock.go:227-347 | the scan stops exactly where the parentheses outside of literals balance |
| StarlarkCalls.ExtractFinds | scripts/generate-runtime-lock.go:227-347 | what is found are calls outside of literals with their whole bodies, disjoint and in order |
| StarlarkCalls.ExtractMissesNone | scripts/generate-runtime-lock.go:227-347 | every call outside of literals is found or lies in the body of one that is |
| StarlarkCalls.ExtractSucceeds | scripts/generate-runtime-lock.go:227-347 | it fails exactly when the parenthesis of some call outside of literals is never closed |
| StarlarkCalls.ActiveTargets | scripts/generate-runtime-lock.go:354-359 | what is cut out of stripped source lies neither in a literal nor in a comment |
| StarlarkPieces.TargetsInCode | scripts/generate-runtime-lock.go:227-347 | however the source is read, a target begins at a piece of code and its body runs from after an opening parenthesis of code to the first closing one of code that balances it, so no literal holds a target or the end of one |
| StarlarkPieces.CallsInCode | scripts/generate-runtime-lock.go:227-347 | every call that begins at a piece of code is found or lies inside one that is |
| StarlarkPieces.CallsExactly | scripts/generate-runtime-lock.go:267-283 | a call is the name of the rule as a whole word, white space and a parenthesis |
| CargoOutput.FilterOutputs | internal/sandbox/cargo_build_output.go:79-196 | it succeeds exactly on intact archives that are safe, resolvable and within the bounds, said entry by entry over the text of names, modes and links, and emits the products in archive order: exactly the non-directories whose name, after a leading `./` and a final slash, is at the top level, not hidden and does not end in `.d` |
| CargoOutput.PlainExactly | internal/sandbox/cargo_build_output.go:79-152 | which entries pass, over the text of their name and link and the digits of their mode |
| CargoOutput.AllowedExactly | internal/sandbox/cargo_build_output.go:79-196 | which archives pass, entry by entry |
| CargoOutput.OutputsFiltered | internal/sandbox/cargo_build_output.go:153-196 | what is emitted, and from which members |
| CargoOutput.OutputsAreRegular | internal/sandbox/cargo_build_output.go:79-196 | every product appears once, with the bytes of a regular member it is or links to, never through a chain |
| CargoOutput.ProductsInOrder | internal/sandbox/cargo_build_output.go:79-196 | products keep the order of the archive under distinct names |
| CargoOutput.WrittenWithin | internal/sandbox/cargo_build_output.go:79-196 | what is written stays within the expanded total, aliases counted in full |

## Left out

What the repository does and the model does not:

- Cargo's control-file transaction: the protocol of the Go one with checkpoints and an optional lock file; its inventory and removal code is the shared one modelled in `ControlBackup`.
- npm's four-member transaction: its members are modelled, their combination and the early returns that leave an empty commit directory are not.
- Terraform's lock file and provider tree transaction, and its cache approval.
- The firewall backends, their command sequences, and the canonical policy they are given.
- The approved-inventory copier and bounded archive writer of the Go build cache.
- The release pointer swap, the installer and its checks.
- Docker, gVisor, systemd, control groups, sockets and peer credentials: what they answer is a parameter of the observation steps.
- Durability and reordering below `fsync`: a sync either works or is a fault.
- Policies, orchestration, presenters and command lines.

Where the model is coarser than the code:

- The disk: symbolic links, device numbers and foreign writers are not modelled; contents stand for their digest and length, JSON is an abstract round trip, and exceeding a size bound is a fault. Which inode a new object gets is left open.
- VenvTransaction.Transaction.Begin: parsing `pyvenv.cfg` is the parameter `supported`.
- VenvPromotion.Promote: the private workspace and what the installer puts there are on the disk before the session and are removed after it; what the RECORD files say about them is a parameter, compared with the disk only by `commit`.
- GoApproval.Guard.Begin: `go.mod` is also validated by its contents when a project is frozen; `GoLayout.Freezable` asks only that it is a file, so a project whose `go.mod` is refused there is not told apart.
- A recorded trace of the states a PyPI commit passes through: a stop anywhere is the schedule in which every later primitive fails, and the contract of the commit speaks of the disk all schedules leave.
- GoDisk.WellFormed: `go.mod` and `go.sum` as two links to one file have inodes told apart, and each counts the other among its hard links from elsewhere; that removing one lowers the count of the other is not modelled. Neither is an approval that is a link to a control file.
- Another writer of a Go project only adds names to the commit directories; and the bytes of a replaced approval are kept in memory only, as in the code, and written back to a new inode.
- NpmMember.Remove: the order of a directory walk is left open.
- ObservationEngine.Service.ApplyRequest: the shape of request identifiers is checked before the engine is reached and is not part of this model.
- RecordMerge.ValidatedDestinations: CSV and base64 decoding are abstract; a row says whether the hash and size it declares are right.
- StarlarkCalls.ExtractTargets: the regular expression that reads a target's name out of its body is not part of this model.
- CargoOutput.FilterOutputs: the tar byte encoding is abstract; entries come decoded and `intact` says whether the archive ends as it should.
