# Orin Stage: a verified model of its on-disk protocols

Orin Stage keeps workspaces, bases, caches and build toolchains on disk for a
long time, while operations run concurrently, fail, and get killed. This
project models the code that keeps that state consistent and proves what the
design relies on. `dafny verify dfyconfig.toml` checks everything.

## What is modelled

**The workspace lifecycle** (`Workspace`, `Lifecycle*`). Create, run (which
also stands for shell), build, reset, remove, recovery and base removal are
programs over `workspaces/`, `staging/`, `targets/`, the operation receipts,
one lifecycle lock and one lock per workspace. `Lifecycle` writes each of them
as a sequence of small steps, one filesystem or lock action each. Any process
may take the next step, any action may fail without effect, and a kill may
strike between any two steps. Renames, replacements and exchanges are atomic;
recursive deletion and writing the metadata of a new workspace are not.
`Workspace` holds the directory scans the steps use, as the loops they are in
the source. `LifecycleInvariant` states one invariant over disk, locks,
receipts and program counters; `LifecycleSteps` and `LifecycleCommits` show
that every step keeps it; `LifecycleShapes` sorts the steps by what they may
change; `LifecycleTheorems`, `LifecycleRecovery` and `LifecycleProgress` draw
the conclusions for every reachable state; `LifecycleRuns` and
`LifecycleOutcomes` build the runs nobody interrupts, and the ones that go wrong.
A history beside each receipt records what really happened, so that receipts
can be compared with the truth; no step decides anything by it.

**Archives and hard links** (`ArchivePaths`, `Toolchain`, `Materialization`).
Lexical member paths and link targets on real strings, the extraction of the
managed toolchain into a mutable tree with its loop over deferred hard links,
and the parity validation of an extracted seed with its chain walker.

**Caches that must agree with what they stand for** (`Receipts`,
`ArtifactIndex`, `BaseIdentity`, `BaseReuse`). The index derived from
acquisition receipts against a direct look at the receipts, and the cheap gate
for reusing a base against what construction publishes. SHA-256 is any function
that prints lower-case hexadecimal digits. Where a result needs it, only the
records or files it compares are assumed not to collide; nowhere is the function
injective on all inputs, which no 64-digit function is.

**Transactions against an environment that may answer anything**
(`AptSimulation`, `RemovalGate`, `Chroot`). The readers of simulated package
transactions, the gate in front of the installation, and the preparation and
cleanup of the construction chroot. What a guest answers is an unconstrained
choice at that step. What the host answers to the chroot is a parameter, one
outcome for each action, so that "restored" can be stated as an exact condition
on the answers.

**Two algorithms** (`StorageMeasure`, `QueryParser`). The depth-first
measurement of a tree with one shared set of visited inodes, and the
line-driven parser of SDK Manager's release listing.

`Common` and `Sorting` hold what several of these share.

## Findings

- Recovery can write a verdict that is not what happened. A killed create that
  published nothing is marked completed if its name was in use on the same base
  when it began, and also if it was tried again with success before recovery; a
  killed reset that exchanged nothing is marked completed after one ordinary
  run. Conversely, a killed create that did publish is marked failed once its
  workspace has been removed. `LifecycleRecovery.RecoveryIsTruthfulIff` gives the exact condition for
  every unfinished receipt; `LifecycleRuns.MisreportIsReachable`,
  `LifecycleRuns.RetryMisreportIsReachable`,
  `LifecycleOutcomes.ResetMisreportIsReachable` and
  `LifecycleOutcomes.RemovedCreateMisreportIsReachable` build the runs from an
  empty installation.
- Recovery cannot finish every receipt. A create with an empty name is refused
  only after its receipt is written (`src/orin_stage/workspace_manager.py:278-284`,
  `src/orin_stage/workspace_publish.py:36-39`); killed in between, it leaves a
  receipt that recovery cannot read. A killed reset leaves one if, before the next
  recovery, its workspace is removed or run past the generation the reset was to
  leave: twice, or once if the exchange had happened. `LifecycleRecovery.RaisesIffStuck` shows that
  these are all the cases, `StuckIsForever` that such a receipt, once its
  operation is over, stops every later recovery, and
  `LifecycleOutcomes.StuckByNameIsReachable`, `StuckByRemovalIsReachable` and
  `StuckByRunsIsReachable` that each case occurs.
- A workspace can be given the name `.` (`src/orin_stage/workspace_publish.py:36-41`),
  and that name never opens it: the selectors `.` and `..` lead to `workspaces/`
  and its parent, which are refused (`src/orin_stage/workspace_manager.py:328-330`).
  `LifecycleTheorems.NameOpensIff` shows that every other published name opens
  its workspace; `LifecycleOutcomes.DottedNameIsReachable` builds the exception.
- A removal row that is indented below a section title of a simulated
  transaction is read as one more line of that section.
  `AptSimulation.RemovalRowHeardIff` says for every row of every output when
  its package is reported for removal; `IndentedRemovalIsSwallowed` and
  `TitleHidesRemovals` show what is lost.
- The construction chroot does not always end as it began. Its marker is flagged
  only after the touch (`src/orin_stage/base/chroot.py:162-163`), so a touch that
  creates the file and then raises leaks it, and the cleanup reports no error. An
  unmount command that cannot be started raises (`src/orin_stage/base/chroot.py:241-248`)
  and ends the cleanup before any file is restored. A mount command that mounts
  and then reports failure (`src/orin_stage/base/chroot.py:165-168`) is never
  unmounted. `Chroot.ConstructionChroot.Session` gives the exact conditions on
  the host's answers, `Chroot.LeakTheMarker`, `Chroot.RaiseInUnmount` and
  `Chroot.LeaveMounted` build the sessions. In a preparation that fails early a
  cleanup step may raise and yet nothing be left behind, because the file it was
  to remove had never been written: the condition counts these cases too.
- An archive in which some member lies below a member that is not a directory, or
  some symbolic link has an empty target, passes validation and
  is never extracted, in any member order; with that, success of the extraction
  is decided exactly (`Toolchain.ExtractArchive`).

## What the lifecycle theorems assume

- Generated ids (workspace, operation, staging, tombstone) are fresh.
- No workspace name equals a workspace id; opening tries the id first.
- The lock digest in a seed equals the name of its target directory
  (`src/orin_stage/cli.py:285-294` checks this, the manager does not), and a seed
  is written once and deleted only with its base.
- Commands inside a target touch only the contents of `root/`.
- Every publication goes through the manager: neither the developer publish
  script nor the cleanup tool for base attempts runs.
- A kill takes the helper processes of its victim with it.

Each unfinished receipt has a history flag `disturbed`: it is set by every commit
of another operation on the same workspace, or under the same name. Where a
statement excludes disturbed receipts it says so.

## Model

| member | source | states |
|---|---|---|
| Workspace.Load | src/orin_stage/workspace_manager.py:706-735 | a directory loads only if its metadata file is complete, names the directory itself, and a root exists |
| Workspace.OpenSelector | src/orin_stage/workspace_manager.py:318-347 | in any listing order the scan answers what a selector means: not found without a `workspaces/`, corrupt for `.` and `..`, else the workspace stored under that id, else the only one with that name; otherwise not found, ambiguous, or corrupt |
| Workspace.CheckExistingWorkspaces | src/orin_stage/workspace_publish.py:72-98 | publication may go on exactly when the id is unused, no published record carries the name and every record can be read |
| Workspace.DependentWorkspaces | src/orin_stage/storage.py:398-426 | either some record cannot be read and nothing is proved, or exactly the labels of the workspaces on this base are listed |
| Workspace.RecoverCreate | src/orin_stage/workspace_manager.py:627-665 | the verdict on an unfinished create: it raises without a usable name, lock and base, and otherwise counts the published workspaces that have all three: none, one, or ambiguous |
| LifecycleInvariant.OpenById | src/orin_stage/workspace_manager.py:512-517 | under the invariant, re-opening by a known id finds that very workspace, or nothing once it is gone |
| LifecycleInvariant.OpenFinds | src/orin_stage/workspace_manager.py:318-347 | under the invariant, opening is never ambiguous, is corrupt exactly for `.` and `..`, and finds a record stored under its own id |
| LifecycleInvariant.QuietMatches | src/orin_stage/workspace_manager.py:627-646 | a step taken without the lifecycle lock cannot change which workspaces match a create |
| LifecycleInvariant.LocalPersists | src/orin_stage/workspace_manager.py:511-533 | no step of one process invalidates what another process relies on at its program counter; this is what the two kinds of locks buy |
| LifecycleInvariant.LocalsPersist | src/orin_stage/workspace_manager.py:511-533 | the same for all processes at once |
| LifecycleInvariant.ReceiptsStay | src/orin_stage/workspace_manager.py:577-605 | writing one receipt keeps what every other receipt says about what really happened |
| LifecycleInvariant.Assemble | src/orin_stage/workspace_manager.py:275-509 | the parts of the invariant, re-established after one step together with a bound on what the step changed under other processes, give the whole invariant |
| LifecycleShapes.StepShape | src/orin_stage/workspace_manager.py:275-509 | every step is of one of five kinds, and outside its part of the state (staging trees, receipts, bases, workspaces) it changes nothing on disk; only advance, publication, exchange and removal change `workspaces/` |
| LifecycleSteps.KillKeeps | src/orin_stage/workspace_manager.py:519-533 | the invariant survives a kill at any point, which releases the locks of its victim |
| LifecycleSteps.SpawnKeeps | src/orin_stage/workspace_manager.py:275-275 | the invariant survives the appearance of a new operation |
| LifecycleSteps.TakeLifecycleKeeps | src/orin_stage/workspace_manager.py:518-533 | the invariant survives taking the lifecycle lock |
| LifecycleSteps.DropLifecycleKeeps | src/orin_stage/workspace_manager.py:518-533 | the invariant survives releasing the lifecycle lock |
| LifecycleSteps.OpenKeeps | src/orin_stage/workspace_manager.py:511-513 | the invariant survives the first, unlocked open of a selector |
| LifecycleSteps.TakeWorkspaceKeeps | src/orin_stage/workspace_manager.py:514-515 | the invariant survives taking one workspace lock |
| LifecycleSteps.ReopenKeeps | src/orin_stage/workspace_manager.py:516-516 | the invariant survives re-opening by id under the lock; the record read is the record on disk |
| LifecycleSteps.DropWorkspaceKeeps | src/orin_stage/workspace_manager.py:511-533 | the invariant survives releasing a workspace lock |
| LifecycleSteps.CommandKeeps | src/orin_stage/workspace_manager.py:349-397 | the invariant survives a target command, a shell or a build inside a workspace |
| LifecycleSteps.CheckGenerationKeeps | src/orin_stage/workspace_manager.py:567-570 | the invariant survives the recheck before an advance |
| LifecycleSteps.IdentifyKeeps | src/orin_stage/workspace_manager.py:275-278 | the invariant survives reading the seed of the chosen base |
| LifecycleSteps.CheckNewKeeps | src/orin_stage/workspace_publish.py:186-190 | the invariant survives choosing a fresh id and checking id and name |
| LifecycleSteps.BindKeeps | src/orin_stage/workspace_manager.py:560-565 | the invariant survives checking a reset against the seed of its base |
| LifecycleSteps.PlanKeeps | src/orin_stage/storage.py:258-283 | the invariant survives both plans of a base removal |
| LifecycleSteps.RecoverListsKeep | src/orin_stage/workspace_manager.py:490-509 | the invariant survives the listings a recovery works through |
| LifecycleSteps.FailKeeps | src/orin_stage/workspace_manager.py:302-316 | the invariant survives any action failing without effect, and the error handling it starts |
| LifecycleSteps.MakeAttemptKeeps | src/orin_stage/materialization_extract.py:450-459 | the invariant survives creating a staging directory |
| LifecycleSteps.ExtractionKeeps | src/orin_stage/workspace_publish.py:192-224 | the invariant survives extracting a root and writing its metadata, file first and content later |
| LifecycleSteps.ShrinkKeeps | src/orin_stage/workspace_manager.py:165-186 | the invariant survives deleting part of a tree: recursive deletion is not atomic |
| LifecycleSteps.EraseKeeps | src/orin_stage/workspace_manager.py:165-186 | the invariant survives the end of a recursive deletion |
| LifecycleSteps.NoteCreateKeeps | src/orin_stage/workspace_manager.py:278-284 | the invariant survives writing the receipt of a create |
| LifecycleSteps.NoteResetKeeps | src/orin_stage/workspace_manager.py:404-414 | the invariant survives writing the receipt of a reset |
| LifecycleSteps.NotesKeep | src/orin_stage/workspace_manager.py:423-440 | the invariant survives recording that a reset is staged or published |
| LifecycleSteps.CompletedKeeps | src/orin_stage/workspace_manager.py:292-301 | the invariant survives recording completion |
| LifecycleSteps.NoteFailedKeeps | src/orin_stage/workspace_manager.py:302-309 | the invariant survives recording failure |
| LifecycleSteps.ReconcileKeeps | src/orin_stage/workspace_manager.py:607-704 | the invariant survives one recovery decision |
| LifecycleSteps.EnvironmentKeeps | src/orin_stage/base/construction.py:394-419 | the invariant survives publishing a base or its seed |
| LifecycleSteps.DeleteKeeps | src/orin_stage/storage.py:283-298 | the invariant survives deleting a base, in any number of steps |
| LifecycleSteps.VerdictInFull | src/orin_stage/workspace_manager.py:627-704 | what recovery decides for every unfinished receipt of a state that satisfies the invariant, in terms of the published records alone |
| LifecycleSteps.VerdictExact | src/orin_stage/workspace_manager.py:627-704 | for an undisturbed unfinished receipt the decision is "completed" if and only if the commit step ran or the name was already taken; it raises only on a create with an empty name |
| LifecycleCommits.AdvanceShape | src/orin_stage/workspace_manager.py:567-575 | an advance writes exactly the next generation of the record it read, over that very record, under that workspace's lock |
| LifecycleCommits.AdvanceKeeps | src/orin_stage/workspace_manager.py:567-575 | the invariant survives an advance, which disturbs every unfinished receipt of that workspace |
| LifecycleCommits.ExchangeShape | src/orin_stage/workspace_manager.py:429-434 | an exchange puts a fully extracted tree with the same identity and the next generation in place of the old one, which moves to staging |
| LifecycleCommits.ExchangeKeeps | src/orin_stage/workspace_manager.py:429-434 | the invariant survives an exchange |
| LifecycleCommits.PublishShape | src/orin_stage/workspace_publish.py:226-233 | a publication adds a complete workspace of generation zero under an unused id and name, on an existing base |
| LifecycleCommits.PublishKeeps | src/orin_stage/workspace_publish.py:226-233 | the invariant survives a publication |
| LifecycleCommits.UnpublishShape | src/orin_stage/workspace_manager.py:466-478 | a removal moves the workspace it locked, and nothing else, out of `workspaces/` |
| LifecycleCommits.UnpublishKeeps | src/orin_stage/workspace_manager.py:466-478 | the invariant survives a removal |
| LifecycleTheorems.StepKeeps | src/orin_stage/workspace_manager.py:275-533 | every step of every operation, and every kill, keeps the invariant |
| LifecycleTheorems.RunKeeps | src/orin_stage/workspace_manager.py:275-533 | the invariant holds in every state any run can reach from an empty installation |
| LifecycleTheorems.WorkspacesAlwaysComplete | src/orin_stage/workspace_manager.py:706-735 | in every reachable state every directory under `workspaces/` loads, was fully extracted, names its own id, has a non-negative generation, and the seed of its target is there with its lock and base |
| LifecycleTheorems.BindingAlwaysHolds | src/orin_stage/workspace_manager.py:560-565 | so the two errors about a workspace that no longer fits its seed cannot happen |
| LifecycleTheorems.OpeningIsUnambiguous | src/orin_stage/workspace_publish.py:72-98 | names are unique in every reachable state, so opening never reports ambiguity; it reports corruption exactly for `.` and `..` in an existing `workspaces/`, and not found exactly for a blank selector, without a `workspaces/`, or when neither id nor name exists |
| LifecycleTheorems.NameOpensIff | src/orin_stage/workspace_manager.py:328-347 | in every reachable state the name of a published workspace opens that workspace if and only if it is not a single dot |
| LifecycleTheorems.StepOnWorkspace | src/orin_stage/workspace_manager.py:429-434 | one step changes a published record by at most the generation, by exactly one, and only if it is an advance or exchange of that workspace |
| LifecycleTheorems.GoneStaysGone | src/orin_stage/workspace_manager.py:466-478 | the id of a removed workspace never comes back |
| LifecycleTheorems.IdentityNeverChanges | src/orin_stage/workspace_manager.py:567-575 | along every run from any reachable state, a workspace that is there at both ends has kept id, name, lock digest and base digest, and its generation has grown by exactly the commits in between |
| LifecycleTheorems.GenerationCountsCommits | src/orin_stage/workspace_manager.py:349-376 | the generation is the number of committed run, shell and reset steps since creation: no update is lost |
| LifecycleTheorems.GenerationCheckAlwaysPasses | src/orin_stage/workspace_manager.py:567-570 | the error "generation changed while locked" cannot happen |
| LifecycleTheorems.MutualExclusion | src/orin_stage/workspace_manager.py:511-533 | at most one process is inside the lifecycle lock, and at most one inside each workspace |
| LifecycleTheorems.BuildChangesNothing | src/orin_stage/workspace_manager.py:378-397 | no step of a build changes anything on disk |
| LifecycleTheorems.BaseRemovalIsSafe | src/orin_stage/storage.py:272-298 | whatever happens after its unlocked first plan, a base is deleted only while no published workspace refers to it, and no other base is touched |
| LifecycleRecovery.RecoveryDecides | src/orin_stage/workspace_manager.py:607-704 | which verdict recovery reaches on every undisturbed unfinished receipt; it raises exactly on a create with an empty name |
| LifecycleRecovery.RecoveryIsTruthfulIff | src/orin_stage/workspace_manager.py:627-704 | for every unfinished receipt the verdict is the truth if and only if recovery can tell: a create by a non-empty name whose name, lock and base are published exactly if it published them, a reset if nothing else was committed on its workspace since; undisturbed creates can be told exactly when non-empty and not taken |
| LifecycleRecovery.ReconciledIsTrueIff | src/orin_stage/workspace_manager.py:607-704 | what the recovery step then writes: nothing if the receipt is stuck, and otherwise a final phase that is true exactly in those cases |
| LifecycleRecovery.FinalReceiptsAreTrue | src/orin_stage/workspace_manager.py:292-316 | a receipt finished by its own operation is always true; one finished by recovery is true unless disturbed or taken |
| LifecycleRecovery.TakenMeans | src/orin_stage/workspace_manager.py:275-284 | what "taken" is: when the receipt was written, some published workspace had its name, lock and base |
| LifecycleRecovery.RecoverySteps | src/orin_stage/workspace_manager.py:490-509 | a recovery does nothing but sweep staging trees and finish receipts |
| LifecycleRecovery.RecoveryLeavesWorkspaces | src/orin_stage/workspace_manager.py:490-509 | recovery changes no workspace, no base, no foreign staging entry and no finished receipt |
| LifecycleRecovery.RecoveryErasesNoLiveTree | src/orin_stage/workspace_manager.py:496-507 | recovery never erases a tree that another live operation is writing or erasing |
| LifecycleRecovery.FinishedRecoveryIsClean | src/orin_stage/workspace_manager.py:490-509 | a recovery that finishes leaves no sweepable tree and no unfinished receipt |
| LifecycleRecovery.SecondRecoveryIsIdle | src/orin_stage/workspace_manager.py:490-509 | after that, no step of a further recovery changes the disk |
| LifecycleRecovery.RaisesIffStuck | src/orin_stage/workspace_manager.py:627-704 | in every reachable state recovery raises on exactly the stuck receipts: unfinished creates with an empty name, unfinished resets whose workspace is gone or whose generation has passed the one the reset was to leave |
| LifecycleRecovery.StuckResetIsUnowned | src/orin_stage/workspace_manager.py:399-450 | a reset that is still running is never stuck |
| LifecycleRecovery.StuckIsForever | src/orin_stage/workspace_manager.py:490-509 | once the operation of a stuck receipt is over the receipt stays stuck through every later run, each recovery that reaches it raises, and no recovery ever finishes again |
| LifecycleProgress.NotWaitingSteps | src/orin_stage/workspace_manager.py:511-533 | an operation that waits for no lock can always take its next proper step |
| LifecycleProgress.SomeOperationCanStep | src/orin_stage/workspace_manager.py:518-533 | there is no deadlock: in every reachable state with an unfinished operation some operation can step |
| LifecycleRuns.UninterruptedCreate | src/orin_stage/workspace_manager.py:275-301 | a create nobody interrupts exists as a run, publishes exactly the workspace asked for and reports success |
| LifecycleRuns.KilledCreateMisreported | src/orin_stage/workspace_manager.py:627-665 | a second create of the same name on the same base, killed after writing its receipt, is recovered as completed although it published nothing |
| LifecycleRuns.MisreportIsReachable | src/orin_stage/workspace_manager.py:627-665 | that misreport is reachable from an empty installation |
| LifecycleRuns.RetriedCreateMisreported | src/orin_stage/workspace_manager.py:627-665 | a create killed after writing its receipt and then tried again with success is recovered as completed although it published nothing |
| LifecycleRuns.RetryMisreportIsReachable | src/orin_stage/workspace_manager.py:627-665 | that one is reachable from an empty installation too |
| LifecycleOutcomes.UninterruptedRun | src/orin_stage/workspace_manager.py:349-376 | a run or shell nobody interrupts leaves exactly one trace on disk: the next generation of its workspace |
| LifecycleOutcomes.UninterruptedReset | src/orin_stage/workspace_manager.py:399-450 | a reset nobody interrupts puts a freshly extracted tree of the next generation in place, leaves nothing in staging and a completed receipt |
| LifecycleOutcomes.UninterruptedRemove | src/orin_stage/workspace_manager.py:466-488 | a remove nobody interrupts takes away its workspace and nothing else |
| LifecycleOutcomes.UninterruptedBaseRemoval | src/orin_stage/storage.py:272-298 | removing an unreferenced base takes away that base and nothing else |
| LifecycleOutcomes.KilledResetMisreported | src/orin_stage/workspace_manager.py:688-694 | a reset killed after writing its receipt, followed by one ordinary run, is recovered as completed although it exchanged nothing |
| LifecycleOutcomes.ResetMisreportIsReachable | src/orin_stage/workspace_manager.py:688-694 | that misreport is reachable from an empty installation |
| LifecycleOutcomes.RemovedCreateMisreported | src/orin_stage/workspace_manager.py:627-665 | a create killed after publishing, whose workspace is then removed, is recovered as failed although it published |
| LifecycleOutcomes.RemovedCreateMisreportIsReachable | src/orin_stage/workspace_manager.py:627-665 | that one is reachable from an empty installation too |
| LifecycleOutcomes.DottedNameIsReachable | src/orin_stage/workspace_publish.py:36-41 | a workspace with the name `.` can be created; its id opens it, its name does not |
| LifecycleOutcomes.StuckByRemoval | src/orin_stage/workspace_manager.py:681-686 | a reset killed after writing its receipt, followed by a remove, leaves a stuck receipt |
| LifecycleOutcomes.StuckByRuns | src/orin_stage/workspace_manager.py:701-704 | the same reset followed by two ordinary runs leaves a stuck receipt whose workspace is still there |
| LifecycleOutcomes.StuckByName | src/orin_stage/workspace_manager.py:275-284 | a create with an empty name, killed after writing its receipt, leaves a stuck receipt: the receipt is written before the name is checked |
| LifecycleOutcomes.StuckByRemovalIsReachable | src/orin_stage/workspace_manager.py:681-686 | a receipt stuck because its workspace is gone is reachable from an empty installation |
| LifecycleOutcomes.StuckByRunsIsReachable | src/orin_stage/workspace_manager.py:701-704 | so is one stuck because the generation has moved on |
| LifecycleOutcomes.StuckByNameIsReachable | src/orin_stage/workspace_manager.py:628-628 | so is one stuck because its name is empty, with nobody working on it any more |
| ArchivePaths.MemberPath | src/orin_stage/build_toolchain.py:108-115 | an accepted member path is clean: no empty, `.` or `..` component |
| ArchivePaths.ResolveLink | src/orin_stage/build_toolchain.py:118-136 | the component loop computes the lexical walk from its starting directory, or reports why there is none |
| ArchivePaths.WalkSucceedsIff | src/orin_stage/build_toolchain.py:125-135 | a walk succeeds exactly when no prefix of it climbs above the root |
| ArchivePaths.LinkTargetsAreClean | src/orin_stage/build_toolchain.py:118-136 | an accepted link target is a clean path below the root, and exactly the relative targets that never climb out are accepted |
| ArchivePaths.CleanJoinStaysBelow | src/orin_stage/build_toolchain.py:193-193 | joining a clean path to the destination cannot leave it |
| ArchivePaths.WalkComposes | src/orin_stage/build_toolchain.py:125-135 | walking in two stages is walking once |
| Toolchain.ValidateArchiveMembers | src/orin_stage/build_toolchain.py:153-178 | validation accepts exactly the archives whose members are sound and whose paths are distinct, and maps every name to its path |
| Toolchain.CollectIgnoresOrder | src/orin_stage/build_toolchain.py:153-178 | a permuted archive is the same collection of members |
| Toolchain.AncestorsAreDirectories | src/orin_stage/build_toolchain.py:139-150 | in a well-rooted tree every ancestor of every entry is a real directory |
| Toolchain.Destination.SafeParent | src/orin_stage/build_toolchain.py:139-150 | creates exactly the missing ancestors, and refuses exactly when one of them exists as something else |
| Toolchain.Destination.PlaceMember | src/orin_stage/build_toolchain.py:190-225 | what placing one member adds, when it refuses, and that nothing that was there changes |
| Toolchain.Destination.PlaceMembers | src/orin_stage/build_toolchain.py:190-225 | every member of a placeable archive finds its place; in any case the tree stays well rooted and the hard links are deferred in order |
| Toolchain.BuiltStep | src/orin_stage/build_toolchain.py:190-225 | the tree built so far plus one placed member is the tree of the enlarged archive |
| Toolchain.PlacedIsPlaceable | src/orin_stage/build_toolchain.py:139-150 | if all members found their places, no member lies below a non-directory and no symbolic link has an empty target |
| Toolchain.Destination.LinkPass | src/orin_stage/build_toolchain.py:229-243 | one pass makes links only towards regular files they end in, keeps the others, and fails only on a link that can never be made |
| Toolchain.StuckNeverEnds | src/orin_stage/build_toolchain.py:240-243 | links that only wait for each other, or for nothing, lead to no file: the induction behind giving up |
| Toolchain.NoProgress | src/orin_stage/build_toolchain.py:240-243 | a pass without progress proves that some link cannot be made |
| Toolchain.Destination.LinkAll | src/orin_stage/build_toolchain.py:227-244 | the loop ends, with fewer pending links each time, and succeeds exactly when every chain ends in a regular file; then each link shares the inode at the end of its chain |
| Toolchain.ResolvableIff | src/orin_stage/build_toolchain.py:227-244 | whether the links can be made is decided by the archive alone: every hard link leads to a regular member |
| Toolchain.LinkedRealizes | src/orin_stage/build_toolchain.py:181-244 | the linked tree is exactly the archive: entries, kinds, and who shares an inode with whom |
| Toolchain.ExtractArchive | src/orin_stage/build_toolchain.py:181-244 | extraction succeeds if and only if the archive is valid, no member lies below a non-directory, no symbolic link has an empty target and every hard link ends in a regular file; the tree is well rooted in any case and is exactly the archive on success |
| Toolchain.ValidityIgnoresOrder | src/orin_stage/build_toolchain.py:153-178 | a permuted archive is as valid |
| Toolchain.OrderIsIrrelevant | src/orin_stage/build_toolchain.py:181-244 | member order decides neither success, nor entries, nor which files share an inode |
| Materialization.ReadExpectedPaths | src/orin_stage/materialization_extract.py:157-186 | reading succeeds exactly on a non-empty archive of readable members at distinct paths, and records each under its path |
| Materialization.ContentEntry | src/orin_stage/materialization_extract.py:189-210 | the chain walker ends on every map, and finds the content entry exactly when the chain has one |
| Materialization.CycleHasNoContent | src/orin_stage/materialization_extract.py:195-199 | a chain that runs back into itself has no content |
| Materialization.ContentIsUnique | src/orin_stage/materialization_extract.py:189-210 | a chain has at most one content entry |
| Materialization.ContentIsExpected | src/orin_stage/materialization_extract.py:203-210 | the content of an expected entry is an expected entry that is no hard link |
| Materialization.CheckEntry | src/orin_stage/materialization_extract.py:233-296 | one pass of the validation loop lets a path through exactly when its attributes and its one hard-link edge check |
| Materialization.ValidateExtraction | src/orin_stage/materialization_extract.py:227-307 | validation succeeds exactly when every single check passes, and counts paths, hard links and symbolic links |
| Materialization.EdgesMakeComponents | src/orin_stage/materialization_extract.py:275-296 | checking every single edge is equivalent to checking every path against the file at the end of its chain |
| Materialization.ValidatedComponents | src/orin_stage/materialization_extract.py:227-307 | after a validated extraction two paths whose chains end together are one inode with that end's type, owner, mode and target |
| StorageMeasure.Meter.Measure | src/orin_stage/storage.py:87-106 | one call adds the sizes of exactly the inodes it newly visits, all reachable and fully listed; it fails only below something uninspectable |
| StorageMeasure.AllocatedTreeBytes | src/orin_stage/storage.py:73-108 | the result is the sum over the distinct inodes reachable from the root, each once; failure exactly when one of them cannot be inspected; zero for an absent root |
| StorageMeasure.ClosedHoldsReachable | src/orin_stage/storage.py:87-106 | a set closed under listing holds everything its members reach |
| StorageMeasure.TotalTakes | src/orin_stage/storage.py:106-106 | the sum over a set of inodes does not depend on the order of summation |
| StorageMeasure.ListingOrderIsIrrelevant | src/orin_stage/storage.py:102-106 | listing directories in another order, or one inode under more names, changes neither success nor the total |
| QueryParser.ArgumentValue | src/orin_stage/acquisition/sdk_manager_query.py:132-145 | the word after the first occurrence of the option, unless the option is missing or followed by another option |
| QueryParser.ParseQueryOutput | src/orin_stage/acquisition/sdk_manager_query.py:69-113 | the line loop computes the parse and stops at the first line it cannot accept |
| QueryParser.ReadLinesMeans | src/orin_stage/acquisition/sdk_manager_query.py:69-113 | what the loop's variables say about the lines read so far, in terms of headers and blocks |
| QueryParser.BlockReads | src/orin_stage/acquisition/sdk_manager_query.py:97-110 | reading a block of command lines after a header collects exactly the version and targets it offers |
| QueryParser.ParseInvertsRendering | src/orin_stage/acquisition/sdk_manager_query.py:30-113 | the parser answers a list of releases exactly on the listings of that list: headers, blocks, noise anywhere |
| QueryParser.PrintThenParse | src/orin_stage/acquisition/sdk_manager_query.py:30-113 | printing any list of well-formed releases and parsing it gives the list back |
| QueryParser.NoiseIsIgnored | src/orin_stage/acquisition/sdk_manager_query.py:77-78 | unrelated lines anywhere change nothing, not even the error |
| QueryParser.RepetitionIsIgnored | src/orin_stage/acquisition/sdk_manager_query.py:109-110 | repeating an accepted command within its entry changes nothing |
| QueryParser.ParsedAreUsable | src/orin_stage/acquisition/sdk_manager_query.py:51-65 | every parsed release has targets, and none twice |
| QueryParser.FindReleaseIsExact | src/orin_stage/acquisition/sdk_manager_query.py:116-129 | a release is found exactly when one entry, and only one, has that version |
| AptSimulation.ParseSimulation | src/orin_stage/base/packages.py:186-215 | parsing succeeds exactly when every row is readable, architecture-consistent and stated once, and yields the canonical transaction |
| AptSimulation.TransactionIsCanonical | src/orin_stage/base/packages.py:214-215 | the transaction holds exactly the stated rows, ascending by name and architecture, each key once |
| AptSimulation.TransactionIgnoresOrder | src/orin_stage/base/packages.py:186-215 | reordering the output changes neither success nor transaction |
| AptSimulation.CollectLists | src/orin_stage/base/packages.py:221-250 | the section loop collects exactly the listed names of each section and the removal rows it hears |
| AptSimulation.ParseDiagnostic | src/orin_stage/base/packages.py:218-268 | the diagnostic reports exactly what sections, removal rows and transaction rows say |
| AptSimulation.NoInstallIsLost | src/orin_stage/base/packages.py:252-261 | every install row appears in one of the three lists, whatever sections surround it |
| AptSimulation.NoRemovalIsLost | src/orin_stage/base/packages.py:247-250 | every removal row in the first column is reported for removal |
| AptSimulation.ToRemoveCollects | src/orin_stage/base/packages.py:221-250 | the packages reported for removal are exactly what the single lines contribute, each read under the section in force before it |
| AptSimulation.RemovalRowHeardIff | src/orin_stage/base/packages.py:234-250 | when exactly the package of a removal row, at any place of any output, is reported for removal: the row is not indented below a section title, or the section is the removal section and lists the package, or another line says it |
| AptSimulation.IndentedRemovalIsSwallowed | src/orin_stage/base/packages.py:234-244 | a removal row indented below any title but the removal title is lost: the removals reported are those of the output without it |
| AptSimulation.TitleHidesRemovals | src/orin_stage/base/packages.py:228-244 | such a title followed by nothing but indented removal rows reports no removal at all |
| AptSimulation.DiagnosticIsUnique | src/orin_stage/base/packages.py:263-268 | the output determines the diagnostic |
| RemovalGate.ValidateRemovalReport | src/orin_stage/base/packages.py:324-333 | no removal without a policy, and with one only what it lists |
| RemovalGate.ReadSimulation | src/orin_stage/base/packages.py:386-393 | an answer is let through exactly when it ran, can be read, and plans only permitted removals |
| RemovalGate.ParseInstalled | src/orin_stage/base/packages.py:769-786 | the snapshot is the set of installed names, or an error if any line cannot be read |
| RemovalGate.ValidateActualRemovals | src/orin_stage/base/packages.py:789-807 | passes exactly when the packages gone are the expected ones, and lists them in order |
| RemovalGate.Session.SimulateTransaction | src/orin_stage/base/packages.py:352-393 | issues nothing but simulations, and accepts exactly when the last answer is acceptable |
| RemovalGate.Session.InstallLockedPackageSet | src/orin_stage/base/packages.py:810-880 | for any guest: the mutating command is issued at most once and only right after a simulation that equals the lock; on success the locked removals and no others happened, all permitted, and every locked package is there; the removal-without-policy error is unreachable |
| RemovalGate.Session.RemovedAsLocked | src/orin_stage/base/packages.py:852-870 | equal as sets to the locked removals, the actual removals are the same list and permitted |
| RemovalGate.WithoutPolicyNothingIsRemoved | src/orin_stage/base/packages.py:866-872 | without a policy a successful installation removed nothing and ran with removals switched off |
| Chroot.ConstructionChroot.PrepareQemu | src/orin_stage/base/chroot.py:124-134 | when exactly the flag is set and the file is there; wherever it fails, even with a partial copy, what is needed to restore is recorded |
| Chroot.ConstructionChroot.PreparePolicy | src/orin_stage/base/chroot.py:136-145 | the same for the service policy file |
| Chroot.ConstructionChroot.PrepareMarker | src/orin_stage/base/chroot.py:147-163 | the same for the optional marker, except that a marker created by a touch that then raises is leaked: no flag is set |
| Chroot.ConstructionChroot.PrepareResolv | src/orin_stage/base/chroot.py:90-108 | the same for the resolver file, be it a link, a file or missing |
| Chroot.ConstructionChroot.MountAll | src/orin_stage/base/chroot.py:181-197 | mounts are recorded as they succeed, in the fixed order, up to the first that fails; one that mounts and then fails is not recorded |
| Chroot.ConstructionChroot.Enter | src/orin_stage/base/chroot.py:170-203 | preparation succeeds exactly when the host grants every step and no path is taken; otherwise it cleans up, and every protected path is as before exactly when the host's answers restore |
| Chroot.ConstructionChroot.UnmountAll | src/orin_stage/base/chroot.py:240-249 | one unmount attempt for each mount in reverse order, up to the first that raises; the refused ones are reported |
| Chroot.ConstructionChroot.RemoveCreated | src/orin_stage/base/chroot.py:251-272 | the created files go in order up to the first removal that raises, their flags with them |
| Chroot.ConstructionChroot.RestoreResolv | src/orin_stage/base/chroot.py:110-122 | restores the resolver file, or keeps what is needed to restore it later |
| Chroot.ConstructionChroot.Close | src/orin_stage/base/chroot.py:239-279 | what a cleanup leaves of every field and file; it goes through exactly when nothing in it raises, and a raising unmount leaves everything but the log as it was |
| Chroot.CleanupKeepsRestorable | src/orin_stage/base/chroot.py:239-279 | cleaning up never loses what restoring needs, under any answers of the host; one that goes through restores every protected path exactly when no marker was leaked |
| Chroot.AnswersDecide | src/orin_stage/base/chroot.py:124-279 | after any preparation, complete or not, the protected paths are restored if and only if the host's answers satisfy `Restores` |
| Chroot.EnteredLeavesMuch | src/orin_stage/base/chroot.py:251-279 | after a complete preparation they are restored if and only if nothing in the cleanup raises |
| Chroot.OnlyTheMarkerLeaks | src/orin_stage/base/chroot.py:147-163 | with a cleanup in which nothing raises, the leaked marker is the only way to leave something behind |
| Chroot.CleanupIsLogged | src/orin_stage/base/chroot.py:165-168 | mounts and unmounts balance exactly when no mount goes unnoted and no unmount raises |
| Chroot.ConstructionChroot.Session | src/orin_stage/base/chroot.py:170-288 | a whole session, with any guest commands that leave the protected paths alone: exactly when these paths end as they began, and that mounts balance exactly when no mount goes unnoted and no unmount raises |
| Chroot.LeakTheMarker | src/orin_stage/base/chroot.py:162-163 | one broken answer to the touch: the cleanup goes through without complaint and the marker stays |
| Chroot.LeaveMounted | src/orin_stage/base/chroot.py:165-168 | one mount command that mounts and then reports failure: the cleanup goes through without complaint and never unmounts it |
| Chroot.RaiseInUnmount | src/orin_stage/base/chroot.py:241-248 | one broken answer to any of the unmounts: the remaining mounts get no attempt and nothing is restored |
| Receipts.CheckArtifacts | src/orin_stage/acquisition/acquisition_receipt.py:208-235 | the artifact loop accepts exactly one verified file of each construction kind |
| Receipts.ReceiptIsCacheHit | src/orin_stage/acquisition/acquisition_receipt.py:189-255 | a receipt is a hit exactly when it is the named one, lists both artifacts and nothing else, and every listed file verifies |
| ArtifactIndex.SuccessfulReceipts | src/orin_stage/planning/artifact_index.py:56-80 | the receipts used are exactly the valid ones found |
| ArtifactIndex.AddReceipt | src/orin_stage/planning/artifact_index.py:89-119 | one receipt adds its rows to the groups, or stops the build exactly when an artifact is incomplete |
| ArtifactIndex.MakeContent | src/orin_stage/planning/artifact_index.py:121-142 | one hash becomes one entry with the sorted relationships of all its rows, exactly when they agree on the size |
| ArtifactIndex.BuildArtifactIndex | src/orin_stage/planning/artifact_index.py:83-143 | the build succeeds exactly when valid receipts are complete and no hash has two sizes, and yields the index of their rows |
| ArtifactIndex.ConflictIsUnreachable | src/orin_stage/planning/artifact_index.py:121-128 | if no two different files on the disk have one hash, no hash of valid receipts has two sizes |
| ArtifactIndex.BuildFailsOnlyIncomplete | src/orin_stage/planning/artifact_index.py:83-128 | so the build fails exactly when some valid receipt is incomplete |
| ArtifactIndex.IndexIsUnique | src/orin_stage/planning/artifact_index.py:121-143 | rows that are permutations of each other have one index |
| ArtifactIndex.IndexIgnoresReceiptOrder | src/orin_stage/planning/artifact_index.py:56-143 | the order in which receipts are found does not show in the index |
| ArtifactIndex.ArtifactStatus | src/orin_stage/planning/artifact_index.py:192-226 | the nested search answers cached exactly when some relationship fits and its file verifies now, and asks for a decision exactly without sufficient evidence |
| ArtifactIndex.IndexAgreesWithReceipts | src/orin_stage/planning/artifact_index.py:192-226 | the index answers exactly what a direct look at the receipts would: release, kind, filename, target, hash, size and groups match and the file verifies now |
| ArtifactIndex.UnchangedDiskNeedsNoCheck | src/orin_stage/planning/artifact_index.py:192-226 | while the disk is unchanged, being listed by a valid receipt is already enough |
| BaseIdentity.NormalizePackages | src/orin_stage/base/identity.py:73-94 | accepts exactly complete entries with proper hashes, none twice for one architecture |
| BaseIdentity.BuildProjection | src/orin_stage/base/identity.py:37-109 | the projection exists exactly for complete locks and holds the seven target fields, the seed and the sorted packages |
| BaseIdentity.BuildPayload | src/orin_stage/base/identity.py:118-173 | the digest's payload exists exactly for proper digests and one artifact of each kind, and lists their hashes by kind |
| BaseIdentity.BuildBaseDigest | src/orin_stage/base/identity.py:118-176 | the digest of that payload |
| BaseIdentity.ProjectionIgnoresPackageOrder | src/orin_stage/base/identity.py:96-96 | permuting the package entries of a lock changes neither whether it projects nor the projection |
| BaseIdentity.DigestIgnoresArtifactOrder | src/orin_stage/base/identity.py:138-171 | permuting the artifacts keeps the base digest |
| BaseIdentity.EqualDigestIffEqualIdentity | src/orin_stage/base/identity.py:112-176 | base digests are equal if and only if projections, recipes and artifact hashes are, provided the two projections and the two payloads compared do not collide |
| BaseIdentity.SomeDigestsDistinguish | src/orin_stage/base/identity.py:112-176 | for any two identities there are digests of 64 hexadecimal digits for which that proviso holds |
| BaseIdentity.EqualProjectionEqualInputs | src/orin_stage/base/identity.py:37-109 | equal projections hold equal target fields, seeds and package sets |
| BaseReuse.BaseDirectoryIsReusable | src/orin_stage/base/receipt.py:135-203 | the cheap gate accepts exactly the directories in which lock, receipt, manifest and name fit together |
| BaseReuse.FindReusableCandidate | src/orin_stage/base/construction.py:151-201 | finds the first reusable directory for the request by name, exactly when there is one |
| BaseReuse.PublishedIsCandidate | src/orin_stage/base/construction.py:394-419 | what construction publishes passes the gate and fits the request it was built for |
| BaseReuse.SameLockIsCandidate | src/orin_stage/base/construction.py:373-392 | a reusable directory found under the digest of the new lock fits the request, provided the two locks do not collide |
| BaseReuse.Targets.Rename | src/orin_stage/base/construction.py:419-419 | the one write to the published directories: it adds exactly one directory, never in the place of one that holds any part of a base, or changes nothing |
| BaseReuse.Targets.EnsureBase | src/orin_stage/base/construction.py:236-431 | reuse or build: the directory answered is a reusable base for the request, unless the lock found under the new digest collides with the requested one; if one was there before, nothing is built, installed or published; a build writes exactly once, by such a rename, and a reuse or an error never, whatever other processes publish meanwhile |
| BaseReuse.EqualBasesIffEqualInputs | src/orin_stage/base/receipt.py:135-203 | two reusable bases have one digest if and only if they are bases of one projection, one recipe and the same pair of artifacts, provided their identities do not collide |
| Sorting.SortIgnoresOrder | src/orin_stage/base/packages.py:214-214 | sorting by distinct keys forgets the input order; behind the transaction rows, the package projection and the index |
| Sorting.GatherPermutes | src/orin_stage/planning/artifact_index.py:89-119 | rows gathered from a permuted list are a permutation of the rows |
| Sorting.SortSet | src/orin_stage/base/packages.py:263-268 | a set is listed ascending, each element once |

## Left out

- Lifecycle.Next: operations that the source writes as statements are steps of one transition system here, because another process or a kill may come between any two of them; only the directory scans keep their loops.
- Podman, QEMU, sudo, GNU tar, APT and SDK Manager: each call is a step with any outcome.
- JSON and YAML text, the JSON Schema library, the format-version fields of workspace metadata and operation receipts: the model works on parsed records.
- The regular expressions that classify output lines and staging names, and the shell splitter: lines and names come classified.
- The digest functions: one function for each kind of record instead of SHA-256 over its canonical rendering.
- fsync, power loss, clocks, file permissions other than the modes compared by the parity validation, and the texts of errors.
- Symbolic links and special files in the places of managed directories (`workspaces/`, `staging/`, `targets/`, the lock directory): they are real directories.
- Selectors that contain a slash or are too long for a file name: opening by id looks only at the names of published directories, and at `.` and `..`.
- Following symbolic links while a hard link's source or a parity path is looked up: lookups are lexical.
- I/O errors while a toolchain archive is extracted, file contents, and the modes set afterwards: success is about paths and links, and names are short enough for the file system.
- Directories whose `lstat` result and listing change while they are measured, and the measurement of shifted trees in a user namespace.
- Writing, loading and validating the persisted index file: it is rebuilt from the receipts.
- Sort keys with a path in them compare the path component by component, not as one string.
- Chroot.ConstructionChroot.Enter: `except Exception` does not catch an interrupt from the keyboard, which would end the preparation without the cleanup; only errors of the steps themselves are modelled.
- Chroot.ConstructionChroot.Run: guest commands leave the five protected paths alone.
- StorageMeasure.Meter.Measure: the recursion limit of the interpreter, which a very deep tree would exceed; the recursion ends for every finite tree.
- The APT source files of the construction, the archive verification inside the gate (a free choice there), the runtime validation and the manifest rows.
- BaseReuse.Targets.EnsureBase: the staging directory of a build and the choice between several roots; publication is one rename, and other processes may do anything to the published directories up to that rename, but not during it.
- The planner, the catalog, the command line, the doctor report, the privileged re-execution wrappers and the release tooling: their claims are settled by reading one function.
