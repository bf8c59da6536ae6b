# A verified model of remote-sandbox's synchronization

remote-sandbox keeps a local and a remote directory tree in step. This project models the parts of it
whose correctness is hard to see, and proves what they promise. It is plain Dafny 4.11:
`dafny verify dfyconfig.toml` checks all of it.

| file | what it models |
|---|---|
| `Entries`, `Reconcile`, `Planning` | fingerprints, the three-way planner, and fetching hashes on request |
| `Trees`, `Finalize`, `ProtectedRoot` | path trees, batches of installs and deletions, moving a staged batch into place, verified deletion and replacement of one entry |
| `Cycle`, `Engine`, `CycleExample`, `EngineExample` | one sync cycle: its effect on every path, the engine that has it, and inputs on which it stumbles |
| `Expectations` | the table of expected echoes, and when it hides a change |
| `Audit`, `Recovery` | the audit-signature cache, and starting again after a crash |
| `EditSafety`, `EditLoss` | user writes racing with cycles on one path |
| `Conflicts` | conflict capture and the conflict table |
| `Journal`, `RemoteStore`, `WorkspaceJournal`, `EventProtocol` | event coalescing, both journals, and the acknowledgement protocol between them |
| `ShellParser`, `ShellStream` | the streaming parser of managed shell output |
| `Debounce`, `SnapshotDiff` | the local watchers |
| `MutationQueue` | the supervisor's queue of mutation requests |

Classes whose methods change their fields are classes here too, with their methods proved against
functions or predicates on the state; pure code is functions. Protocols with several parties are state
machines over the regions that a lock or a transaction makes atomic, and their theorems quantify over
all runs.

## What the proofs found

- Parsing is independent of how the stream is cut **exactly when** the prompt-slot sentinel does not
  occur in the nonce. An ESC or `[` in the nonce alone does no harm.
- An unsynced write can be lost. The engine takes the new base from a second read of the destination
  (`engine.py:420-426`), after the transfer was verified. `EditLoss.ReadDecidesLoss`: after that read and the
  commit an edit can be destroyed that the other side never had, without any further race, **exactly when**
  the source has never held the content that was read. `EditLoss.CheckedReadIsSafe`: comparing it with what
  was transferred would exclude this; `EditLoss.SecondCycle` builds such a history from any two files.
- Two undisturbed cycles in a row are not always idempotent. `Cycle.SecondCycle` has the exact condition: the
  second one carries out directory deletions that were put off for a conflict closed by the first one,
  records the conflicts whose capture failed in the first one, and tries again what was left undone. Nothing
  else ever happens in it.
- A change can be hidden until the next audit. A report is swallowed when the path is found as the engine
  expects it (`engine.py:671`), and an expectation outlives later changes of its path (`engine.py:513-519`).
  `Expectations.HiddenExactly`: a disagreement goes unnoticed **exactly when** every side that reports the path
  meets its expectation, and one of these is not the base content. `Expectations.CommitKeepsHolding`: a table
  that holds base content goes on doing so **exactly when** no expectation of a side is overtaken by a change of
  that side. `Expectations.ADeletionCanBeHidden`: the engine deletes a local file, the user makes a new one before
  the deletion is reported, and then deletes that one; the last deletion is never carried over.
- Deleting a symbolic link never reaches the remote side. Its fingerprint carries the length of the target as
  size (`remote_agent/__main__.py:640`), the check before the removal expects none
  (`_transport_remote.py:60-70`), so the link is put back. It stays requeued, its events are never
  acknowledged (`EngineExample.LinkIsNeverDeleted`), and a directory that holds one can never be deleted there:
  the cycle fails every time (`EngineExample.LinkKeepsDirectory`). The local side has no such trouble.
- A conflict can fail to be captured although nobody else writes, and then stays requeued. The capture
  compares fingerprints, and that of a directory carries its modification time. `Cycle.CaptureFailure`: it
  fails **exactly when** the cycle itself, on one side, created a directory at the path, or created, replaced
  or deleted an entry directly in a directory at the path.
- An undisturbed cycle commits **exactly when** no path it has to look at (requeued, in conflict or named by
  an event) lies below a local non-directory, no transferred path has a non-directory above it at the
  destination, and everything in a directory it deletes goes with it. The two sides are not alike here:
  looking below a file raises an error on the local side and finds nothing on the remote side. A directory
  that the local user replaces by a file therefore stops the synchronization until the user intervenes
  (`EngineExample.NotObservable`), as does a file in the way of a transfer (`EngineExample.NotInstallable`).
- Permission bits of directories are compared by the audit but not transferred: a directory whose bits differ
  on the two sides is requeued again after every cycle (`Engine.ModesStayRequeued`).
- A polling watcher's events can show a new file below a path that still looks like a file: creations come
  before modifications. The paths above are always there; `SnapshotDiff.EveryMomentIsATree` says when the
  moments are proper trees.
- Superseded file events need no chains: an accepted event is followed by its own emission, a rescan, or the
  emission of one event on a line with it (`Debounce.NothingIsDropped`), because an event that supersedes
  another is emitted at once, unless it only takes in a deletion or move below it.
- Removing a timed-out mutation request from its queue compares whole requests. It removes the right one
  only because the request is marked as cancelled first.

## Assumptions

- Paths are canonical lists of components; `is_ignored` is an arbitrary predicate. Hashing is injective:
  equal hashes are equal content. Base entries of regular files carry a hash.
- A transfer's last check of its two sides and its install are one step. In `Engine` and `Cycle` nobody
  else writes during the cycle; `EditSafety` lets users write between any two steps, on one path.
- A delivered entry has the content of its source, and transfers and deletions fail only for what the trees
  show. In particular staging directories are on the file system of the replica (a copy across file systems
  loses the time that a verified transfer compares), and no two files of one push are hard links of each other
  (staging the first changes the change time that is compared for the second, `_transport_paths.py:540-554`).
- A directory's modification time changes when an entry directly in it is created, replaced or deleted.
  `Cycle.CaptureFailure` and `Cycle.SecondCycle` take the times a cycle leaves on directories to be times they
  did not carry before, on the replica or in an open record.
- Where an entry is taken for the base entry on size, time and mode, the content is the same. `Recovery`
  does not need this.
- Every write stamps a change time, device and inode never seen before at its path, and a present entry
  always has all three.
- Names drawn at random are fresh.
- The event callback of a watcher does not fail.

## Model

| member | source | states |
|---|---|---|
| `Reconcile.ThreeWayMerge` | src/remote_sandbox/reconcile.py:95-203 | with full observations the decision is a three-way merge by content: for each outcome, the exact condition under which it is taken, and the content the base gets; special entries are left alone, a changed placeholder is a conflict before anything else, and an unchanged one stays a placeholder |
| `Reconcile.SidesAreAlike` | src/remote_sandbox/reconcile.py:118-203 | exchanging the two sides exchanges push with pull, the two deletions, and the sides of a conflict or hash request, and changes nothing else |
| `Reconcile.BuildIncrementalPlan` | src/remote_sandbox/reconcile.py:95-151 | the loop files exactly one decision per dirty path that is not ignored: the plan holds those actions, conflicts, warnings and hash requests and no others |
| `Planning.OneRoundSuffices` | src/remote_sandbox/_engine_planning.py:27-50 | whatever the hashers report, no path asks for a hash a second time |
| `Planning.SatisfyHashRequests` | src/remote_sandbox/_engine_planning.py:27-50 | the round refreshes exactly the requested paths and the new plan has no hash request left, so the error for unresolved hashes cannot be raised |
| `Planning.StrengthenDeletionTargets` | src/remote_sandbox/_engine_planning.py:53-82 | refreshes exactly the unhashed deletion targets; afterwards every regular file to be deleted carries its hash and no hash request has come back |
| `Planning.DeletesAreIdentified` | src/remote_sandbox/_engine_planning.py:53-82 | per path: after the deletion round a decision never deletes a file known by metadata only, whatever hashing reported |
| `Planning.LazyRefinesEager` | src/remote_sandbox/_engine_planning.py:27-82 | hashing on request decides as hashing everything does, except that a base update may become no change: exactly when both sides agree and one was trusted on its metadata |
| `Planning.TransferSourcesAreIdentified` | src/remote_sandbox/reconcile.py:239-282 | a push or pull always has its source identified by hash, link target or kind |
| `Engine.SyncEngine.RunOnce` | src/remote_sandbox/engine.py:157-237 | one cycle: the audit is called exactly by a rescan or a moved directory; which paths are dirty, and that a plain report of a path not found exactly as expected makes it dirty; it commits exactly when no path it has to look at lies below a local non-directory, nothing but directories is above a transferred path at its destination, and everything in a deleted directory goes with it, which on the remote side a symbolic link never does; a commit has the specified effect on base, replicas, requeues and conflicts, and acknowledges its events exactly when no capture failed and no deletion was left undone; the refresh after it requeues the completed paths that do not match and stores the signatures of those that do |
| `Engine.SyncEngine.CollectDirty` | src/remote_sandbox/engine.py:157-195 | what the audit finds is added exactly when there is a rescan, a move of what the base has as a directory, or a move to a directory while all local destinations can be looked at; everything mentioned is looked at first, which succeeds exactly when nothing mentioned lies below a local non-directory; the dirty paths are then the requeued ones, the open conflicts, and those named by a side unless a plain event of that side names them and the state there is exactly the expected one; hashed to tell are exactly the plain reports where a regular file is expected |
| `Engine.DirtyPathsAre` | src/remote_sandbox/engine.py:171-195 | reading the dirty set off the coalesced events gives the same paths as the raw events: a path named by a side is dropped for that side exactly when it is not requeued, a plain event of that side names it, and its state there equals the expectation, even if a move names it too |
| `Engine.AuditIsCalled` | src/remote_sandbox/engine.py:244-290 | the coalesced events call for an audit exactly when the raw ones do |
| `Engine.SyncEngine.PlanDirty` | src/remote_sandbox/engine.py:178-230 | the plan is made on the metadata of the dirty paths, with hashes from the start for what is requeued and for what may be the echo of a regular file |
| `Engine.SyncEngine.PlanCycle` | src/remote_sandbox/engine.py:200-230 | planning with both hash rounds gives every path its lazily hashed decision |
| `Engine.SyncEngine.ConflictingDirectoryDeletes` | src/remote_sandbox/engine.py:570-593 | puts off exactly the directory deletions with a planned or open conflict at or below them |
| `Engine.SyncEngine.ChangeReplicas` | src/remote_sandbox/engine.py:377-475 | pushes, pulls and deletions succeed exactly when the plan is feasible, and then leave each replica with the delivered items, the directories created above them, without the deleted paths except symbolic links on the remote side, and with new times on the directories worked in |
| `Engine.SyncEngine.CommitBase` | src/remote_sandbox/engine.py:476-511 | base entries change for completed paths only: to what was read back from the destination, to the planned base, or to nothing |
| `Engine.SyncEngine.CommitConflicts` | src/remote_sandbox/engine.py:482-539 | conflicts of completed paths are closed, captured ones opened, and exactly the put-off and undone deletions and the conflicts one of whose sides has changed stay requeued; the events are acknowledged exactly when there is none of the latter two |
| `Engine.SyncEngine.ExecuteAndCommit` | src/remote_sandbox/engine.py:346-557 | once planned, commits exactly when the plan is feasible, and acknowledges exactly when it commits, no capture failed and no deletion was left undone; without a commit no table changes |
| `Engine.SyncEngine.RefreshCompleted` | src/remote_sandbox/engine.py:558-558 | the refresh after the commit fails exactly when a completed path lies below a local non-directory; otherwise it requeues exactly the completed paths that do not match the new base on both sides, and stores the signatures of the sides that do |
| `Engine.RefreshRequeues` | src/remote_sandbox/_engine_audit.py:136-167 | the refresh requeues a completed path exactly when it is a directory whose permission bits differ from the base on one side |
| `Engine.ModesStayRequeued` | src/remote_sandbox/_engine_audit.py:136-167 | a directory whose permission bits differ on the two sides is requeued by the refresh of every cycle that decides about it, and the sides differ as before |
| `Engine.TransferBatch` | src/remote_sandbox/_transport_paths.py:174-235 | installs a batch one by one and succeeds exactly when every item could be installed at the start: earlier items of a batch neither make nor remove obstacles |
| `Engine.CaptureConflicts` | src/remote_sandbox/engine.py:482-488 | a planned conflict is recorded when both sides still match it and requeued otherwise |
| `Engine.CapturesAreExact` | src/remote_sandbox/engine.py:675-698 | within an undisturbed cycle the capture of a planned conflict, which compares with what was planned, succeeds exactly when neither side has changed at all since |
| `Engine.DeletionsFindWhatWasPlanned` | src/remote_sandbox/_transport_fingerprint.py:605-617 | at the turn of a planned deletion, whatever was installed before and deleted earlier in the batch, what is there matches what was planned: the same entry, or a directory of the same mode with a new time |
| `Cycle.CaptureFailure` | src/remote_sandbox/engine.py:675-698 | in an undisturbed cycle the capture of a conflict fails exactly when, on one side, the cycle created a directory there, or created, replaced or deleted an entry directly in a directory there; then the path is requeued and its record, if any, stays, and otherwise the conflict is on record as it is |
| `Cycle.DecisionMeaning` | src/remote_sandbox/reconcile.py:154-203 | what each lazily hashed decision says about the content of both sides and the base |
| `Cycle.CompletedAgrees` | src/remote_sandbox/engine.py:377-511 | every completed path, which a deletion left undone is not, is left with the same content on both sides and in the base |
| `Cycle.CycleSettlesEverything` | src/remote_sandbox/engine.py:346-568 | if every path not in agreement is dirty, a committed cycle leaves every path that is not ignored agreed, in conflict, requeued or special |
| `Cycle.CycleAccounting` | src/remote_sandbox/engine.py:495-541 | every dirty path is ignored, completed, in conflict, special, unchanged or requeued; a requeue is dropped only for a settled path; no directory holding a conflict is deleted; a deletion left undone changes neither side nor the base; requeued are exactly the deletions put off or left undone and the conflicts one of whose sides changed, and no conflict is opened or closed but by the plan |
| `Cycle.SecondCycle` | src/remote_sandbox/engine.py:346-593 | a second undisturbed cycle transfers nothing; its new conflicts are exactly those whose capture failed in the first and whose sides still differ; it deletes exactly what the first put off whose counterpart is still missing and within which there is neither an open nor a new conflict, and tries and leaves undone again exactly what the first left undone |
| `Cycle.HeldPathStays` | src/remote_sandbox/engine.py:377-511 | a path that is not completed keeps its base entry, and each side is left exactly as held: unchanged, except that a directory appears where something is installed below and the other side has one, and that a directory worked in has a new time |
| `CycleExample.SecondCycleDeletes` | src/remote_sandbox/engine.py:570-593 | for every top-level directory and any path directly in it there are two undisturbed cycles of which the second deletes the directory, and there is such a directory: idempotence needs the condition of `Cycle.SecondCycle` |
| `CycleExample.DirectoryConflictComesLater` | src/remote_sandbox/_transport_fingerprint.py:484-491 | for every top-level directory replaced by a file on the remote side: deleting the file in it changes its time, so its conflict is requeued unrecorded and is new to the second of two undisturbed cycles |
| `CycleExample.CreatedConflictIsRequeued` | src/remote_sandbox/engine.py:841-855 | for every file deleted locally and replaced by a directory on the remote side: the pull of what is in the directory creates it, so its conflict is requeued unrecorded |
| `Expectations.EchoTable.Commit` | src/remote_sandbox/engine.py:513-519 | writing down intents and read-back states and taking out what was swallowed or left undone, entry by entry as the store does it, gives the specified table |
| `Expectations.EchoAt` | src/remote_sandbox/engine.py:513-519 | after a commit what was put on a side is expected there as it was read back, unless its report was swallowed meanwhile; nothing is expected of a deletion left undone; any other expectation stays until it is swallowed |
| `Expectations.HiddenExactly` | src/remote_sandbox/engine.py:625-674 | with every change reported, a path in disagreement is not dirty exactly when each side that names it has its report swallowed and one of those expectations has not the base content |
| `Expectations.NothingIsHidden` | src/remote_sandbox/engine.py:171-195 | with every change reported and all expectations holding base content, every path in disagreement is dirty |
| `Expectations.CommitKeepsHolding` | src/remote_sandbox/engine.py:513-519 | after a commit all expectations hold base content again exactly when none of a side was outstanding at a path completed with new content by a change of that side |
| `Expectations.ADeletionCanBeHidden` | src/remote_sandbox/engine.py:513-519 | for every file in a top-level directory: from a table that holds base content and with everything reported, an undisturbed cycle, and after it a local deletion that is reported and yet not dirty |
| `EngineExample.NotObservable` | src/remote_sandbox/_transport_fingerprint.py:393-416 | for every top-level directory replaced by a file on the local side, with the file that was in it requeued: the plan would be feasible, but the cycle fails before planning, whatever its events are |
| `EngineExample.NotInstallable` | src/remote_sandbox/_transport_paths.py:174-235 | for every name new on both sides, a directory with a file here and a file there: everything can be looked at, but the plan is not feasible |
| `EngineExample.LinkIsNeverDeleted` | src/remote_sandbox/_transport_remote.py:134-193 | for every symbolic link at the root deleted by the local user: the cycle commits, but the link stays on the remote side and in the base, is requeued and nothing is acknowledged, and so in every later cycle |
| `EngineExample.LinkKeepsDirectory` | src/remote_sandbox/_transport_remote.py:134-193 | for every top-level directory with a symbolic link in it deleted by the local user: everything can be looked at, but no cycle can commit |
| `EngineExample.TroubledCyclesCommit` | src/remote_sandbox/engine.py:377-475 | the two cycles whose conflict is left unrecorded have feasible plans, so they do commit |
| `Recovery.Restart` | src/remote_sandbox/daemon.py:512-524 | after any run of writes, commits, audits, refreshes and crashes: the audit of a restart requeues exactly the paths that differ from the base on one side in kind, content, size, time or mode of a regular file, link target, or permission bits of a directory; the cycle plans from there unless something it has to look at lies below a local non-directory; it commits exactly when it has planned and the plan is feasible; then every path that is not ignored is agreed, in conflict, requeued or special, with metadata trusted nowhere; and committed or not, what is stored afterwards continues the run |
| `Recovery.UndriftedAgrees` | src/remote_sandbox/_engine_audit.py:50-134 | a path an undisturbed audit does not requeue holds the base content on both sides |
| `Recovery.CycleIsCommit` | src/remote_sandbox/engine.py:377-511 | a committed cycle is a commit step of the audit cache's runs: every base entry it changes was decided on what each side held and is what was planned or read back |
| `Recovery.RestartContinues` | src/remote_sandbox/engine.py:476-568 | audit, cycle and refresh of a restart are steps of a run, whether or not the cycle commits and the refresh succeeds |
| `Audit.SparingChangesNothing` | src/remote_sandbox/_engine_audit.py:86-128 | an audit that skips hashing on a stored signature flags a path exactly when its fields differ from the base in full, with the metadata as at the snapshot and the content as at the observation used, whatever is written in between |
| `Audit.AuditMissesNothing` | src/remote_sandbox/_engine_audit.py:50-134 | for a whole audit of one side: the paths found are exactly those a hash-everything audit flags |
| `Audit.CacheStaysSound` | src/remote_sandbox/_engine_audit.py:50-167 | over every run of writes, commits, audits and refreshes from an empty cache, a stored signature still on disk belongs to the base content |
| `Audit.CommitKeepsSound` | src/remote_sandbox/engine.py:377-511 | a committed base update never leaves a stored signature that vouches for other content: the side that changed carries a new signature |
| `Audit.AuditKeepsSound` | src/remote_sandbox/_engine_audit.py:85-134 | what an audit stores vouches for base content even if the path was written again before it stores it |
| `Audit.SettledIsSpared` | src/remote_sandbox/_engine_audit.py:86-128 | while nobody writes, the next audit hashes nothing where this one found no drift, and finds the same drift where it did |
| `Audit.QuietVerdict` | src/remote_sandbox/_engine_metadata.py:134-149 | while nobody writes, a path drifts exactly when it differs from the base: another kind, another hash, size, time or mode of a regular file, another link target, other permission bits of a directory, any other special entry; a placeholder drifts locally unless unchanged and remotely unless a regular file has its hash; an unchanged path never drifts; what does not drift is stored under the signature it has |
| `Audit.QuietAudit` | src/remote_sandbox/_engine_audit.py:50-134 | the same of the verdicts of a whole audit with a sound cache, for every path whose base entry is no placeholder |
| `Audit.RefreshKeepsSound` | src/remote_sandbox/_engine_audit.py:136-167 | the same for the refresh after a commit |
| `Audit.AuditCoordinator.RecordDrift` | src/remote_sandbox/_engine_audit.py:50-134 | requeues exactly the paths whose verdict on either side is drift, and updates exactly the signatures of the settled ones |
| `Audit.AuditCoordinator.Refresh` | src/remote_sandbox/_engine_audit.py:136-167 | stores the signatures of the matching sides and requeues a path unless both sides match |
| `Audit.AuditSide` | src/remote_sandbox/_engine_audit.py:57-128 | both passes together give every path its verdict, including paths named by neither snapshot, base nor cache |
| `Audit.HashDoubts` | src/remote_sandbox/_engine_audit.py:119-128 | of the doubtful paths exactly those whose hash differs from the base drift |
| `Audit.AuditIsStep` | src/remote_sandbox/_engine_audit.py:129-134 | what the coordinator does to one side is an audit step of a run, for observations made at any moments |
| `Audit.RefreshIsStep` | src/remote_sandbox/_engine_audit.py:136-167 | what the refresh does to one side is a refresh step of a run |
| `EditSafety.NoUnsyncedEditDestroyed` | src/remote_sandbox/transport.py:829-863 | in every run of user writes, cycles and crashes, whatever a sync step destroys equals the base entry; while every destination read before a commit showed content the source has held, the base is content both sides have held and nothing destroyed is unknown to the other side |
| `EditLoss.ReadDecidesLoss` | src/remote_sandbox/engine.py:420-426 | for every reachable world with a verified transfer and nothing lost so far: after the read and the commit some continuation, with every later read showing content its source has held, destroys what the other side never held, exactly when the source has never held the content read |
| `EditLoss.CheckedReadIsSafe` | src/remote_sandbox/engine.py:420-426 | a read that has the content that was transferred excludes every such continuation |
| `EditLoss.SecondCycle` | src/remote_sandbox/engine.py:420-426 | for any file, delivered copy, later edit of the copy and second delivery: a reachable world in which the edit was overwritten although the other side never held it |
| `EditSafety.StepKeepsInv` | src/remote_sandbox/engine.py:378-475 | every step keeps: planned replacements hit nothing but the base entry, and bases come from content that was held |
| `EditSafety.QuietCycleMerges` | src/remote_sandbox/engine.py:378-518 | a cycle that nobody disturbs carries the change of one side over to the other side and the base, changes nothing where both sides changed, and leaves a link on the remote side that the local side deleted |
| `EditSafety.ChecksDecideTheBase` | src/remote_sandbox/engine.py:415-475 | after an install, a verification or a removal the base is taken over exactly when the source has stayed as it was moved and the destination is there with its content, when it is there at the read, or when it is still gone; a read right after the verification shows nothing the source has not held |
| `EditLoss.AnEditCanBeLost` | src/remote_sandbox/engine.py:420-426 | a reachable world in which a write of one side was destroyed although the other side never held it: the destination changed between the transfer and the read |
| `Conflicts.PrepareConflict` | src/remote_sandbox/engine.py:675-698 | a capture succeeds exactly when both sides match the plan and both blobs are what the observations describe: the bytes of a regular file by length and digest, the target of a link, nothing for anything else; it keeps the blobs, an empty one if there was none |
| `Conflicts.RepairKeepsNewest` | src/remote_sandbox/state.py:845-868 | on an arbitrary table the repair closes, with the current time, exactly the open records of which another open one of the path was created later, or at the same time under a greater identifier; all else is untouched, and each path that had an open record keeps one |
| `Conflicts.NewestOpen` | src/remote_sandbox/state.py:845-868 | every path with an open record has a newest one by creation time and identifier |
| `Conflicts.ConflictTable.Migrate` | src/remote_sandbox/state.py:814-868 | opening a store on any table establishes at most one open record per path |
| `Conflicts.ConflictTable.CreateConflict` | src/remote_sandbox/state.py:697-752 | the new record is the only open one of its path; all other records are untouched |
| `Conflicts.ConflictTable.ResolveConflictsForPath` | src/remote_sandbox/state.py:791-807 | closes the open record of a path, if any, with the given time, reports at most one, and touches nothing else |
| `Conflicts.ConflictTable.ResolveConflict` | src/remote_sandbox/state.py:772-789 | closes one record without moving an earlier resolution time; an unknown identifier is reported and changes nothing |
| `Journal.CoalesceEvents` | src/remote_sandbox/journal.py:48-72 | the coalesced list has a stand-in for every event not superseded, an original for each of its events, and per path the merger of all reported kinds, in journal order |
| `Journal.CoalescingKeepsPresence` | src/remote_sandbox/journal.py:48-72 | reading the coalesced list says about every path of every side what the raw list says |
| `Journal.CoalescingKeepsNames` | src/remote_sandbox/journal.py:48-72 | the coalesced list names the same paths of the same sides |
| `Journal.MergedKindMeaning` | src/remote_sandbox/journal.py:62-72 | a merged event is a deletion exactly when the last one is, and a creation exactly when only modifications follow a creation that does not follow a deletion |
| `Journal.DirtySources` | src/remote_sandbox/_engine_events.py:9-22 | the dirty sources are those of the raw events: coalescing changes none |
| `RemoteStore.StepExtends` | src/remote_sandbox/remote_agent/store.py:180-259 | no operation renumbers, drops or moves an entry or changes one at or below the delivered or the acknowledged watermark; watermarks only rise |
| `RemoteStore.ReadsAreFinal` | src/remote_sandbox/remote_agent/store.py:206-234 | over every run, whatever a reader was given for a sequence is what the journal holds for it for ever, so any two readers agree |
| `RemoteStore.ProtectedForever` | src/remote_sandbox/remote_agent/store.py:438-498 | an entry at or below a watermark is never changed by any later run |
| `RemoteStore.MergingRefinesRawLog` | src/remote_sandbox/remote_agent/store.py:438-498 | after every run the merged journal says about each path, and about rescans, what the raw log of all reports says |
| `RemoteStore.StoredKindMeaning` | src/remote_sandbox/remote_agent/store.py:590-602 | in every run a path entry is a deletion exactly when the last report merged into it was one, a creation exactly when the first was one and none a deletion, else a modification; moves and rescans are never merged |
| `RemoteStore.BacklogStaysCompact` | src/remote_sandbox/remote_agent/store.py:438-498 | among undelivered entries there is at most one rescan and at most one plain event per path between moves touching it |
| `RemoteStore.RemoteStore.AppendEvent` | src/remote_sandbox/remote_agent/store.py:180-204 | appending in place is the specified merge or insertion and returns the entry as stored |
| `RemoteStore.RemoteStore.EventsAfter` | src/remote_sandbox/remote_agent/store.py:206-234 | returns the entries after a sequence, up to the limit, and raises the delivered watermark to the last one |
| `RemoteStore.RemoteStore.AcknowledgeThrough` | src/remote_sandbox/remote_agent/store.py:243-259 | refuses a sequence that was never allocated and never lowers the watermark |
| `WorkspaceJournal.RecordContinues` | src/remote_sandbox/state.py:246-280 | rows that continue a dense log and agree with it where they overlap are recorded without complaint, change no recorded entry and leave no gap |
| `WorkspaceJournal.RecordIsIdempotent` | src/remote_sandbox/state.py:246-280 | recording the same rows again changes nothing |
| `WorkspaceJournal.JournalTable.RecordEvents` | src/remote_sandbox/state.py:246-280 | records in place or raises the error for a changed sequence, leaving the table as it was |
| `WorkspaceJournal.JournalTable.AppendEvent` | src/remote_sandbox/state.py:219-244 | a local event is stored with its kind, path and destination under the next sequence of its side, and nothing else changes |
| `WorkspaceJournal.JournalTable.PendingEvents` | src/remote_sandbox/state.py:282-296 | returns what lies above both the given sequence and the watermark, in order |
| `WorkspaceJournal.JournalTable.AcknowledgeThrough` | src/remote_sandbox/state.py:298-317 | refuses an unallocated sequence and never lowers the watermark |
| `EventProtocol.NoEventAcknowledgedUnseen` | src/remote_sandbox/engine.py:538-560 | at every point of every interleaving, the lists of the acknowledging cycles put end to end are exactly the journal up to the watermark, everything above it is pending, on the local side both together are the reports as they came, and no sequence error has been raised |
| `EventProtocol.EngineHearsTheReports` | src/remote_sandbox/remote_client.py:416-486 | once everything is acknowledged the engine has been told about each path what the raw reports finally say |
| `EventProtocol.QuietRound` | src/remote_sandbox/engine.py:157-164 | from every reachable state a cycle that nobody disturbs and that acknowledges deals with all reports of both sides so far, and the remote journal is acknowledged to its end |
| `EventProtocol.QuietStream` | src/remote_sandbox/remote_client.py:416-486 | from every reachable state a stream opened anew and not disturbed brings the whole remote journal into the workspace store |
| `EventProtocol.StepKeepsInv` | src/remote_sandbox/remote_client.py:245-280 | every step of watcher, poll, stream, import, listing, commit, acknowledgement, crash and reconnect keeps the protocol invariant |
| `ShellStream.ChunkIndependence` | src/remote_sandbox/shell.py:637-695 | for every nonce: every chunking of every stream gives the same buffer, authorization bit and events up to merging byte runs, exactly when the slot sentinel does not occur in the nonce |
| `ShellStream.SlotInNonceBreaksChunking` | src/remote_sandbox/shell.py:637-695 | the other half: with the sentinel in the nonce a certain stream parses differently when its last byte comes alone |
| `ShellStream.SeparatedIffSlotNotInNonce` | src/remote_sandbox/shell.py:621-635 | no marker prefix occurs inside another exactly when the slot sentinel does not occur in the nonce |
| `ShellStream.Resume` | src/remote_sandbox/shell.py:637-678 | feeding a and then b is parsing a, keeping the rest, and parsing the rest followed by b |
| `ShellStream.RunAccounts` | src/remote_sandbox/shell.py:637-720 | for every nonce and in every run the raw spans of the events and the bytes held back are the bytes fed in; every event is what its span stands for under the authorization in force; plain bytes are a marker that the decoder refuses, an unauthorized sentinel, or contain no marker at all; and held back is only the beginning of a marker or a marker without its end |
| `ShellStream.WholeMarkerIsRefused` | src/remote_sandbox/shell.py:697-720 | a whole marker among the plain bytes has a payload that does not decode: no status, no connect request, and for the prompt neither of the two payloads |
| `ShellStream.SlotAuthorization` | src/remote_sandbox/shell.py:645-720 | for every nonce a sentinel becomes a slot event exactly when a managed prompt precedes it with no other prompt, connect request or slot event in between |
| `ShellParser.FindLongestOverlap` | src/remote_sandbox/shell.py:1100-1105 | the search returns the longest suffix of the data that is a proper prefix of the marker |
| `ShellParser.ShellOutputParser.Feed` | src/remote_sandbox/shell.py:637-678 | feeding in place emits the events and leaves the buffer and bit of the specified parse |
| `ShellParser.ShellOutputParser.Advance` | src/remote_sandbox/shell.py:640-678 | one turn of the loop consumes a front part of the buffer and leaves the parse of the rest |
| `ShellParser.ShellOutputParser.TakeMarker` | src/remote_sandbox/shell.py:648-676 | a complete marker is consumed whole, an incomplete one is left untouched |
| `ShellParser.ShellOutputParser.Flush` | src/remote_sandbox/shell.py:680-685 | what is held back is emitted as plain bytes |
| `Trees.TopLevelOf` | src/remote_sandbox/_transport_paths.py:835-840 | every path of a batch is at or below exactly one top-level path of the batch |
| `Trees.TopLevelPaths` | src/remote_sandbox/_transport_paths.py:835-840 | the result is exactly the paths with no other path of the batch above them |
| `Trees.InstallKeepsClosed` | src/remote_sandbox/_transport_paths.py:717-751 | installing where only directories are above keeps the replica a tree, whatever was installed before |
| `Trees.DeepestFirstEmpties` | src/remote_sandbox/transport.py:1105-1113 | in deepest-first order a directory is empty when its turn comes exactly when everything in it is to be deleted too and not left undone |
| `Trees.DeleteBatch` | src/remote_sandbox/transport.py:457-502 | a batch of deletions, of which symbolic links stay on the remote side, succeeds exactly when everything in a directory of the batch goes with it; it then removes exactly what goes and changes the times of exactly the remaining directories in which a deletion was attempted |
| `Finalize.FinalizeEntries` | src/remote_sandbox/_transport_paths.py:223-235 | renaming the top-level paths into place replaces their subtrees by the staged ones, creates what is missing above and changes the times of exactly the directories in which an entry appears or is replaced |
| `Finalize.FinalizeInstalls` | src/remote_sandbox/_transport_paths.py:223-235 | for a batch that puts directories only where nothing is, the renames leave what installing each item would, including the times of directories |
| `Finalize.PushesStayInside` | src/remote_sandbox/reconcile.py:118-128 | finalizing a planned push keeps every entry the batch does not name, apart from the times of directories in which an entry appears or is replaced |
| `Finalize.PullsStayInside` | src/remote_sandbox/reconcile.py:118-128 | the same for a planned pull |
| `ProtectedRoot.Directory.QuarantineDelete` | src/remote_sandbox/_transport_fingerprint.py:332-384 | for every interference with the leaf and every failing call: only content matching the expectation is removed, anything else survives under the leaf, quarantine or recovery name, and success means the expected entry is gone or was expected missing; undisturbed, it succeeds exactly when the leaf is what is expected, or a directory of the expected mode, and an empty one if a directory, or missing as expected, and otherwise leaves everything as it was; a failed call is never taken for a result, and without one nothing keeps the quarantine name |
| `ProtectedRoot.Directory.RestoreQuarantine` | src/remote_sandbox/_transport_fingerprint.py:620-639 | restoring never overwrites: the entry ends under its own name, or under the recovery name with an error, and stays where it is only if a call fails; undisturbed, the own name is taken exactly when it is free |
| `ProtectedRoot.Directory.InstallAt` | src/remote_sandbox/_transport_paths.py:717-751 | succeeds exactly when no call on its way fails, and then leaves the new entry and nothing else changed; failure leaves the old or the new one if the rollback rename succeeds, never loses the old one, and leaves the temporary name only if removing it fails |
| `Debounce.NothingIsDropped` | src/remote_sandbox/watch.py:286-489 | in every run, once nothing is pending or under way, each accepted event has been followed by its own emission, by a rescan, or by the emission of one event that names a path on a line with it, for a creation or modification a deletion or move at or above its path; and each emission answers an event accepted since the previous one |
| `Debounce.OldTimersNeverEmit` | src/remote_sandbox/watch.py:316-334 | a timer whose generation fired or was cancelled never emits again |
| `Debounce.AcceptIsTidy` | src/remote_sandbox/watch.py:286-314 | accepting an event leaves it owed and stops owing exactly the pending events on a line with it, of creations and modifications only those at or below a path that it deletes or moves; it is due at once exactly when nothing is known of it or its window is over; at most one timer per key is live |
| `Debounce.SupersedesIsTakesPlace` | src/remote_sandbox/watch.py:467-498 | which events supersede which, said of the paths they name |
| `Debounce.NextKeepsInv` | src/remote_sandbox/watch.py:346-403 | every step keeps the debounce invariant |
| `Debounce.WatchdogLocalWatcher.DebounceEvent` | src/remote_sandbox/watch.py:286-314 | the locked region in place is the specified step, with that effect on what is owed |
| `Debounce.WatchdogLocalWatcher.EmitTrailing` | src/remote_sandbox/watch.py:316-334 | a timer emits exactly when it is the live timer of a pending key and events are accepted |
| `Debounce.WatchdogLocalWatcher.CloseDebounce` | src/remote_sandbox/watch.py:346-354 | returns exactly the pending keys, each once, and forgets the rest |
| `Debounce.WatchdogLocalWatcher.ReportUnhealthy` | src/remote_sandbox/watch.py:386-403 | gives up what is pending exactly when it also owes a rescan |
| `Debounce.WatchdogLocalWatcher.RunPeriodicAudit` | src/remote_sandbox/watch.py:452-464 | the same for the periodic audit |
| `MutationQueue.EveryRequestRunsOnce` | src/remote_sandbox/daemon.py:424-453 | in every run ended requests never change, the handler is called for exactly the requests started, completed or failed by it, once each in the order of asking, and nothing starts after the drain |
| `MutationQueue.NextKeepsInv` | src/remote_sandbox/daemon.py:581-614 | the queue always holds exactly the queued requests in order, and each step advances a request only along its life cycle |
| `MutationQueue.RemovesItself` | src/remote_sandbox/daemon.py:439-444 | removing by equality removes the cancelled request itself even among requests for the same thing, because it was marked first |
| `MutationQueue.Supervisor.RequestMutation` | src/remote_sandbox/daemon.py:424-436 | refused exactly after a stop |
| `MutationQueue.Supervisor.TimeOut` | src/remote_sandbox/daemon.py:437-445 | gives up the request only while it is queued, and always finds it in the queue |
| `MutationQueue.Supervisor.TakeNext` | src/remote_sandbox/daemon.py:581-590 | takes the oldest queued request; the error for a request that is not queued is unreachable |
| `MutationQueue.Supervisor.Finish` | src/remote_sandbox/daemon.py:591-603 | the outcome of the handler ends exactly the running request |
| `MutationQueue.Supervisor.FailQueuedMutations` | src/remote_sandbox/daemon.py:605-614 | fails exactly the queued requests and empties the queue; its error is unreachable too |
| `SnapshotDiff.SnapshotEvents` | src/remote_sandbox/watch.py:554-574 | the events are exactly the differences, ordered, and replaying them on the previous snapshot gives the current one |
| `SnapshotDiff.ReplayIsSeenAfter` | src/remote_sandbox/remote_agent/watcher.py:285-304 | what a reader has seen after any number of events |
| `SnapshotDiff.EveryMomentIsParentClosed` | src/remote_sandbox/remote_agent/watcher.py:285-304 | if both snapshots are closed under parents, so is what a reader has seen at every moment |
| `SnapshotDiff.EveryMomentIsATree` | src/remote_sandbox/watch.py:554-574 | for proper trees, every moment is a proper tree exactly if nothing was created below a path that stayed and was no directory before |

## Left out

- Transport preflight and its probing of both sides before a batch, SSH, rsync and tar processes, the agent and its request dispatcher, pidfiles, locks, command line, prompt rendering and the pseudo-terminal loop: input and output without an invariant of their own.
- SQLite, JSON, TOML and real file systems: tables are maps and sequences, a transaction is one step, nested savepoints are not modelled.
- Expectations.EchoTable.Commit: models committed cycles; what a failed cycle leaves in the table, of the intents written down before it, is not modelled. `Engine.SyncEngine.RunOnce` takes the table as an input, so what holds of it holds for any table.
- Engine.SyncEngine.RunOnce: does not model placeholders, the order of dirty paths, the status written, or the run with reason `initial-replay`, which leaves open conflicts out of the dirty paths. What the audit and the refresh see of signatures are inputs.
- Initial synchronization, its resume, placeholder fetching and seeding the base from a transfer.
- Engine.SyncEngine.ChangeReplicas: does not say what a failed batch leaves on the replicas; `Recovery.Restart` allows anything that is a tree.
- Engine.TransferBatch: models staging, verification and install of an item as one step, and one time per directory and replica for the whole cycle; the branch of finalization for batches of directories only creates the same directories one by one.
- Recovery.Restart: nobody writes from the snapshots of the audit to the commit of the cycle; retries after a failed cycle are further runs of it.
- Audit.AuditCoordinator: the local and the remote side are looked over one after the other instead of in one loop; a signature's kind is part of its position in the history.
- EditSafety.NoUnsyncedEditDestroyed: models one path at a time, without the directories above it, and without placeholders.
- Conflicts.ConflictTable.CreateConflict: takes the identifier and the time as inputs, and blobs as captured; reusing a record with the same fingerprints is in `Engine.CaptureConflicts`, which keeps one record per path.
- Conflicts.PrepareConflict: takes the digest and the decoding of link targets as functions, and both observations as inputs.
- RemoteStore.RemoteStore.AppendEvent: leaves out the event's creation time and the refusal of malformed paths.
- WorkspaceJournal.JournalTable.AppendEvent: keeps the greatest sequence as a field instead of computing it by a query.
- EventProtocol.NoEventAcknowledgedUnseen: whether a commit acknowledges is left open (`Engine.Acknowledges` says when it does); connection failures and threads are steps that may happen at any time; waiting times before reopening a stream are not modelled.
- ShellParser.ShellOutputParser.Feed: takes the decoding of exit status and connect payload as functions of the payload.
- Debounce.NothingIsDropped: does not bound how often an event is emitted over a run, and timers may go off at any time; a failing callback loses its event, because the watcher marks it as emitted before it calls; a restart of the watcher waits for the stop to finish.
- ProtectedRoot.Directory.QuarantineDelete: others touch only the leaf's name; writes through a descriptor that is already open are not modelled, nor are parents that are moved away.
- SnapshotDiff.SnapshotEvents: the order among paths of the same depth, in which the two watchers differ, is not modelled.
- MutationQueue.Supervisor.RequestMutation: leaves out the refusal of an empty kind or a missing handler and the time of the deadline; any caller may give up at any time.
- The polling loops around the snapshot comparison, the inotify watch map, backoff and other time-valued behaviour, resource probing, registry, settings and skill installation.
- Path normalization and pattern matching of ignore rules: they rest on libraries.
