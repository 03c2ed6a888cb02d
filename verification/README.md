# Verification of the package subsystem

This project models the package subsystem of the HubiNet Ops integration, together with the host helper it talks
to, and proves what the subsystem promises: across every interleaving of its tasks no safety snapshot is lost,
operations on one guest exclude each other, each mutation carries exact authorization, stale evidence is never acted
on, and every accepted attempt is reported exactly once. `dafny verify dfyconfig.toml` checks all of it.

## What is modelled

The package manager (`packages/manager.py`) keeps dictionaries that its synchronous callbacks read and write between
awaits, while background tasks for Scan, Update, Autoremove, Health and Restore are suspended at awaits and may be
cancelled or pruned there. The model has the same shape.

- `ManagerState.dfy` gives each callback as one atomic step on the dictionaries. `Attempts.dfy` gives the bodies of
  Update and Autoremove one position per await, including those inside the snapshot glue (`packages/snapshots.py`),
  and a ledger of what PVE may still do with the attempt's own snapshot. `ManagerMachine.dfy` adds everything that
  can happen: presses, refreshes, prunes, stop observations, cancellation of any task at any await, executor threads
  entering a queued request, PVE moving on its own, every reply of every awaited operation, and listeners that call
  back into the manager at each notification of the finish path. A run is any sequence of these actions.
- `History.dfy` is the journal of a run. Nothing in the manager reads it; the whole-run statements are about it.
- `ManagerInvariant.dfy` states what holds at every point of every run. The files ending in `Proofs` show that each
  action keeps it, and `ManagerTheorems.dfy`, `ClientTheorems.dfy` and `ProgressTheorems.dfy` state what follows.
  `Reachability.dfy` shows that the protocol can be completed, so none of it holds for want of runs.
- `Starts.dfy`, `Results.dfy` and `Forgetting.dfy` state what each callback does to the records of its target, and that
  it does nothing to any other, without naming the functions that compute it; `Replies.dfy` does the same for the
  replies a run body is resumed with. `LiveRecords.dfy` shows that no record is left running without its task, and
  `Followers.dfy` when an Easy Update continuation waits, starts its Autoremove or gives up.
- `PackageManager.dfy` is the manager as an object with fields that its methods update in place, the busy checks,
  prune and stop observation as the loops they are. Every method is proved to do what the step of the same name
  does, so a run of the object is a run of the state machine. The eight dictionaries of package truth are grouped in
  one field and the four task dictionaries in another.
- `Sequences.dfy`, `Inventory.dfy`, `Simulations.dfy` and `Removals.dfy` are the strict dpkg and APT parsers with
  their loops, and the helper's own two inventory readers; `PrintedLines.dfy` shows that a line is read as a change,
  removal, summary or row exactly when it is that one printed. `Health.dfy` follows a Health check from a guest that keeps changing to its
  verdict. `Transport.dfy`, `RestoreGlue.dfy`, `Polling.dfy`, `Deadlines.dfy` and `TlsEof.dfy` cover response
  classification, Restore outcomes, task polling, the helper's shared deadline and the search for a TLS EOF.

## What is assumed

- Readings of the clock, scan tokens and attempt identities are distinct and increase; they are drawn from one
  supply. An attempt's acceptance time is also the identity of its record object.
- A task runs to its first await when it is created, and a cancelled executor job that no thread has entered never
  is. A cancelled task is resumed by the cancellation and by nothing else.
- What PVE answers is constrained only by `Attempts.Possible`: a value comes back only from a request that was
  entered, a task whose status field says "stopped" creates nothing more, and a listing whose rows can all be read has
  a row carrying the name of every snapshot that is present. `Attempts.NamedUnlessSeenAbsent` and
  `Attempts.ClaimsExactly` need none of this.
- Listeners re-enter only at the notifications of the finish path, and there they make calls but do not refresh or
  prune. The start paths notify before their record reads RUNNING, and no exclusion is claimed for listeners there.
- Every refresh of the coordinator and every state change of the manager reaches the listeners of a continuation.
- `dpkg --audit` reads the database first and tests its lock only if what it read shows a problem.
- One command's clean-up waits at most twice five seconds.

## Model

| member | source | states |
|---|---|---|
| `ManagerTheorems.InvHolds` | custom_components/hubinet_ops/packages/manager.py:214-1750 | every state that any run of actions reaches from a new manager satisfies the invariant, whatever the outside replies, cancels, prunes or presses |
| `ManagerTheorems.StepKeeps` | custom_components/hubinet_ops/packages/manager.py:214-1750 | each single action (press, refresh, prune, stop observation, cancellation, PVE moving, executor entry, wake-up of any task) keeps the invariant |
| `ManagerTheorems.OneOwnerPerGuest` | custom_components/hubinet_ops/packages/manager.py:321-341 | in every reachable state at most one of running Scan, Update, Autoremove and Restore reservation exists for a VMID across all node keys, and a running Health excludes the first three |
| `ManagerTheorems.SectionsStayBounded` | custom_components/hubinet_ops/packages/manager.py:272-273 | in every reachable state at most two live scans are inside the scan section and at most one live attempt inside the mutation section |
| `ManagerTheorems.NoSnapshotIsLost` | custom_components/hubinet_ops/packages/manager.py:808-955 | in every run, as long as an ended attempt's snapshot exists or may still be created, its report names it and sets exactly one of retained and uncertain; retained implies a listing confirmed it complete |
| `ManagerTheorems.OutcomesAreSound` | custom_components/hubinet_ops/packages/manager.py:845-955 | a reported outcome that promises an untouched guest implies the mutation was never requested, one that admits a mutation implies it was requested exactly once, and success is the success outcome |
| `ManagerTheorems.ReportedExactlyOnce` | custom_components/hubinet_ops/packages/manager.py:907-988 | every accepted Update or Autoremove is either still a live task without a report or was reported exactly once, however it ended |
| `ManagerTheorems.NoResurrection` | custom_components/hubinet_ops/packages/manager.py:1310-1325 | an attempt whose stored record is no longer its own ends by reporting and changes no dictionary and no task of its target |
| `ManagerTheorems.HistoryIsJustified` | custom_components/hubinet_ops/packages/manager.py:706-785 | every event of every run's history was justified by what the history held before it |
| `ManagerTheorems.AcceptedOnce` | custom_components/hubinet_ops/packages/manager.py:755-782 | no two acceptances of a run carry the same attempt identity |
| `ManagerTheorems.MutationWasAuthorized` | custom_components/hubinet_ops/packages/manager.py:810-848 | each mutation request follows its acceptance, the confirmation of the exact token of one published scan (or the shown cleanup evidence), a fresh plan with exactly those rows and, unless skipped, a snapshot confirmed complete |
| `ManagerTheorems.AuthorizedAtMostOnce` | custom_components/hubinet_ops/packages/manager.py:649-679 | one confirmed token authorizes at most one Update and one cleanup observation at most one Autoremove; no attempt requests its mutation or reports twice |
| `ManagerTheorems.OnlyOwnSnapshotsAreDeleted` | custom_components/hubinet_ops/packages/snapshots.py:270-305 | a deletion is submitted only for a name the same attempt created and confirmed, after its mutation was requested and the guest answered |
| `ManagerTheorems.ViewedTokensAreCurrent` | custom_components/hubinet_ops/packages/manager.py:681-704 | a stored viewed token is always the token of the current non-empty successful scan, and approving it approves that scan |
| `ManagerTheorems.EvidenceIsFresh` | custom_components/hubinet_ops/packages/manager.py:1645-1702 | stored cleanup evidence is never fenced, never beside running package work of its key, and nothing has disturbed its target since it was requested |
| `ManagerTheorems.NoStaleAutoremove` | custom_components/hubinet_ops/packages/manager.py:991-1060 | no Autoremove is ever accepted on evidence that a stop, prune or Restore invalidation of its target overtook |
| `ProgressTheorems.AttemptsEnd` | custom_components/hubinet_ops/packages/manager.py:793-988 | no attempt is resumed more than 1001 times in any run, however often PVE answers that its task still runs |
| `ProgressTheorems.WakeDescends` | custom_components/hubinet_ops/packages/manager.py:793-988 | each resumption of an attempt ends it or brings it strictly closer to its end |
| `ProgressTheorems.ResumptionsBounded` | custom_components/hubinet_ops/packages/manager.py:1063-1256 | the resumptions any continuation contains are bounded by the attempt's remaining rank |
| `Reachability.CanStillSucceed` | custom_components/hubinet_ops/packages/manager.py:793-988 | from any state a run can be in, an attempt that waits for the free section and was not told to stop can still be reported as a success that leaves no snapshot behind |
| `Reachability.SuccessIsReachable` | custom_components/hubinet_ops/packages/manager.py:556-988 | from a new manager some run scans, confirms and completes an Update with its safety snapshot taken and removed |
| `Reachability.FollowingIsReachable` | custom_components/hubinet_ops/easy_update.py:167-260 | from a new manager one press of Easy Update leads, through the Update, its snapshot and its Health check, to the continuation's Autoremove |
| `LiveRecords.RunningIsCarried` | custom_components/hubinet_ops/packages/manager.py:755-791 | in every reachable state a record that reads RUNNING for an Update or Autoremove is carried by the live task of that very attempt, of that kind and on that target |
| `LiveRecords.OrderHolds` | custom_components/hubinet_ops/packages/manager.py:214-273 | in every reachable state each entry of a task dictionary is a task of its own kind and target, or of one that has ended |
| `Forgetting.PruneForgetsExactly` | custom_components/hubinet_ops/packages/manager.py:394-443 | after a prune no dictionary knows anything of a vanished target, exactly the tasks of vanished targets except a Restore's are told to stop, no attempt owns a record there, and current targets and all reservations are untouched |
| `Forgetting.PrunedNeverReturns` | custom_components/hubinet_ops/packages/manager.py:394-443 | the next wake-up of an attempt whose target was pruned reports it and changes no dictionary |
| `Forgetting.StopForgetsExactly` | custom_components/hubinet_ops/packages/manager.py:447-485 | seeing targets not running fences exactly those anything is recorded of, drops what was observed of them and stops their Scan and Health; records and tasks of mutations, and running targets, keep all they have |
| `Forgetting.StopNotifies` | custom_components/hubinet_ops/packages/manager.py:461-485 | such an observation notifies exactly when a stopped target loses a record, token, evidence, Health result or task an entity shows |
| `Forgetting.DiscardForgetsExactly` | custom_components/hubinet_ops/packages/manager.py:344-365 | right before a rollback its target is fenced and forgotten and its Health check told to stop, while mutation records and other targets stay as they were |
| `Starts.ScanStartsExactly` | custom_components/hubinet_ops/packages/manager.py:489-554 | a Scan starts if and only if the manager is configured, the guest runs and no Scan, Update, Autoremove, Health or Restore is under way on the VMID; otherwise nothing changes and the first failing condition is the refusal |
| `Starts.UpdateStartsExactly` | custom_components/hubinet_ops/packages/manager.py:707-791 | an Update starts if and only if configured, running, permitted or skipping, idle on the VMID and confirmed; otherwise nothing changes and the first failing condition is the outcome; an accepted one consumes scan, token, evidence and Health of its target alone and carries exactly the scanned rows |
| `Starts.AutoremoveStartsExactly` | custom_components/hubinet_ops/packages/manager.py:991-1061 | the same for Autoremove, on the displayed cleanup plan |
| `Starts.HealthStartsExactly` | custom_components/hubinet_ops/packages/manager.py:1432-1482 | the same for Health: the running record is there before its task, and gone again if no task can be created |
| `Starts.RestoreStartsExactly` | custom_components/hubinet_ops/snapshot_restore.py:464-507 | a Restore is kept out by everything but Health on the VMID, and an accepted one changes nothing but the reservation |
| `Starts.ClaimBlockedExactly` | custom_components/hubinet_ops/packages/manager.py:1556-1571 | the Health claim of a finishing attempt is blocked exactly by a Restore, Scan or Health of the VMID |
| `Results.ScanResultExactly` | custom_components/hubinet_ops/packages/manager.py:611-646 | a Scan that comes to its end stores exactly its packages, unreviewed and under a fresh token, with exactly the evidence that may be acted on, if and only if it still owns its target |
| `Results.ScanFailureExactly` | custom_components/hubinet_ops/packages/manager.py:584-646 | a Scan that fails earlier stores exactly the named failure, if and only if it still owns its target |
| `Results.EvidenceStoredExactly` | custom_components/hubinet_ops/packages/manager.py:1645-1702 | a cleanup plan becomes evidence if and only if the target is not fenced and the plan is empty or was presented; otherwise the target has none |
| `Results.ReviewedExactly` | custom_components/hubinet_ops/packages/manager.py:649-679 | confirming marks exactly the scan whose current token was given, and any other token changes nothing |
| `Results.ApprovedExactly` | custom_components/hubinet_ops/packages/manager.py:701-704 | approving confirms what was last viewed if that is still the current scan, and otherwise nothing |
| `Results.EndsExactly` | custom_components/hubinet_ops/packages/manager.py:848-988 | an ending attempt that owns its target stores and reports exactly its record and is followed by Health exactly after a success whose last look was not interrupted; one that does not own it stores nothing; no other target changes |
| `Results.ObservesExactly` | custom_components/hubinet_ops/packages/manager.py:959-986 | a success that still owns its target stays for one more look, out of the section, with no record changed |
| `Results.CheckStoredExactly` | custom_components/hubinet_ops/packages/manager.py:1510-1535 | a Health outcome is stored if and only if its claim still stands, with the source it was claimed for |
| `Results.RestoreWakesExactly` | custom_components/hubinet_ops/snapshot_restore.py:509-579 | a rollback is submitted only for an eligible, reserved target without a running snapshot creation, and the reservation is kept exactly when the outcome is unknown |
| `ClientTheorems.EasyUpdateAccepted` | custom_components/hubinet_ops/easy_update.py:105-163 | nothing changes unless the target is running with a current non-empty scan, permitted or skipping, and idle; then the Update is accepted if and only if the manager is configured and no other node's key of the VMID is busy, for exactly the confirmed scan, with a continuation exactly if asked for |
| `ClientTheorems.ButtonsNeverSkip` | custom_components/hubinet_ops/packages/manager.py:707-791 | an Update without its safety snapshot is accepted only from an Easy Update that asked for it |
| `Followers.FollowerExactly` | custom_components/hubinet_ops/easy_update.py:183-255 | a resumed continuation waits exactly while its own Update runs, or has succeeded with a fresh non-empty plan while Health, Scan or Autoremove occupies the target; it starts Autoremove exactly when the target is idle, running, permitted and no other node's key is busy; otherwise it leaves and changes nothing |
| `Followers.NoWakeUpIsLost` | custom_components/hubinet_ops/easy_update.py:221-231 | in every reachable state a continuation parked on an unset wake event has an Update that runs, or one that succeeded with a fresh plan while its target is occupied |
| `Followers.DecisionAccepted` | custom_components/hubinet_ops/easy_update.py:183-219 | once there is nothing left to wait for, the manager refuses only if it is not configured or another node's key of the VMID is busy |
| `Followers.FollowsOnlyItsUpdate` | custom_components/hubinet_ops/easy_update.py:187-201 | a continuation starts Autoremove only while the stored Update record is its own attempt and succeeded with evidence not older than it, and leaves as it does |
| `Followers.FollowsAtMostOnce` | custom_components/hubinet_ops/easy_update.py:245-255 | in a whole run one continuation starts at most one Autoremove, after its Update was reported |
| `ClientTheorems.StrandedForGood` | custom_components/hubinet_ops/snapshot_restore.py:576-579 | after a Restore without a known outcome no Scan, Update, Autoremove, Health or Restore is accepted on that VMID in any continuation |
| `ClientTheorems.RollbackIsReserved` | custom_components/hubinet_ops/snapshot_restore.py:541-554 | a rollback is entered only by the Restore that holds the reservation and after the package truth of its key was discarded |
| `ClientTheorems.ReservationReleased` | custom_components/hubinet_ops/packages/manager.py:368-372 | the only step of the whole machine that gives a reservation back is its own Restore ending with a known outcome |
| `ClientTheorems.ClaimNeverFails` | custom_components/hubinet_ops/packages/manager.py:1556-1590 | in every reachable state an attempt that still owns its target finds the Health claim unblocked |
| `ClientTheorems.HeldRefuses` | custom_components/hubinet_ops/packages/manager.py:1432-1470 | while a Health claim is held every Scan, Update, Autoremove and Health start on that VMID is refused under any node key and changes nothing |
| `ClientTheorems.ListenersAreRefused` | custom_components/hubinet_ops/packages/manager.py:1573-1590 | however many calls re-entering listeners make, the claim stays held |
| `ClientTheorems.HealthFollowsSuccess` | custom_components/hubinet_ops/packages/manager.py:1290-1324 | through all notifications of the finish path of a success the claim is held and at the end it is the running Health check, with the result reported |
| `ClientTheorems.SuccessIsChecked` | custom_components/hubinet_ops/packages/manager.py:1290-1324 | in every reachable state a successful attempt that owns its target and is resumed after its last look stores and reports its success and leaves a running Health check |
| `Attempts.AdvanceFits` | custom_components/hubinet_ops/packages/manager.py:803-988 | whatever an awaited operation comes back with, an attempt stays consistent with the snapshot ledger or ends in a record that is truthful about snapshot and mutation |
| `Attempts.NamedUnlessSeenAbsent` | custom_components/hubinet_ops/packages/snapshots.py:206-268 | once the creation was submitted an attempt ends without naming its snapshot if and only if a readable listing taken afterwards has no row of that name, whatever PVE answers |
| `Attempts.ClaimsExactly` | custom_components/hubinet_ops/packages/manager.py:862-955 | an ending record names the snapshot exactly when its creation may have reached PVE and no such listing was seen: as retained if it had been confirmed complete, as uncertain otherwise |
| `Replies.GoesOnExactly` | custom_components/hubinet_ops/packages/manager.py:803-861 | the body goes on to another await exactly after the replies listed, each read off the rows of a plan, the fields of a status or the rows of a listing, and aborts only when cancelled |
| `Replies.GoesToExactly` | custom_components/hubinet_ops/packages/snapshots.py:206-305 | and it goes on to exactly the await that comes next, having noted exactly what it has seen |
| `Replies.OutcomesExactly` | custom_components/hubinet_ops/packages/manager.py:862-955 | an ending record carries the outcome its reply calls for, liveness false exactly for a guest gone or silent, and the change count that was seen |
| `Replies.ExplanationsExclude` | custom_components/hubinet_ops/packages/manager.py:862-955 | no reply calls for two outcomes |
| `Attempts.WorldMoveFits` | custom_components/hubinet_ops/packages/snapshots.py:206-268 | a creation that finishes late, or a snapshot removed by someone else, never makes an attempt's bookkeeping wrong |
| `Attempts.NothingChanged` | custom_components/hubinet_ops/packages/manager.py:121-124 | the change count is zero exactly for equal inventories and is symmetric |
| `Attempts.ChangedExactly` | custom_components/hubinet_ops/packages/manager.py:121-124 | the change count is the number of packages that appeared, went away or have another version |
| `NativeSnapshots.GeneratedNameIsOwn` | custom_components/hubinet_ops/packages/snapshots.py:45-72 | a generated name is always valid for PVE and one that cleanup may delete |
| `NativeSnapshots.OwnNameExactly` | custom_components/hubinet_ops/packages/snapshots.py:45-72 | a name is one cleanup may delete exactly if it is the prefix and at most twenty-five letters, digits, underscores or hyphens |
| `NativeSnapshots.AbsentExactly` | custom_components/hubinet_ops/packages/snapshots.py:118-133 | a listing proves a snapshot absent if and only if every row of it can be read and none carries the name, whatever else a row says |
| `NativeSnapshots.CompleteExactly` | custom_components/hubinet_ops/packages/snapshots.py:99-115 | a listing proves a snapshot complete if and only if it can be read and exactly one row carries the name and that row has no transient state |
| `NativeSnapshots.CompleteExcludesAbsent` | custom_components/hubinet_ops/packages/snapshots.py:99-134 | no listing confirms a snapshot both complete and absent, and an unreadable one confirms neither |
| `NativeSnapshots.StatusExactly` | custom_components/hubinet_ops/packages/snapshots.py:136-151 | a task runs, has stopped or has succeeded exactly when the status and exit status fields say so |
| `NativeSnapshots.ExitExactly` | custom_components/hubinet_ops/packages/snapshots.py:145-150 | an exit status is accepted exactly if it is OK or a positive number of digits after the warnings prefix |
| `NativeSnapshots.UpidExactly` | custom_components/hubinet_ops/packages/snapshots.py:153-162 | a task identifier is accepted exactly if what follows its prefix is bounded and free of blanks and controls |
| `NativeSnapshots.WaitForTask` | custom_components/hubinet_ops/packages/snapshots.py:165-194 | the verdict on a task is the conclusion of its first answer that is not running, within the poll budget, and never terminal otherwise |
| `Polling.WatchTask` | custom_components/hubinet_ops/packages/snapshots.py:165-194 | the polling loop and the attempt's polling positions reach the same verdict on every sequence of answers, for creation and removal |
| `Polling.CreationIsTheLoop` | custom_components/hubinet_ops/packages/snapshots.py:206-268 | driven by any answers, creation goes on to confirm, to recheck, or ends with an uncertain snapshot exactly as the loop's verdict says |
| `Polling.RemovalIsTheLoop` | custom_components/hubinet_ops/packages/snapshots.py:270-305 | driven by any answers, removal goes on to the absence check or ends as a success with a retained snapshot exactly as the loop's verdict says |
| `TurnProofs.ApplyTurnKeeps` | custom_components/hubinet_ops/packages/manager.py:793-988 | every turn of a run body, including the finish path with re-entering listeners, keeps the invariant |
| `TurnProofs.CancelledObeys` | custom_components/hubinet_ops/packages/manager.py:908-938 | a cancelled body leaves at once at every await |
| `FinishProofs.FinishMutationKeeps` | custom_components/hubinet_ops/packages/manager.py:1705-1735 | publishing a terminal result keeps the invariant although listeners make any calls at each of its three notifications |
| `ListenerProofs.ListenKeeps` | custom_components/hubinet_ops/packages/manager.py:489-556 | any sequence of calls by users or listeners keeps the invariant, also in the middle of the finish path |
| `ListenerProofs.ListenExtends` | custom_components/hubinet_ops/packages/manager.py:489-556 | such calls never end, report, dispossess or unreserve work that is under way |
| `WakeProofs.ScanWakesKeeps` | custom_components/hubinet_ops/packages/manager.py:556-646 | every wake-up of a scan, including the publication of its cleanup observation, keeps the invariant |
| `WakeProofs.RestoreWakesKeeps` | custom_components/hubinet_ops/snapshot_restore.py:509-579 | every wake-up of a Restore keeps the invariant |
| `WakeProofs.FollowerWakesKeeps` | custom_components/hubinet_ops/easy_update.py:221-255 | every wake-up of an Easy Update continuation keeps the invariant |
| `ActionProofs.PruneKeeps` | custom_components/hubinet_ops/coordinator.py:491-499 | pruning any set of targets keeps the invariant |
| `ActionProofs.StopKeeps` | custom_components/hubinet_ops/coordinator.py:500-506 | a non-running observation of any set of targets keeps the invariant |
| `PackageManagers.PackageManager.constructor` | custom_components/hubinet_ops/packages/manager.py:219-273 | a new manager is the initial state and satisfies the invariant |
| `PackageManagers.PackageManager.Busy` | custom_components/hubinet_ops/packages/manager.py:503-547 | true exactly if a reservation, Scan, Update, Autoremove or Health is under way on the VMID under any node key |
| `PackageManagers.PackageManager.HealthRunningOn` | custom_components/hubinet_ops/packages/manager.py:1399-1404 | true exactly if some key of the VMID has a running Health record |
| `PackageManagers.PackageManager.StartScan` | custom_components/hubinet_ops/packages/manager.py:489-554 | refuses for exactly the stated reasons and otherwise fences off, forgets and replaces exactly what an accepted scan does |
| `PackageManagers.PackageManager.FinishScan` | custom_components/hubinet_ops/packages/manager.py:629-646 | writes the outcome only while the stored record is the attempt's own |
| `PackageManagers.PackageManager.PublishCleanup` | custom_components/hubinet_ops/packages/manager.py:1645-1702 | makes a plan actionable only when presented and not fenced, and otherwise forgets it |
| `PackageManagers.PackageManager.ConfirmReview` | custom_components/hubinet_ops/packages/manager.py:649-679 | confirms exactly the current non-empty successful scan with that token |
| `PackageManagers.PackageManager.MarkViewed` | custom_components/hubinet_ops/packages/manager.py:681-694 | remembers exactly the token of the current non-empty successful scan |
| `PackageManagers.PackageManager.ConfirmViewed` | custom_components/hubinet_ops/packages/manager.py:701-704 | approves exactly the viewed token |
| `PackageManagers.PackageManager.AcceptUpdate` | custom_components/hubinet_ops/packages/manager.py:755-791 | the accepted Update consumes review, evidence and Health of its target and starts the attempt with the reviewed rows |
| `PackageManagers.PackageManager.StartUpdate` | custom_components/hubinet_ops/packages/manager.py:707-791 | accepts if and only if configured, running, permitted or skipping, idle under every node key and confirmed, changing exactly its own target's records; otherwise changes nothing |
| `PackageManagers.PackageManager.StartAutoremove` | custom_components/hubinet_ops/packages/manager.py:991-1061 | accepts if and only if configured, running, permitted, idle under every node key and a non-empty plan is displayed, which it consumes; otherwise changes nothing |
| `PackageManagers.PackageManager.FinishMutation` | custom_components/hubinet_ops/packages/manager.py:1290-1324 | the finish path: ownership, Health claim before publication, record, report, Health start |
| `PackageManagers.PackageManager.HealthClaimBlocked` | custom_components/hubinet_ops/packages/manager.py:1556-1571 | true exactly if a reservation, Scan or Health is under way on the VMID |
| `PackageManagers.PackageManager.ClaimHealth` | custom_components/hubinet_ops/packages/manager.py:1420-1430 | claims a fresh running Health record before any task exists |
| `PackageManagers.PackageManager.LaunchHealth` | custom_components/hubinet_ops/packages/manager.py:1592-1620 | starts the task only while the claim still owns the target and takes the claim back if it cannot be created |
| `PackageManagers.PackageManager.StartHealth` | custom_components/hubinet_ops/packages/manager.py:1432-1482 | refuses for exactly the stated reasons, otherwise claims and launches |
| `PackageManagers.PackageManager.FinishHealth` | custom_components/hubinet_ops/packages/manager.py:1510-1535 | publishes the outcome only while the record is the attempt's own |
| `PackageManagers.PackageManager.BeginRestore` | custom_components/hubinet_ops/packages/manager.py:321-341 | reserves unless a reservation or package work exists on the VMID; Health is not looked at |
| `PackageManagers.PackageManager.InvalidateRestoreTarget` | custom_components/hubinet_ops/packages/manager.py:344-365 | fences the target and discards its scan, viewed token, evidence and Health |
| `PackageManagers.PackageManager.EndRestore` | custom_components/hubinet_ops/packages/manager.py:368-372 | gives the reservation back |
| `PackageManagers.PackageManager.PruneMissing` | custom_components/hubinet_ops/packages/manager.py:394-443 | target by target, leaves nothing known of any vanished target in any dictionary and every current one as it was, and cancels their tasks |
| `PackageManagers.PackageManager.ObserveRunning` | custom_components/hubinet_ops/packages/manager.py:447-485 | target by target, ends in the state where every stopped target is fenced and forgotten, with one notification exactly if something was lost |
| `PackageManagers.PackageManager.NotifyListeners` | custom_components/hubinet_ops/packages/manager.py:1290-1324 | any sequence of re-entrant calls is the same sequence of calls on the state |
| `PackageManagers.PackageManager.TakeTurn` | custom_components/hubinet_ops/packages/manager.py:940-988 | carries out one turn of a run body: go on, stay for the observation, finish, or only report |
| `PackageManagers.PackageManager.ResumeScan` | custom_components/hubinet_ops/packages/manager.py:556-627 | one wake-up of a scan body |
| `PackageManagers.PackageManager.Handle` | custom_components/hubinet_ops/packages/manager.py:214-1750 | every action of the machine refines its step on the object and preserves the class invariant |
| `PackageManagers.PackageManager.HandleAll` | custom_components/hubinet_ops/packages/manager.py:214-1750 | a whole run of the object is the run of the state machine |
| `PackageManagers.PackageManager.StartEasyUpdate` | custom_components/hubinet_ops/easy_update.py:105-163 | confirms the scan's own token and starts Update with nothing in between, and leaves a continuation bound to that attempt |
| `PackageManagers.PackageManager.RunFollower` | custom_components/hubinet_ops/easy_update.py:221-255 | clears the event and then parks exactly while it must wait, starts Autoremove and leaves exactly when it may, and otherwise only leaves |
| `PackageManagers.PackageManager.PressRestore` | custom_components/hubinet_ops/snapshot_restore.py:464-507 | reserves, and gives the reservation back if the task cannot be created |
| `PackageManagers.PackageManager.ResumeRestore` | custom_components/hubinet_ops/snapshot_restore.py:509-579 | one wake-up of a Restore body |
| `Transport.RefusalExactly` | custom_components/hubinet_ops/packages/transport.py:881-961 | a helper's refusal that names no other guest is reported by its own word and the operation: busy and gone everywhere, a time-out only for a mutation |
| `Transport.AffirmationExactly` | custom_components/hubinet_ops/packages/transport.py:908-960 | an affirmative answer about another guest means the guest is gone, one without evidence fails by what was asked, and one with evidence delivers it |
| `Transport.OutdatedExactly` | custom_components/hubinet_ops/packages/transport.py:888-907 | an outdated helper is reported exactly when the answer is not one of this protocol to this operation |
| `Transport.SilenceExactly` | custom_components/hubinet_ops/packages/transport.py:521-549 | without an answer a plan or ping merely failed, while a mutation timed out or is uncertain |
| `Transport.MutatedExactly` | custom_components/hubinet_ops/packages/transport.py:339-380 | a mutation is known to be done exactly when both inventories of its evidence were read to the end, and those are the two the change is counted between |
| `Transport.OneOperation` | custom_components/hubinet_ops/packages/transport.py:881-907 | no answer to one operation is taken for an answer to another |
| `Transport.PlanFailuresArePlanStage` | custom_components/hubinet_ops/packages/transport.py:296-337 | whatever arrives, a plan request fails only with an outcome of the plan stage |
| `Transport.MutationFailuresAreMutationStage` | custom_components/hubinet_ops/packages/transport.py:339-380 | whatever arrives, a mutation request never fails with an outcome that promises an untouched guest |
| `Transport.DeliveredOnlyForThisGuest` | custom_components/hubinet_ops/packages/transport.py:881-961 | evidence is taken exactly from affirmative answers of this protocol to this operation about this guest |
| `Transport.CrashesExactlyOnUnhashable` | custom_components/hubinet_ops/packages/transport.py:926-944 | parsing escapes its own classification exactly when a refusal carries an unhashable classification |
| `RestoreGlue.ObserveTask` | custom_components/hubinet_ops/snapshots.py:166-221 | the outcome is the conclusion of the first answer that came within the attempts and the shared deadline, and uncertain otherwise; success and failure were seen stopped |
| `RestoreGlue.DecidesExactly` | custom_components/hubinet_ops/snapshots.py:175-196 | the first answer that comes at all decides exactly when the failures before it, with a full pause after each, leave it time before the shared deadline |
| `RestoreGlue.ConcludesExactly` | custom_components/hubinet_ops/snapshots.py:198-216 | an observation is conclusive exactly if its status field says stopped, and a success exactly if its exit status does too |
| `RestoreGlue.KnownExactlyWhenSeen` | custom_components/hubinet_ops/snapshots.py:224-265 | a rollback's outcome is known exactly when PVE refused it outright or its task was seen to stop, which is when the machine releases the reservation |
| `Inventories.ParseInstalledInventory` | custom_components/hubinet_ops/packages/parser.py:151-198 | accepts exactly well-formed inventories without duplicate identities; the map is exactly the installed rows and the list exactly the unfinished ones, sorted |
| `Inventories.ValidateInventorySane` | deploy/hubinet-package-scan-helper.py:585-609 | accepts exactly the inventories whose every row is sane, finished and of a new identity |
| `Inventories.ReadersAgree` | deploy/hubinet-package-scan-helper.py:585-609 | the helper accepts exactly what the strict parser accepts with nothing unfinished and sane skipped rows |
| `Inventories.RowOrderIsIrrelevant` | custom_components/hubinet_ops/packages/parser.py:151-198 | permuting the rows changes neither acceptance nor the result |
| `Inventories.PrintedMapReadsBack` | custom_components/hubinet_ops/packages/parser.py:151-198 | printing a well-formed map as installed rows in any order and parsing it returns the map |
| `Simulations.ParseAptSimulation` | custom_components/hubinet_ops/packages/parser.py:245-257 | the whole parser: bounds, native architecture, finished inventory, then the actions |
| `Simulations.ParseActions` | custom_components/hubinet_ops/packages/parser.py:259-417 | accepts exactly the acceptable sets of lines and returns exactly the planned packages, strictly sorted |
| `Simulations.ReadActions` | custom_components/hubinet_ops/packages/parser.py:265-344 | the first loop accepts exactly when no line is broken and no change, configure action or summary repeats |
| `Simulations.ResolveChanges` | custom_components/hubinet_ops/packages/parser.py:354-404 | the second loop accepts exactly when every change is current in the inventory and no identity repeats |
| `Simulations.CheckConfigured` | custom_components/hubinet_ops/packages/parser.py:406-410 | the third loop accepts exactly when every configure action is approved by a change |
| `Simulations.LineOrderIsIrrelevant` | custom_components/hubinet_ops/packages/parser.py:265-417 | permuting the simulation's lines changes neither acceptance nor the plan |
| `Simulations.EvidenceOrderIsIrrelevant` | custom_components/hubinet_ops/packages/parser.py:245-417 | neither does permuting the rows of the inventory it is read against |
| `Simulations.AcceptedPlanIsConsistent` | custom_components/hubinet_ops/packages/parser.py:346-417 | an accepted plan has exactly APT's upgraded count with nothing added or removed, unique sorted identities, installed versions that agree with the inventory, and only planned configure actions |
| `Simulations.PlanTuplesDecide` | custom_components/hubinet_ops/packages/manager.py:96-108 | two accepted plans project to equal tuples exactly when they plan the same set of name, architecture, installed and candidate rows |
| `PrintedLines.PrintedPlansDecide` | custom_components/hubinet_ops/packages/manager.py:96-108 | two accepted plans project to equal tuples exactly when the same rows were printed in their Inst lines, whole field by whole field |
| `PrintedLines.InstExactly` | custom_components/hubinet_ops/packages/parser.py:15-19 | the Inst pattern matches a line with these four fields exactly if the line is these four fields printed, free of the separators their groups exclude, and then bracketed groups |
| `PrintedLines.ConfExactly` | custom_components/hubinet_ops/packages/parser.py:20-23 | the same for the Conf pattern |
| `PrintedLines.RemvExactly` | custom_components/hubinet_ops/packages/parser.py:24-27 | the same for the Remv pattern, with the name split at its first colon |
| `PrintedLines.DescriptionExactly` | custom_components/hubinet_ops/packages/parser.py:208-221 | a candidate description is read exactly as the origin before its last bracketed architecture, stripped and bounded |
| `PrintedLines.QualifiedExactly` | custom_components/hubinet_ops/packages/parser.py:201-205 | a name is what stands before the first colon and its qualifier what follows it |
| `PrintedLines.SummaryExactly` | custom_components/hubinet_ops/packages/parser.py:30-33 | the summary pattern matches exactly four runs of one to nine digits between its words, and reads their numbers |
| `PrintedLines.DecimalSummary` | custom_components/hubinet_ops/packages/parser.py:30-33 | four numbers below a thousand million printed in decimal read back as themselves |
| `PrintedLines.InstReadsBack` | custom_components/hubinet_ops/packages/parser.py:265-306 | a raw line becomes this change of a plan exactly if, stripped, it is this change printed |
| `PrintedLines.MalformedExactly` | custom_components/hubinet_ops/packages/parser.py:269-333 | a raw line spoils the plan exactly if it is a removal or purge, or begins like a change or configure action without being one printed |
| `PrintedLines.SummaryReadsBack` | custom_components/hubinet_ops/packages/parser.py:334-344 | a raw line is the summary exactly if, stripped, it is these four counts printed |
| `PrintedLines.RemvReadsBack` | custom_components/hubinet_ops/packages/parser.py:439-480 | a raw line becomes this removal exactly if, stripped, it is this removal printed |
| `PrintedLines.SecurityExactly` | custom_components/hubinet_ops/packages/parser.py:35-37 | an origin is known to be a security one exactly if one of its words between separators ends in the security suffix, in any case |
| `PrintedLines.ResolveExactly` | custom_components/hubinet_ops/packages/parser.py:223-242 | a package resolves to an architecture exactly if it is the only one of those its name can mean that is installed |
| `PrintedLines.ArchitectureExactly` | custom_components/hubinet_ops/packages/parser.py:29-29 | an architecture name is lower-case alphanumeric words joined by single hyphens, beginning with a letter |
| `PrintedLines.NativeExactly` | custom_components/hubinet_ops/packages/parser.py:136-148 | the native architecture is the one line that is not blank, exactly if it is an architecture name other than all |
| `PrintedLines.RowReadsBack` | custom_components/hubinet_ops/packages/parser.py:151-198 | an inventory line is read as these four fields exactly if it is them between tabs with one of dpkg's eight words last |
| `Removals.ParseAutoremoveSimulation` | custom_components/hubinet_ops/packages/parser.py:420-434 | the whole autoremove parser: bounds, native architecture, finished inventory, then the removals |
| `Removals.ParseRemovals` | custom_components/hubinet_ops/packages/parser.py:436-515 | accepts exactly when every line is allowed, every removal is installed in the stated version, none repeats and APT counts exactly those; returns exactly them, strictly sorted |
| `Removals.RemovalOrderIsIrrelevant` | custom_components/hubinet_ops/packages/parser.py:439-515 | permuting the simulation's lines changes neither acceptance nor the removals |
| `Removals.CleanupTuplesDecide` | custom_components/hubinet_ops/packages/manager.py:111-118 | two accepted cleanup plans project to equal tuples exactly when they remove the same set of installed packages |
| `Inventories.ReadHealthInventory` | deploy/hubinet-package-scan-helper.py:771-810 | reads exactly the well-formed inventories without duplicates, and returns exactly every package's status |
| `Inventories.SaneIsReadable` | deploy/hubinet-package-scan-helper.py:585-609 | Health reads whatever the sanity check accepts and finds nothing unfinished there |
| `Health.InterruptedMeansNoWriter` | deploy/hubinet-package-scan-helper.py:850-905 | an interrupted report means the lock was free at the audit, everything half-installed at the first read still was at the second, and something still was at the audit |
| `Health.WriterIsNeverInterrupted` | deploy/hubinet-package-scan-helper.py:850-905 | a writer that holds the lock from the first read through the audit is never reported as interrupted |
| `Health.AuditFirstWouldBlameWriters` | deploy/hubinet-package-scan-helper.py:850-864 | with the audit before the second read a writer could be reported as interrupted |
| `Health.CheckExactly` | deploy/hubinet-package-scan-helper.py:850-905 | each dpkg state is reported exactly under its own condition on the two reads and the audit, and the check times out exactly on a timed-out audit of a problem |
| `Health.CheckComesTo` | deploy/hubinet-package-scan-helper.py:908-960 | the evidence, the guest gone, or no verdict at all follow exactly from what the commands came back with |
| `Health.ClassifiedExactly` | custom_components/hubinet_ops/packages/models.py:273-304 | the state and the reason of a verdict are exactly those of the evidence, for everything coherent evidence can say |
| `Health.RefusedCheckExactly` | custom_components/hubinet_ops/packages/transport.py:752-830 | a refused check is reported by its own word, unless it names another guest |
| `Health.MismatchExactly` | custom_components/hubinet_ops/packages/transport.py:752-790 | another protocol and an outdated helper are told apart exactly |
| `Health.ChecksAreReportable` | deploy/hubinet-package-scan-helper.py:850-905 | a count comes with an interrupted report and with no other, and is at least one |
| `Health.EvidenceSurvivesTheWire` | custom_components/hubinet_ops/packages/transport.py:752-878 | every evidence the helper can return passes the response parser unchanged in meaning |
| `Health.VerdictsMeanWhatTheySay` | custom_components/hubinet_ops/packages/models.py:273-304 | the verdict is HEALTHY, DEGRADED or FAILED exactly under the stated conditions on the commands' results |
| `Health.AcceptedEvidenceIsCoherent` | custom_components/hubinet_ops/packages/transport.py:848-878 | whatever arrives, accepted evidence is free of contradictions and about this guest, so the fallback verdict is never taken |
| `Deadlines.RunCommands` | deploy/hubinet-package-scan-helper.py:412-431 | the commands of one operation end no later than its timeout plus ten seconds |
| `Deadlines.UnhurriedRun` | deploy/hubinet-package-scan-helper.py:412-431 | commands that fit their own limits and the deadline together all run to their end |
| `Deadlines.OverrunExactly` | deploy/hubinet-package-scan-helper.py:412-431 | a command that would overrun is cut off at its own limit or at the deadline, whichever comes first, and none is begun after the deadline |
| `Deadlines.WorkEndsInTime` | deploy/hubinet-package-scan-helper.py:230-240 | so for any command sequence from any moment of the operation |
| `Deadlines.TransportOutwaits` | custom_components/hubinet_ops/packages/transport.py:57-65 | the transport's timeout outlasts every operation's commands if and only if the operation is not the probe |
| `TlsEof.FindEof` | custom_components/hubinet_ops/coordinator.py:80-104 | ends on every graph, says yes only if an EOF error is reachable, and always if one is reachable among at most sixteen errors |
| `TlsEof.SeventeenIsTooMany` | custom_components/hubinet_ops/coordinator.py:87-104 | an EOF error behind sixteen others is reachable but not found |

## Left out

- SSH, subprocess spawning, file locks, JSON encoding and the PVE client: their results are parameters or replies.
- Home Assistant entities, sensors, buttons, config flow, notifications, translations, frontend resources and
  dashboard JavaScript: presentation without hard state.
- Enrollment, key parsing, bootstrap and entry migration: dominated by library code.
- `parse_os_release` and the rest of the scan evidence: shell quoting dominates it.
- `retained_snapshot_summary`, the helper version scalar and `actionable_presentation_targets`: nothing else depends
  on them.
- Restore of QEMU guests, which takes no reservation, and the notification of its outcome.
- Exceptions raised by presentation callbacks, except the one that decides whether evidence becomes actionable.
- Texts are given as lines with an encoded size; `splitlines` itself is not modelled, and neither are error messages.
- Where the source's patterns use `\d` or ignore case, the model takes ASCII digits and ASCII letters.
- The bounded wait of a continuation is the action `FollowerEnds`, which may happen at any time.
- Health tasks that finish while they are being created are resumed in the next action instead.
- Inside a run body, the time between awaits is not modelled; timeouts of the transport appear as replies.
