# Wake, hibernation, capture and admission: a verified model

This project models the parts of a sandboxed code-execution service whose correctness depends on
more than one function, and proves what they keep over whole runs:

* the wake/hibernation controller, a nine-phase durable state machine that snapshots a Redis cache,
  deletes it and later restores it from the snapshot, one external call at a time
  (`Cloud`, `Atomic`, `Controller`, `Safety`, `Progress`, `Outcomes`, with `StateStore`, `StateHistory`,
  `LateDeletion`, `SnapshotCatalog`, `SnapshotPruning`, `SnapshotNames`, `TaskScan` and `RedisUrl`);
* the runner's output capture and step budget (`Utf8`, `OutputCapture`, `StepBudget`);
* job admission, release and recovery (`Quota`, `DlqReplay`, `RateLimit`, `Backoff`).

Run `dafny verify dfyconfig.toml` in this directory.

## How the controller is modelled

`Cloud.World` holds everything the controller reads or changes, plus the cache contents, the image
in each snapshot and a log of what invocations saw and did. The stored URL appears there as the
address its text stands for; `RedisUrl` proves that the text-level rewrite acts on that address as
the controller's model does, and `TaskScan` that the scan finds as many ECS tasks as the model
counts. The snapshot results hold for any test of which names are the controller's own; the
controller uses `SnapshotNames.Mine`. `Controller.Lambda` carries out an
invocation call by call. Before every call the environment may take any number of steps
(`Cloud.Apply`); every call may raise, with or without having taken effect, and the invocation may
end after any call. Every method keeps the invariant `Cloud.Good`; `Safety` reads the theorems off
the invariant. When nothing interferes (`calm`) each method is proved to do exactly what its
description in `Atomic` says; `Outcomes` spells out what those descriptions answer and store for every
state of the services, the group, its snapshots and the item, and `Progress` proves its bounds about them.

The data-safety theorems assume:

* invocations do not overlap: reserved concurrency is forced to 1
  (`infra/terraform/variables.tf:166-175`); overlapping invocations are only considered for the
  conditional write, in `StateHistory`, and for what it does not protect, in `LateDeletion`, because
  the commit and the deletion are separate calls (lines 873 and 875);
* a check names a new snapshot freshly, and only the controller creates or deletes the group and its
  snapshots;
* evidence of a worker or standalone write stays visible, in the worker counts, the queue metric or
  the ECS listings, until a check has given up its snapshot and reported activity; outside scaling of
  the API shows in its counts in the same way;
* between the start of the last guard before a deletion and the deletion no other writer starts; the
  cache takes writes in every state but while it is being deleted, absent or being created.

## What the proofs brought out

* The matcher for the stored URL compares a lower-cased host with the endpoint as given, and the port
  with the configured one. A URL with another explicit port never matches, so every wake of an ACTIVE
  controller rewrites the parameter (`RedisUrl.RewriteMatchesExactlyWhen`).
* The error path of a handler records the exception against the item the handler held before its
  inner transitions; once one of them succeeded, that record writes nothing
  (`Safety.OuterErrorRecordIsStale`).
* Once an item is stored, the wake rank rises in exactly one situation: the phase is ACTIVE and the
  group is neither available nor being deleted
  (`Progress.ReconcilingRaisesRankOnlyInMaintenance`).
* Services that are scaled up while the cache sleeps are reported by every check and never scaled
  down (`Progress.SleepIsOnlyWatched`), so sleep progress assumes there are none.
* The byte limit on captured output can be exceeded by two bytes, and output decoded chunk by chunk
  differs from the program's output as soon as a chunk begins inside a character
  (`OutputCapture.TruncateShape`, `OutputCapture.ChunksDecodeApart`).
* A plan without steps is reported as failed, because no exit code was seen (`StepBudget.Execute`).
* `docs/sleep-mode.md:49-50` says a stale invocation cannot authorize an external mutation. If another
  wake is accepted between the write of DELETING and the deletion, the deletion goes ahead although
  the item has moved on and may lose a write (`LateDeletion.OneWakeIsEnough`). It is still safe
  exactly as long as the API has not been asked for
  (`LateDeletion.LateDeletionIsSafeExactlyWhileApiUnasked`). Reserved concurrency is what rules this out.
* The terminal status of a finished job is overwritten by a late dispatch or retry note
  (`Quota.DispatchOverwritesResult`, `Quota.RetryNoteOverwritesResult`); it stays for good exactly when
  neither is outstanding (`Quota.TerminalStatusSurvivesExactlyWhenSettled`).
* A rate-limit script that runs a window's length after the first one of its window finds the key
  expired and starts over (`RateLimit.LateScriptResetsCounter`); the limits hold as long as no script
  is that late (`RateLimit.NeverResetExactlyWhenInTime`).

## Model

| member | source | states |
|---|---|---|
| Safety.NoWriteIsLost | infra/lambda/api_sleep_controller.py:778-959 | In every reachable state, at each logged group deletion the protected snapshot held exactly what the cache held, and each restore brought back exactly what the cache held at the last deletion before it. |
| Safety.GoodIsSafe | infra/lambda/api_sleep_controller.py:612-959 | The invariant implies the whole data-safety statement: protection while the cache is missing, proven quiescence, and every logged deletion, restore, snapshot request and API start justified by what was logged before it. |
| Safety.LastDeletedMeans | infra/lambda/api_sleep_controller.py:647-675 | What the invariant records as last deleted is the contents of a logged deletion that no other deletion follows. |
| Safety.MissingCacheIsProtected | infra/lambda/api_sleep_controller.py:769-775 | Whenever the group is deleting, absent or still being created, the durable item names an existing available snapshot whose image is the cache contents; so the name is only cleared while the group is present. |
| Safety.SnapshotsFollowTwoClearChecks | infra/lambda/api_sleep_controller.py:917-956 | Every snapshot request directly follows a clear guard that allowed no API task, and comes at least the quiescence time after a zero queue datapoint with no reported activity and no accepted wake since. |
| Safety.QuiescenceIsProven | infra/lambda/api_sleep_controller.py:758-766 | A recorded quiescence time always stands on a zero queue datapoint seen no later than it, with no reported activity and no accepted wake since; this is why a missing metric may be tolerated. |
| Safety.ZeroProofMeans | infra/lambda/api_sleep_controller.py:758-766 | The recursive proof predicate used in the invariant holds exactly when such a datapoint exists in the log. |
| Safety.EndpointBeforeCompute | infra/lambda/api_sleep_controller.py:588-641 | With hibernation on, wake reconciliation raised the API count only after the same invocation had read the group available, while it was still present at that endpoint and the stored URL had that endpoint, in lower case, as its host. |
| Safety.SeenAvailableMeans | infra/lambda/api_sleep_controller.py:627-629 | What the invariant records as seen available is a logged reading of an available group at that endpoint with no other invocation begun since. |
| Safety.OuterErrorRecordIsStale | infra/lambda/api_sleep_controller.py:700-713 | When reconciling raises, the error record of the handler changes the item exactly when reconciling has written nothing itself. |
| Safety.Run | infra/lambda/api_sleep_controller.py:962-1037 | Any schedule of environment moves, wakes and idle checks, each failing or cut off after any call, passes only through states that satisfy the data-safety statement, and the stored revision never goes back. |
| Safety.FirstWorldIsGood | infra/lambda/api_sleep_controller.py:200-214 | A deployment with an available cache, no item and nothing logged satisfies the invariant. |
| Safety.ReachableStatesProgress | infra/lambda/api_sleep_controller.py:612-675 | Every reachable state with a usable URL and port, the first one included, meets the hypothesis of the progress theorems. |
| Safety.ReusedNameDecidesWhatIsProtected | infra/lambda/api_sleep_controller.py:941-957 | If the chosen snapshot name is already in use, the tolerated creation error makes a later deletion protect the old image instead of the cache contents: freshness of the name is a real demand. |
| Progress.WakesWithinThreeRounds | infra/lambda/api_sleep_controller.py:612-675 | From any protected state, after three or more rounds of environment completion and a wake (or a check with a fresh lease) the phase is ACTIVE, the group available and the API running. |
| Progress.RoundsLowerWakeRank | infra/lambda/api_sleep_controller.py:612-675 | Along such a run the rank over group status, phase and API count falls by at least one in each round until it is zero, and stays zero. |
| Progress.WakeRoundLowersRank | infra/lambda/api_sleep_controller.py:678-699 | One round, by a wake or a check with a fresh lease, strictly lowers a positive rank and keeps a zero one. |
| Progress.ReconcilingLowersRank | infra/lambda/api_sleep_controller.py:588-675 | Once the environment has caught up, a reconciliation succeeds and strictly lowers a positive rank. |
| Progress.ReconcilingRaisesRankOnlyInMaintenance | infra/lambda/api_sleep_controller.py:642-645 | A reconciliation raises the rank if and only if hibernation is on, the phase is ACTIVE, the present group is neither available nor deleting, and an item is stored or the API already asked for. |
| Progress.SleepIsOnlyWatched | infra/lambda/api_sleep_controller.py:981-1003 | With a stale lease, a check of a sleeping, absent and protected cache changes nothing whatever the services do; it reports sleep exactly when both are stopped and drift otherwise. |
| Progress.SettlingKeepsWakeRank | infra/lambda/api_sleep_controller.py:612-675 | Completion of pending environment actions keeps the rank, and at rank zero the API is running on the available cache. |
| Progress.FallsAsleepWithinNineChecks | infra/lambda/api_sleep_controller.py:778-959 | With a stale lease, no activity and checks at least the quiescence time apart, nine checks from anywhere (six from ACTIVE) reach SLEEPING with the group absent and its snapshot available, and later checks stay there. |
| Progress.ChecksLowerRank | infra/lambda/api_sleep_controller.py:962-1025 | Along such a run every check strictly lowers the sleep rank until it is zero. |
| Progress.SleepRoundLowersRank | infra/lambda/api_sleep_controller.py:962-1025 | One environment completion followed by one undisturbed check strictly lowers a positive sleep rank. |
| Progress.ProgressLowers | infra/lambda/api_sleep_controller.py:778-959 | The body of an undisturbed check, in every phase, ends one rung lower or raises without having changed the item. |
| Progress.QuiesceLowers | infra/lambda/api_sleep_controller.py:884-959 | An undisturbed check on a present group outside the snapshot phases ends one rung lower. |
| Progress.DeleteLowers | infra/lambda/api_sleep_controller.py:855-882 | An undisturbed check with the snapshot ready commits and requests the deletion. |
| Progress.AwaitSnapshotLowers | infra/lambda/api_sleep_controller.py:840-853 | A finished snapshot moves the check on; a failed or vanished one raises and leaves the item. |
| Progress.AdoptLowers | infra/lambda/api_sleep_controller.py:817-836 | With the group absent an undisturbed check adopts the available snapshot and sleeps. |
| Progress.AsleepStays | infra/lambda/api_sleep_controller.py:981-1003 | An undisturbed check of a sleeping, absent cache changes nothing and reports that it sleeps already. |
| Outcomes.CheckReportsActivity | infra/lambda/api_sleep_controller.py:732-766 | A check that goes on to sleep reports the worker exactly when one of its counts is not zero, a missing metric exactly when the worker is quiet, there is no datapoint and no clock is recorded in QUIESCING, SNAPSHOTTING, SNAPSHOT_READY or DELETING, the queue exactly when its datapoint is positive, and ECS tasks exactly when only they are left. |
| Outcomes.CheckGivesUp | infra/lambda/api_sleep_controller.py:769-788 | Such a check gives up its clock, and a snapshot under way with its name, and leaves cache, snapshots and API alone. |
| Outcomes.CheckLogsActivity | infra/lambda/api_sleep_controller.py:779-788 | It reports activity in every one of these cases but that of a missing metric. |
| Outcomes.CheckStopsApi | infra/lambda/api_sleep_controller.py:790-798 | With everything else quiet a running API is scaled to zero, and the clock given up. |
| Outcomes.CheckAwaitsApiTasks | infra/lambda/api_sleep_controller.py:800-805 | With the API scaled down, remaining API tasks keep the cache awake and give up the clock. |
| Outcomes.CheckWithoutHibernation | infra/lambda/api_sleep_controller.py:807-815 | Without hibernation the item sleeps and the cache stays. |
| Outcomes.CheckOfAbsentCache | infra/lambda/api_sleep_controller.py:817-837 | An absent cache is taken to sleep exactly when the named snapshot, or the latest if none is named, is available; otherwise the check records an error. |
| Outcomes.CheckWhileSnapshotting | infra/lambda/api_sleep_controller.py:840-853 | SNAPSHOTTING goes on to SNAPSHOT_READY exactly when snapshot and group are available, fails exactly when the snapshot has no name, is gone or failed, and waits otherwise. |
| Outcomes.CheckWithSnapshotReady | infra/lambda/api_sleep_controller.py:855-882 | SNAPSHOT_READY deletes the group behind DELETING exactly when snapshot and group are available, with the guards logged in order; it fails exactly when the snapshot is not. |
| Outcomes.CheckOfUnavailableCache | infra/lambda/api_sleep_controller.py:884-906 | In every other phase a deleting group is recorded as DELETING and any other unavailable one is waited for. |
| Outcomes.CheckQuiesces | infra/lambda/api_sleep_controller.py:908-959 | An available group: without a carried clock the clock starts now, before the quiescence time it waits, and from then on the snapshot is requested; only QUIESCING and DELETING carry a clock on, and DELETING drops its snapshot name. |
| Outcomes.CheckOfUnprotectedSleep | infra/lambda/api_sleep_controller.py:981-1003 | A sleeping item whose cache is gone and whose snapshot is not available is recorded as an error. |
| Outcomes.RenewedLeaseKeepsAwake | infra/lambda/api_sleep_controller.py:725-798 | A lease renewed since it was read is reported by the first guard, and after scaling it brings the API back to one task; the clock and a snapshot under way are given up and the cache stays. |
| Outcomes.ReturningApiKeepsAwake | infra/lambda/api_sleep_controller.py:868-939 | An API that shows again behind the second guard is reported, gives up the clock and the snapshot, and keeps the cache. |
| Outcomes.SecondGuardKeepsAwake | infra/lambda/api_sleep_controller.py:859-936 | Whatever the second guard finds, before a snapshot as before a deletion, is reported, gives up the clock and the snapshot, and keeps the cache. |
| Outcomes.ReconciledIs | infra/lambda/api_sleep_controller.py:686-698 | What each of the three ways to reconcile has stored before it does: an accepted wake the new lease, the request time, no clock and no error, API_STARTING if it is the first; a fresh lease only the wish and the request time; an interrupted wake nothing. |
| Outcomes.WakingAwaitsTheCache | infra/lambda/api_sleep_controller.py:642-645 | A wake, a check with a fresh lease and a continued wake store and answer DELETING exactly for a deleting group and RESTORING exactly for a starting or busy one, with 202 and no API counts. |
| Outcomes.WakingServes | infra/lambda/api_sleep_controller.py:588-641 | With the group available and the URL usable, each asks for one API task; the phase is ACTIVE exactly when one runs or it was before, else API_STARTING; the URL names the endpoint; old snapshots are pruned exactly on becoming ACTIVE. |
| Outcomes.WakingRestores | infra/lambda/api_sleep_controller.py:647-675 | With the group absent, each creates it from the protected snapshot, or from the latest if that is gone, exactly when it is available, and stores RESTORING with its name. |
| Outcomes.WakingAnswersTruthfully | infra/lambda/api_sleep_controller.py:573-645 | Whatever is answered, its phase is the stored one, and its code is 200 exactly when the counts answered have a running API task, else 202. |
| Outcomes.ReconcileFailsExactlyWhen | infra/lambda/api_sleep_controller.py:588-675 | Reconciling fails exactly when no snapshot can be restored, the URL is unusable with the group available, or there is none to restore with. |
| Outcomes.WakingRecordsFailure | infra/lambda/api_sleep_controller.py:700-716 | When reconciling fails the item ends in ERROR without a clock, and the answer is 500 or a dependency error. |
| Cloud.RunEvolves | infra/lambda/api_sleep_controller.py:139-179 | Across any number of environment steps the item, the lease, the URL, the log and available snapshots stay, an available group keeps its endpoint, and a stopped API stays stopped unless outside scaling shows. |
| Cloud.RunKeeps | infra/lambda/api_sleep_controller.py:139-179 | No number of environment steps breaks the invariant, whatever the invocation is about to write. |
| Cloud.ZeroProofLater | infra/lambda/api_sleep_controller.py:758-766 | Evidence of an idle queue by some time is evidence by any later time. |
| Controller.PutKeeps | infra/lambda/api_sleep_controller.py:230-280 | Writing an item that fits the world, with at most the acceptance of a wake logged, keeps the invariant. |
| Controller.DeleteKeeps | infra/lambda/api_sleep_controller.py:873-878 | A deletion keeps the invariant when the guard has just been clear, the API and all others are quiet and the protected image is the cache contents. |
| Controller.RequestKeeps | infra/lambda/api_sleep_controller.py:941-953 | A snapshot request under a fresh, protected name keeps the invariant once the quiescence time has passed. |
| Controller.RestoreKeeps | infra/lambda/api_sleep_controller.py:668-669 | Creating the group from the protected snapshot keeps the invariant. |
| Controller.Lambda.Transition | infra/lambda/api_sleep_controller.py:230-280 | Writes exactly the requested fields one revision on when the base is current; a stale base writes nothing; the invariant holds wherever the call fails. |
| Controller.Lambda.MarkError | infra/lambda/api_sleep_controller.py:283-292 | Records ERROR on the held item; if the item has moved on it stays as it is; exceptions are swallowed. |
| Controller.Lambda.WakeIsStale | infra/lambda/api_sleep_controller.py:725-729 | Undisturbed, true exactly when the lease is unchanged and older than the idle timeout. |
| Controller.Lambda.Watch | infra/lambda/api_sleep_controller.py:732-755 | The guard in the order of its calls; clear means: a datapoint or permission to miss it, no API task when none is allowed and none wanted, and no worker or standalone evidence left. |
| Controller.Lambda.ActivityGuard | infra/lambda/api_sleep_controller.py:732-755 | A clear guard is logged with what it saw; a guard that found something or failed logs nothing. |
| Controller.Lambda.Invalidate | infra/lambda/api_sleep_controller.py:769-775 | Afterwards no quiescence time is recorded and no snapshot is under way; nothing is written when there was nothing to clear. |
| Controller.Lambda.KeepAwake | infra/lambda/api_sleep_controller.py:779-788 | Gives up quiescence and snapshot, reports the reason, and keeps the invariant. |
| Controller.Lambda.StopApi | infra/lambda/api_sleep_controller.py:790-798 | Scales the API to zero after giving up the clock, and back to one when the lease has changed meanwhile. |
| Controller.Lambda.AdoptSleep | infra/lambda/api_sleep_controller.py:817-837 | With the group absent only an available snapshot, protected or newest, lets the item sleep; otherwise it raises. |
| Controller.Lambda.AwaitSnapshot | infra/lambda/api_sleep_controller.py:840-853 | Moves on only when both snapshot and group are available; a missing, nameless or failed snapshot raises. |
| Controller.Lambda.DeleteProtected | infra/lambda/api_sleep_controller.py:855-882 | Deletes only behind an available protected snapshot and a second clear guard without API tasks; undisturbed it does exactly the described step. |
| Controller.Lambda.DeleteCleared | infra/lambda/api_sleep_controller.py:868-873 | Re-reads the API counts and the group before committing; any activity gives up the snapshot. |
| Controller.Lambda.CommitDelete | infra/lambda/api_sleep_controller.py:873-882 | Writes DELETING and then requests the deletion; the invariant holds wherever the two are cut off or fail. |
| Controller.Lambda.StartSnapshot | infra/lambda/api_sleep_controller.py:927-936 | Takes a snapshot only after a clear guard without API tasks, with the quiescence time passed. |
| Controller.Lambda.SnapshotCleared | infra/lambda/api_sleep_controller.py:937-946 | Re-reads the API counts before committing to a snapshot. |
| Controller.Lambda.CommitSnapshot | infra/lambda/api_sleep_controller.py:941-959 | Writes SNAPSHOTTING with the new name and then requests the snapshot; the invariant holds wherever the two are cut off or fail. |
| Controller.Lambda.AwaitQuiescence | infra/lambda/api_sleep_controller.py:917-925 | Starts the clock on a clear check, waits until it has run long enough, then goes on to the snapshot. |
| Controller.Lambda.BeginQuiescing | infra/lambda/api_sleep_controller.py:888-915 | A deletion that was never accepted keeps its clock and drops its snapshot name; any other phase starts with a new clock. |
| Controller.Lambda.Quiesce | infra/lambda/api_sleep_controller.py:884-925 | A deleting group is only recorded, an unavailable one waited for, an available one quiesced. |
| Controller.Lambda.ProgressCache | infra/lambda/api_sleep_controller.py:807-959 | Dispatches on hibernation, group and phase; undisturbed it does exactly the described step. |
| Controller.Lambda.ProgressApi | infra/lambda/api_sleep_controller.py:790-806 | No cache step is taken while the API has counts or tasks. |
| Controller.Lambda.ProgressSleep | infra/lambda/api_sleep_controller.py:778-959 | A whole sleep step keeps the invariant wherever it fails, and undisturbed is its atomic description, which the `Outcomes.Check…` rows spell out case by case. |
| Controller.Lambda.Publish | infra/lambda/api_sleep_controller.py:500-510 | On success the stored URL has the endpoint as its host; an unreadable URL changes nothing. |
| Controller.Lambda.EnsureApi | infra/lambda/api_sleep_controller.py:594-596 | Raises the API count exactly when it is not one, and only on a present group that this invocation has seen available and the URL names. |
| Controller.Lambda.Prune | infra/lambda/api_sleep_controller.py:605-608 | The protected snapshot is never deleted, whatever fails; undisturbed exactly the victims are; failures do not surface. |
| Controller.Lambda.LaunchApi | infra/lambda/api_sleep_controller.py:594-609 | Turns ACTIVE only once the API is seen running, then prunes. |
| Controller.Lambda.StartApi | infra/lambda/api_sleep_controller.py:588-609 | Publishes the endpoint, then writes API_STARTING, then raises the API. |
| Controller.Lambda.KeepActive | infra/lambda/api_sleep_controller.py:630-640 | Republishes the endpoint only if the URL does not match, then makes sure of the API. |
| Controller.Lambda.ChooseSnapshot | infra/lambda/api_sleep_controller.py:647-653 | While the group is gone the protected snapshot is chosen, and it is available. |
| Controller.Lambda.Restore | infra/lambda/api_sleep_controller.py:647-675 | Undisturbed, RESTORING is recorded with the chosen name before the group is created from it, an unavailable snapshot only waits, and an unreadable URL raises and is recorded. |
| Controller.Lambda.CreateGroup | infra/lambda/api_sleep_controller.py:520-521 | Undisturbed, an unreadable URL is recorded as an error and raised, and any other creates the group. |
| Controller.Lambda.RequestGroup | infra/lambda/api_sleep_controller.py:668-675 | Creating the group from the protected snapshot keeps the invariant wherever the call fails. |
| Controller.Lambda.ReconcileDisabled | infra/lambda/api_sleep_controller.py:613-624 | Without hibernation the API is raised and the item made ACTIVE. |
| Controller.Lambda.Reconcile | infra/lambda/api_sleep_controller.py:612-675 | Every branch of reconciliation keeps the invariant wherever it fails, and undisturbed is its atomic description, which the `Outcomes.Waking…` rows spell out case by case. |
| Controller.Lambda.AwaitGroup | infra/lambda/api_sleep_controller.py:642-645 | Undisturbed, a present group that is not available is waited for in the phase of its status. |
| Controller.Lambda.ReportServices | infra/lambda/api_sleep_controller.py:988-999 | Undisturbed, sleep is reported exactly when both services are stopped, and drift otherwise; nothing changes. |
| Controller.Lambda.HandleWake | infra/lambda/api_sleep_controller.py:678-716 | A wake keeps the invariant and the revision order wherever it is cut off; undisturbed it leases, writes and reconciles in that order. |
| Controller.Lambda.AcceptWake | infra/lambda/api_sleep_controller.py:686-706 | Undisturbed, the lease and the accepted item are written before reconciling; the invariant and the revision order hold wherever it is cut off. |
| Controller.Lambda.FailWake | infra/lambda/api_sleep_controller.py:707-716 | Undisturbed, the exception is recorded against the item held. |
| Controller.Lambda.HandleIdleCheck | infra/lambda/api_sleep_controller.py:962-1037 | A check keeps the invariant and the revision order wherever it is cut off; undisturbed it is its atomic description. |
| Controller.Lambda.Conclude | infra/lambda/api_sleep_controller.py:1026-1037 | Undisturbed and with an item held, a lost write is reported as a conflict, and any other exception is recorded and reported as a dependency error. |
| Controller.Lambda.RecentWake | infra/lambda/api_sleep_controller.py:967-976 | With a fresh lease the item is asked to be awake before it is reconciled. |
| Controller.Lambda.CheckStale | infra/lambda/api_sleep_controller.py:981-1025 | A sleeping item is only re-examined; everything else progresses. |
| Controller.Lambda.CheckAsleep | infra/lambda/api_sleep_controller.py:981-1003 | With the cache absent the protected snapshot must be available; running services are reported as drift. |
| Controller.Lambda.CheckAwake | infra/lambda/api_sleep_controller.py:1005-1025 | An interrupted wake is continued; otherwise sleep is asked for and progressed. |
| StateHistory.Overlap | infra/lambda/api_sleep_controller.py:200-292 | Any number of overlapping invocations, each asking for changes to whatever it last read or wrote, leave a history in which every entry is written on its immediate predecessor. |
| StateHistory.EntryFollowsPredecessor | infra/lambda/api_sleep_controller.py:230-280 | Entry i has revision i + 1 and is its immediate predecessor with exactly the requested fields set or removed and every other field as it was. |
| StateHistory.FieldStays | infra/lambda/api_sleep_controller.py:231-236 | A field keeps its value over any number of entries that do not ask for it. |
| StateHistory.LastRequestStands | infra/lambda/api_sleep_controller.py:231-236 | A field holds what the last entry that asked for it asked, whoever has written since. |
| StateHistory.MergedField | infra/lambda/api_sleep_controller.py:239-253 | The written row carries every field under its name: the requested value if it was asked for, else that of the held item. |
| StateHistory.ErrorRecord | infra/lambda/api_sleep_controller.py:283-292 | An error record makes the item ERROR, removes its clock, names the error and keeps the other fields. |
| StateHistory.RevisionIdentifies | infra/lambda/api_sleep_controller.py:257-267 | A base that was ever held carries the current revision only if it is the current item, so comparing revisions is enough. |
| StateHistory.RevisionsAreConsecutive | infra/lambda/api_sleep_controller.py:230-280 | The revision stored is the number of successful writes. |
| StateHistory.Table.HoldsMeans | infra/lambda/api_sleep_controller.py:257-267 | The condition evaluated on the row’s attribute text is true exactly for the current item, or for none when none is stored. |
| StateHistory.Table.Transition | infra/lambda/api_sleep_controller.py:230-280 | A stale base writes nothing whatever happens to the reply; a current one appends exactly the requested changes to it, or nothing if the call was not applied. |
| StateHistory.Table.MarkError | infra/lambda/api_sleep_controller.py:283-292 | An error recorded against a stale item changes nothing; against the current one it is appended if the call arrives. |
| StateHistory.Table.Read | infra/lambda/api_sleep_controller.py:200-227 | Reading returns exactly the item last written, or the assumed one if none was. |
| StateHistory.RowExactly | infra/lambda/api_sleep_controller.py:239-253 | The row, field by field: names, kinds and texts, and absent fields left out. |
| StateHistory.NamesInTheRow | infra/lambda/api_sleep_controller.py:216-253 | The texts of the nine phases and the two wishes. |
| StateHistory.MergeExactly | infra/lambda/api_sleep_controller.py:230-238 | Each field is the held one if it was not asked for, gone if it was cleared, and the given value if it was set. |
| StateHistory.DecodeOfEncode | infra/lambda/api_sleep_controller.py:216-253 | Reading a written row gives back every field, absent ones included. |
| LateDeletion.LateDeletionIsSafeExactlyWhileApiUnasked | infra/lambda/api_sleep_controller.py:873-878 | A check has written DELETING; whatever the environment does and however many other wakes are accepted before its deletion, the deletion is safe however long it takes if and only if the API has not been asked for. |
| LateDeletion.OneWakeIsEnough | infra/lambda/api_sleep_controller.py:873-878 | With an available cache and a usable URL, one other wake between the write and the deletion is enough: the deletion then loses a later write although the item has moved on. |
| LateDeletion.MovesKeepGuarded | infra/lambda/api_sleep_controller.py:612-675 | Environment steps and other wakes keep the present group and its protected snapshot, and the contents until the API is asked for. |
| LateDeletion.OtherWakeKeeps | infra/lambda/api_sleep_controller.py:678-716 | A wake on a present group leaves the group, the contents, the protected snapshot and the tasks alone, and only ever asks for one API task. |
| RedisUrl.RewriteReaddresses | infra/lambda/api_sleep_controller.py:489-497 | Replacing the endpoint in the text succeeds exactly on the usable URLs, and in the address it keeps scheme, user information, query and fragment (section 3 of RFC 3986), keeps the path up to a leading slash, sets the host, and keeps the port or fills in the configured one. |
| RedisUrl.RewriteIdempotent | infra/lambda/api_sleep_controller.py:489-497 | Rewriting the text twice is rewriting it once. |
| RedisUrl.RewriteMatchesExactlyWhen | infra/lambda/api_sleep_controller.py:489-517 | A rewritten URL matches the cache if and only if the endpoint has no capital letters and the URL’s own port is missing, zero or the configured one. |
| RedisUrl.PointsAtHost | infra/lambda/api_sleep_controller.py:513-517 | A URL that matches the cache has the endpoint, in lower case, as its host. |
| RedisUrl.AddressesAreCanonical | infra/lambda/api_sleep_controller.py:513-517 | The host read from any URL text is in lower case unless it carries a zone. |
| RedisUrl.SplitOfCompose | infra/lambda/api_sleep_controller.py:489-497 | Splitting undoes composing on all well-formed parts. |
| RedisUrl.EndpointReplacedInText | infra/lambda/api_sleep_controller.py:489-497 | On text: scheme, ://, user information with @ if any, host, port if any, path, query and fragment become the same scheme and user information, the endpoint, the URL’s own port if it is in range and not zero or else the configured one, and the same rest with the path rooted. |
| RedisUrl.EndpointGivenToText | infra/lambda/api_sleep_controller.py:489-497 | On text without a network location the endpoint and the configured port become one. |
| RedisUrl.AddressOfText | infra/lambda/api_sleep_controller.py:513-517 | What such a text is read as: its scheme, user information, lower-case host, port, path, query and fragment. |
| SnapshotNames.PrefixExactly | infra/lambda/api_sleep_controller.py:405-410 | The prefix is the first 18 configured characters without the dashes they end in, and begins with a letter. |
| SnapshotNames.ParsesExactly | infra/lambda/api_sleep_controller.py:405-424 | The matcher accepts exactly prefix, fourteen digits and six digits joined by dashes, and the two numbers are determined by the name. |
| SnapshotNames.GeneratedNameRoundTrips | infra/lambda/api_sleep_controller.py:405-462 | A generated name has at most 40 characters, is accepted, and gives back its timestamp fields and its nonce. |
| SnapshotCatalog.NewestUnique | infra/lambda/api_sleep_controller.py:445-457 | At most one snapshot is newest: creation text and name order all snapshots. |
| SnapshotCatalog.NewestExists | infra/lambda/api_sleep_controller.py:451-457 | A nonempty set of available snapshots has a newest one. |
| SnapshotCatalog.OlderTransitive | infra/lambda/api_sleep_controller.py:445-448 | The sort key orders snapshots transitively. |
| SnapshotCatalog.LessMeans | infra/lambda/api_sleep_controller.py:445-448 | One text is less than another exactly when the other is larger at the first position where they differ, or extends it. |
| SnapshotCatalog.OlderMeans | infra/lambda/api_sleep_controller.py:445-448 | The sort key puts one snapshot before another exactly when its creation text is less, or equal with a lesser name. |
| SnapshotCatalog.LatestExactly | infra/lambda/api_sleep_controller.py:451-457 | If the controller has an available snapshot there is a latest one, and it was created after every other, as the creation texts and then the names compare character by character. |
| SnapshotCatalog.LatestIsOwn | infra/lambda/api_sleep_controller.py:451-457 | The latest snapshot is available and one of the controller’s own. |
| SnapshotPruning.KeptAfterVictims | infra/lambda/api_sleep_controller.py:548-570 | Whatever is kept without being protected was created after everything that is deleted, in the same character by character sense. |
| SnapshotPruning.KeepingOneKeepsLatest | infra/lambda/api_sleep_controller.py:548-570 | With a retention of one and nothing protected exactly the latest snapshot is kept. |
| SnapshotPruning.VictimsExactly | infra/lambda/api_sleep_controller.py:548-570 | Pruning deletes exactly the available controller-named snapshots that have at least the retained number of newer ones and are not protected. |
| SnapshotPruning.PruningIsIdempotent | infra/lambda/api_sleep_controller.py:548-570 | Pruning again finds nothing to delete. |
| SnapshotPruning.PruningBounds | infra/lambda/api_sleep_controller.py:548-570 | At most one more than the retained number of snapshots remain, and no more than that number when nothing usable is protected. |
| SnapshotPruning.PruningKeepsLatest | infra/lambda/api_sleep_controller.py:451-457 | With a positive retention, the snapshot a restore would fall back to is the same before and after. |
| SnapshotPruning.SortedByRank | infra/lambda/api_sleep_controller.py:548-557 | Position i of the sorted list has exactly i newer snapshots. |
| SnapshotPruning.SnapshotService.ControllerSnapshots | infra/lambda/api_sleep_controller.py:427-442 | However the listing is split into pages, the loop returns each controller-named snapshot once. |
| SnapshotPruning.SnapshotService.LatestAvailable | infra/lambda/api_sleep_controller.py:451-457 | However the listing is paged, the newest available controller snapshot is returned, or none. |
| SnapshotPruning.SnapshotService.Prune | infra/lambda/api_sleep_controller.py:548-570 | The loop deletes the victims whose deletion is not refused and nothing else. |
| TaskScan.UnexpectedRunningTasks | infra/lambda/api_sleep_controller.py:319-359 | For every split into pages and every batch boundary, the scan raises exactly when a listed ECS task cannot be described, else returns each blocking one once; it is empty exactly when each is STOPPED, or listed only to run and in the allowed API group. |
| TaskScan.DescribeBatch | infra/lambda/api_sleep_controller.py:345-358 | One batch raises exactly when one of its members is unknown and otherwise appends its blocking members. |
| TaskScan.AddListing | infra/lambda/api_sleep_controller.py:325-340 | Following the tokens adds every listed member once and marks it with this listing’s status. |
| TaskScan.StoppedExactly | infra/lambda/api_sleep_controller.py:353-354 | A status counts as stopped exactly when it is the seven letters of STOPPED in either case. |
| TaskScan.BlocksExactly | infra/lambda/api_sleep_controller.py:353-358 | A listed ECS task blocks exactly when it has not stopped and is meant to stop, has no group or another group than the API’s, or API tasks are not allowed. |
| TaskScan.ScanCounts | infra/lambda/api_sleep_controller.py:341-359 | The length of the scan is the number the controller’s guards count. |
| Utf8.DecodeOfEncode | services/runner/src/index.ts:38-45 | Decoding encoded text gives the text back, whatever bytes follow (section 3 of RFC 3629). |
| Utf8.DecodeOfCutCharacter | services/runner/src/index.ts:44 | A character cut short decodes to one U+FFFD (section 3.9 of the Unicode Standard). |
| Utf8.EncodingTable | services/runner/src/index.ts:39 | The lengths, ranges and values of the table in section 3 of RFC 3629. |
| Utf8.CompleteIsEncoded | services/runner/src/index.ts:44 | Only encodings are read as characters: no overlong form, no surrogate and nothing beyond U+10FFFF. |
| Utf8.UnitIsMaximal | services/runner/src/index.ts:44 | The first unit of any bytes is their longest start that begins some encoding, or the first byte if none does (section 3.9 of the Unicode Standard). |
| Utf8.DecodesAsDefined | services/runner/src/index.ts:44 | Decoding any bytes gives the character if they begin with an encoding, else one U+FFFD for their maximal subpart, followed by the decoding of the rest. |
| Utf8.DecodingChunksApart | services/runner/src/index.ts:85-93 | Decoding two chunks apart gives the decoding of the whole if and only if the split lies between two units; otherwise it has strictly more characters. |
| OutputCapture.TruncateIsCut | services/runner/src/index.ts:38-45 | Cutting bytes and decoding is keeping the characters that fit, with one replacement for a character that fits in part. |
| OutputCapture.TruncateAbsorbs | services/runner/src/index.ts:85-93 | Truncating what came before, or what comes next, does not change the truncation of the whole. |
| OutputCapture.TruncateIdempotent | services/runner/src/index.ts:207-208 | Truncating twice is truncating once. |
| OutputCapture.TruncateShape | services/runner/src/index.ts:38-45 | The result is the longest prefix that fits plus at most one final U+FFFD, at most maxBytes + 2 bytes, and over maxBytes exactly when the limit falls one or two bytes into a character. |
| OutputCapture.LimitCanBeExceededByTwo | services/runner/src/index.ts:38-45 | A concrete input on which the result is two bytes over the limit. |
| OutputCapture.Capture | services/runner/src/index.ts:85-93 | The data handlers leave one truncation of the decoded stdout chunks in order on stdout, and of the stderr chunks on stderr. |
| OutputCapture.ChunkGoesToItsStream | services/runner/src/index.ts:85-93 | A chunk of stdout adds its decoded bytes to stdout and nothing to stderr, one of stderr the other way round, and no chunk gives nothing. |
| OutputCapture.WrittenIsItsOwnChunks | services/runner/src/index.ts:85-93 | The text of each stream is that of exactly its own chunks, in order, each decoded on its own. |
| OutputCapture.ChunksDecodeApart | services/runner/src/index.ts:85-93 | Decoding chunk by chunk gives the text of the whole output if and only if no chunk begins inside a character; otherwise it has strictly more characters. |
| StepBudget.Execute | services/runner/src/index.ts:167-211 | The step loop: one truncation of the stdout chunks of the started steps on stdout and of their stderr chunks on stderr; the time given to each; succeeded if and only if there is a step, all exit 0 and no timer fires; exit code and time-out of the last started step; ends within the bound. |
| StepBudget.TextIsItsOwnChunks | services/runner/src/index.ts:167-211 | What the steps wrote to a stream is the text of exactly its own chunks, step after step. |
| StepBudget.StartedExactly | services/runner/src/index.ts:191-198 | Steps are started up to and including the first that does not exit 0 or times out. |
| StepBudget.RemainingExactly | services/runner/src/index.ts:174-175 | A step is given what is left of the budget, and never less than 100 ms. |
| StepBudget.RunStep | services/runner/src/index.ts:177-187 | The output of one more step, truncated on its own and again with what there was, is one truncation of everything so far. |
| StepBudget.EndsInTime | services/runner/src/index.ts:174-175 | If each step ends within the time given to it, the run ends by the deadline (or 100 ms into the first step) plus 100 ms and the pause before each later step. |
| StepBudget.BudgetWithoutPauses | services/runner/src/index.ts:167-184 | Without pauses a k-step run ends by timeoutMs + 100 (k - 1). |
| StepBudget.BudgetIsTight | services/runner/src/index.ts:167-184 | For every k there is a succeeding plan that reaches that bound. |
| Quota.Conservation | services/api/src/quota.ts:21-110 | A tenant’s active counter is admitted less rolled back less released jobs, and no job is both or twice. |
| Quota.Run | services/worker/src/store.ts:43-54 | Any interleaving of submissions, failed submissions, attempts, retries and endings keeps every counter equal to the jobs it stands for and within the largest limit of the tenant’s principals, and does exactly what the step function says. |
| Quota.RunGoesOn | services/worker/src/store.ts:43-54 | Over any continuation a job keeps its tenant and day, a slot given back stays given back once, and the hash of a settled job is not overwritten. |
| Quota.TerminalStatusSurvivesExactlyWhenSettled | services/worker/src/store.ts:99-177 | The terminal status of a job whose outcome is written survives every continuation if and only if no retry and no dispatch is still to be noted. |
| Quota.LocalLife | services/worker/src/index.ts:85-158 | Admitted below both limits, retried any number of times within its attempts and completed by the worker, a job leaves its result and the number of its attempt in the hash, the slot free, the day one higher and nothing else changed. |
| Quota.TaskLife | services/runner/src/index.ts:271-287 | The same for a job handed to a runner task: its own result replaces the dispatch note, and the slot is its to give back. |
| Quota.FailingLife | services/worker/src/index.ts:188-225 | A job whose every attempt fails ends as failed with all attempts made, the slot free, the day one higher and nothing else changed. |
| Quota.AttemptedRuns | services/worker/src/index.ts:85-206 | However often a job is retried, one slot and one place in the day are taken, the hash says running and counts the attempts, and nothing else changes. |
| Quota.CancelledSubmission | services/api/src/index.ts:1517-1604 | A submission that is cancelled before it is enqueued leaves both counters as they were and no hash. |
| Quota.RefusedSubmission | services/api/src/quota.ts:21-45 | At either limit, or under a taken id, a submission changes nothing. |
| Quota.LocalEnd | services/worker/src/store.ts:179-234 | The result is in the hash while the slot is still held; giving it back lowers the counter by one, and again changes nothing. |
| Quota.TaskEnd | services/worker/src/store.ts:130-177 | The dispatched job keeps its slot until the runner has written its result, and gives it back once. |
| Quota.LastAttemptFails | services/worker/src/store.ts:255-281 | After the last failure the slot is kept until the failure is in the hash, and is given back once. |
| Quota.RetriedAttempt | services/worker/src/store.ts:99-128 | A failed attempt with attempts left is noted as retrying with the failed count, keeps its slot, and runs again as the next attempt. |
| Quota.Take | services/worker/src/index.ts:85-185 | One step of any service keeps the counters exact and the limits, and does exactly what the step function says. |
| Quota.NoFloor | services/worker/src/store.ts:46-49 | A job that holds a slot shows in both counters, so a decrement is never cut short at zero. |
| Quota.AdmissionKeeps | services/api/src/quota.ts:37-38 | Admitting one job raises its tenant’s two counters and its tenant’s jobs by one each, and no other. |
| Quota.ReleasingKeeps | services/worker/src/store.ts:43-54 | Releasing one job lowers its tenant’s counter and holders by one each and leaves the day’s count. |
| Quota.Backend.Reserve | services/api/src/quota.ts:21-45 | Admits exactly below both limits, names the limit that refuses, concurrent first, and reports the usage. |
| Quota.Backend.Submit | services/api/src/index.ts:1517-1545 | A refused submission changes nothing; an admitted one holds one slot within its principal’s limit. |
| Quota.Backend.CancelSubmission | services/api/src/index.ts:1601-1604 | A submission that fails before it is enqueued gives back exactly its slot and its place in the day. |
| Quota.Backend.FailAttempt | services/worker/src/index.ts:188-197 | A failed attempt with attempts left goes back to the queue and moves no counter; the last one exhausts the job. |
| Quota.Backend.NoteRetry | services/worker/src/store.ts:99-128 | The retry note overwrites the hash, however late, and moves no counter. |
| Quota.Backend.NoteDispatch | services/worker/src/store.ts:130-177 | The dispatch note overwrites the status, whatever the runner has written, and moves no counter. |
| Quota.Backend.ReleaseSlot | services/runner/src/index.ts:278-287 | After a local result, a runner result or a final failure the slot is released once, and the counter falls by exactly one. |
| Quota.DispatchOverwritesResult | services/worker/src/index.ts:139-148 | A run in which a finished job ends up as dispatched. |
| Quota.RetryNoteOverwritesResult | services/worker/src/index.ts:188-206 | A run in which a job that finished locally ends up as retrying. |
| DlqReplay.FetchJobs | scripts/replay-dlq.mjs:40-58 | For every batch size of at least one, every job of every state is returned exactly once and in order. |
| DlqReplay.Queues.Replay | scripts/replay-dlq.mjs:60-95 | Wherever the run is cut short, the job ids found in the two queues together are the same as before; a finished run counts exactly the entries without a payload as skipped, exactly those added and removed (all others in a dry run) as recovered and the rest as failed; without errors no payload is left behind. |
| DlqReplay.Queues.Move | scripts/replay-dlq.mjs:69-94 | One job is in the main queue, under its id, -replay- and the time, before it leaves the dead-letter queue; no other job moves; how it is counted follows exactly from its payload and the fates of the two calls. |
| DlqReplay.SkippedAre | scripts/replay-dlq.mjs:68-73 | The skipped count is the number of entries without a payload. |
| DlqReplay.RecoveredAre | scripts/replay-dlq.mjs:75-90 | The recovered count is the number of entries with a payload whose add and removal both succeed, or of all with a payload in a dry run. |
| DlqReplay.TargetIsInjective | scripts/replay-dlq.mjs:75 | A replay key determines the job it is for, whatever the clock says. |
| RateLimit.NeverResetExactlyWhenInTime | services/api/src/index.ts:293-308 | For scripts that run some time after their request read the clock, expiry never resets the counter of a window if and only if each script runs within a window’s length of the first script of its window. |
| RateLimit.PromptScriptsAreInTime | services/api/src/index.ts:777-789 | Scripts that run before their window is over, in particular without delay, satisfy that condition. |
| RateLimit.LateScriptResetsCounter | services/api/src/index.ts:293-308 | A concrete delay of one millisecond on which a window with limit one admits two requests. |
| RateLimit.Limiter.Evaluate | services/api/src/index.ts:777-804 | A request is counted in the window of its clock reading when its script runs, and is allowed exactly while the count answered is within the limit. |
| RateLimit.Limiter.Increment | services/api/src/index.ts:293-308 | The script counts on while the key lives, starts over when it has expired, and sets the expiry only then. |
| RateLimit.Serve | services/api/src/index.ts:777-833 | Each verdict on requests whose scripts run in order is the answered count against the limit. |
| RateLimit.AdmittedExactly | services/api/src/index.ts:777-804 | As long as no script runs a window’s length after another of its window, a request is admitted exactly when at most `limit` requests so far, itself included, read the same clock reading divided by 1000 and by the window. |
| RateLimit.LateScriptCountsOne | services/api/src/index.ts:293-308 | The first script of a window that is late counts one and sets a new expiry a window’s length on. |
| RateLimit.WindowAdmits | services/api/src/index.ts:777-804 | With scripts on time a window admits exactly its first `limit` requests. |
| RateLimit.IntervalAdmitsTwiceTheLimit | services/api/src/index.ts:777-804 | With scripts on time any interval of clock readings as long as a window admits at most twice the limit. |
| RateLimit.TwiceTheLimitIsReached | services/api/src/index.ts:777-804 | For every window and limit there are requests without any delay that reach twice the limit. |
| Backoff.FirstDelay | services/worker/src/index.ts:34-38 | The first delay is the base plus what was drawn, up to the cap. |
| Backoff.NextDelay | services/worker/src/index.ts:34-38 | Each further attempt doubles the part of the delay that was not drawn, up to the cap. |
| Backoff.DelaysNeverShrink | services/worker/src/index.ts:34-38 | Whatever is drawn, a later attempt waits at least as long as an earlier one, at least min(base, cap) and at most cap. |
| Controller.Lambda.WatchServices | infra/lambda/api_sleep_controller.py:738-742 | Undisturbed, the lease is looked at before the worker; finding neither means the worker shows no evidence once writers are held off. |
| Controller.Lambda.WatchQueue | infra/lambda/api_sleep_controller.py:743-751 | A clear queue means a datapoint of at most zero, or a missing one that was permitted. |
| Controller.Lambda.WatchTasks | infra/lambda/api_sleep_controller.py:752-755 | A clear listing means no standalone ECS task, and no API one when none is allowed and none wanted. |
| Controller.Lambda.GiveUp | infra/lambda/api_sleep_controller.py:769-791 | Clears clock and snapshot first; only then is the evidence of reported activity spent. |
| Controller.Lambda.Observe | infra/lambda/api_sleep_controller.py:139-165 | A call that reads returns what the world holds at that moment, or raises, or ends the invocation; it never changes what the controller owns. |
| Controller.Lambda.Do | infra/lambda/api_sleep_controller.py:172-185 | A call that changes the world takes effect exactly once when it succeeds, and at most once when it does not. |
| Controller.Lambda.LeaseAndRead | infra/lambda/api_sleep_controller.py:686-689 | An item is returned only with the new lease recorded, and it is the stored one. |
| Controller.Lambda.FinishWake | infra/lambda/api_sleep_controller.py:700-716 | Every outcome of the reconciliation gets its own answer, and an exception is recorded. |
| Controller.Lambda.RecordError | infra/lambda/api_sleep_controller.py:709-715 | Nothing surfaces but the end of the invocation; undisturbed, the error is recorded against the item held. |
| Controller.Lambda.ReadLeaseAndState | infra/lambda/api_sleep_controller.py:964-966 | Lease and item are the stored ones and the clock reading lies within the call; nothing changes. |
| Controller.Lambda.Reconciling | infra/lambda/api_sleep_controller.py:970-976 | A reconciliation in a check reports its code and phase, and its exceptions are recorded. |
| Controller.Lambda.Progressing | infra/lambda/api_sleep_controller.py:1025-1037 | A sleep step in a check ends with its exceptions recorded. |
| Controller.Lambda.ScaleApi | infra/lambda/api_sleep_controller.py:172-179 | Scaling keeps the item and, undisturbed, sets exactly the desired count. |
| Controller.Lambda.DropEach | infra/lambda/api_sleep_controller.py:564-570 | Whatever fails, the protected snapshot stays and no exception surfaces; undisturbed every victim is deleted. |
| SnapshotPruning.SnapshotService.AvailableSnapshots | infra/lambda/api_sleep_controller.py:427-456 | However the listing is paged, exactly the available controller-named snapshots are selected. |
| SnapshotPruning.SnapshotService.DeleteUnkept | infra/lambda/api_sleep_controller.py:564-570 | Deletes exactly what is listed, not kept and not refused. |
| TaskScan.AddPage | infra/lambda/api_sleep_controller.py:336-337 | One page adds its members in order, each once, and marks them with this listing’s status. |
| TaskScan.Describe | infra/lambda/api_sleep_controller.py:344-359 | Batching does not show: the result is that of one pass over all members. |
| Quota.TakeAttempt | services/worker/src/index.ts:103-185 | The steps of attempts keep the counters exact and the limits, and do what the step function says. |
| Quota.TakeEnding | services/worker/src/index.ts:188-239 | The steps that end jobs keep the counters exact and the limits, and do what the step function says. |
| Quota.Backend.Enqueue | services/api/src/index.ts:1562-1595 | Writing the hash and the queue entry moves no counter. |
| Quota.Backend.StartAttempt | services/worker/src/store.ts:69-97 | Writes the attempt that runs and moves no counter. |
| Quota.Backend.CompleteLocally | services/worker/src/store.ts:179-234 | Writes the result before the slot is given back. |
| Quota.Backend.StartTask | services/worker/src/index.ts:139 | A started runner owns the slot from now on; the dispatch note is still to come. |
| Quota.Backend.ReportResult | services/runner/src/index.ts:271 | The runner writes its result before it gives the slot back. |
| Quota.Backend.RecordFailure | services/worker/src/store.ts:255-281 | The final failure is written before the slot is given back. |
| DlqReplay.FetchState | scripts/replay-dlq.mjs:44-55 | The paging loop over one state returns that state’s jobs exactly once and in order. |

## Left out

- Authentication, HTTP routing, CORS, telemetry, audit events, cost estimation and the frontend: plumbing around the modelled cores.
- AWS, Redis, BullMQ, Docker and ECS wire formats: each is a small abstract state with the operations used. A malformed or ambiguous reply (no service, two groups, two primaries, no endpoint address, an unreadable lease) is a call that raises.
- Invalid controller configuration: a snapshot prefix without a leading letter yields no name and no recognized snapshot instead of an exception, and only ASCII digits count as digits.
- Snapshot statuses other than available, failed and deleted behave as a snapshot that is still being created.
- URLs: bracketed IPv6 hosts, stripping of control characters and lower-casing outside ASCII are not modelled; endpoints are letters, digits, dots, dashes and underscores.
- Durable rows whose phase or wish is none of the known texts, or whose numbers are negative: the controller would carry them along, here they cannot be read.
- The snapshot creation time is compared as text, as the controller does; that the text order is the time order is not claimed.
- Progress.WakesWithinThreeRounds: assumes the environment completes its pending actions between invocations and that no call fails; with failing calls only safety is claimed.
- Progress.FallsAsleepWithinNineChecks: assumes no services are scaled up once asleep and the zero datapoint stays visible until the quiescence time is recorded.
- Quota.Run: assumes Redis calls succeed, an enqueue that throws did not enqueue, RunTask starts one ECS job or none, and no attempt is delivered again after its worker died; admin bursts, dead-letter replay and key expiry bypass the reservation and are excluded.
- DlqReplay.Queues.Replay: the main queue is not consumed meanwhile, existing replay-style keys in it belong to the job they name, and two entries of the same job replayed in one millisecond leave one entry.
- RateLimit.Limiter.Evaluate: callers and Redis share one clock; the retry-after and reset headers are not modelled.
- Backoff.DelaysNeverShrink: exact integers; double-precision numbers are exact only up to 2^53.
- StepBudget.Execute: the time between a kill and the close of the process counts as the step's own time, as it does for the clock the loop reads.
- The dead-letter entry and its marking after a final failure: independent of the counters.
- Scale-signal arithmetic, payload size guards, history trimming and the metric period: single-function claims.
