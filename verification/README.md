# Sidey: queue, refresh workflow, content store and small algorithms

Sidey keeps sideloaded apps signed. Its control plane hands out work through a
lease-based job queue; a refresh of one deployment is a parent job whose signing
and installation are child jobs, driven by an orchestrator on the device host that
may crash between any two calls; signed files live in a content-addressed store
that a retention pass prunes. This project models that code in Dafny and proves
what its comments and tests promise, or, where a promise is false, the exact
condition under which it holds together with an input that breaks it.

`dafny verify dfyconfig.toml` checks everything.

## How the model is laid out

| file | what it models |
|---|---|
| `JobRows.dfy` | rows and tables, and each queue transaction as a function on a database snapshot |
| `JobQueue.dfy`, `JobApi.dfy` | the job service and the claim endpoint as classes whose methods are proved against those functions |
| `RowLaws.dfy` | what each of those transactions writes, column by column, and what follows over several of them |
| `JobRuns.dfy`, `JobHistory.dfy`, `Backoff.dfy`, `Conflicts.dfy`, `Leases.dfy`, `Installs.dfy` | whole runs: any interleaving of queue transactions, each an atomic step stamped with the database clock |
| `DeviceRefresh.dfy` | the refresh endpoints and the tail of the signed upload |
| `RefreshProtocol.dfy`, `RefreshSafety.dfy`, `RefreshTheorems.dfy`, `RefreshRecovery.dfy`, `RefreshMismatch.dfy`, `MismatchStory.dfy`, `OrchestratorLaws.dfy` | the orchestrator, the signing worker, the reaper, the scheduler and everyone else as one state machine, and what every story of it keeps |
| `Scheduler.dfy`, `SchedulerLaws.dfy`, `FrozenCycles.dfy`, `TickCount.dfy` | a scheduling tick, what its queries find and its passes write, ticks interleaved with everyone else, and the number a tick reports |
| `ContentStore.dfy`, `BlobSafety.dfy`, `UnlockedPublishers.dfy`, `CrossedRuns.dfy` | the store, uploads and prune passes alone, and interleaved with crashes, under the per-hash lock and without it |
| `Slices.dfy`, `AppleGuard.dfy`, `IpLimiter.dfy` | sliding windows compacted in place, against the full history |
| `Versions.dfy`, `VersionFields.dfy`, `VersionOrder.dfy`, `Updates.dfy`, `AltStore.dfy` | version comparison, the folds over it, and the grouping of a feed |
| `MachO.dfy` | the load-command patcher |
| `KnownServers.dfy` | the most-recently-used host list |

Conventions. A PostgreSQL transaction is one atomic step; its `now()` is a
parameter. Rows are numbered in the order `ORDER BY created_at, id` lists them, and
ids are never reused. The unique index on `idempotency_key` is a map; keys and
artifact ids are structured values, an artifact id splitting into the eight
characters a sign key keeps and the rest. `FOR UPDATE SKIP LOCKED` is a set of
locked rows. Case folding, lower-casing, hashing and number formatting are
function parameters.

## What the code does differently from its own description

- "Two agents can never execute conflicting jobs for the same device"
  (`internal/jobs/jobs.go:6-7`) is false: Claim never looks at the device's other
  active jobs (`internal/jobs/jobs.go:544-553`). `Conflicts.TwoAgentsOneDevice` is a
  run from an empty queue, `Conflicts.ApartRun` the exact condition over runs, and
  `Conflicts.ClaimKeepsApart` that of one Claim. One agent may hold two jobs of a
  device (`Conflicts.OneAgentTwoJobs`), as the device service does with a refresh and
  its install child; `Conflicts.ExclusiveRun` says when that does not happen either.
- An Update to `completed` that carries an error category or error details assigns
  that column twice, which PostgreSQL rejects; the model answers with an error and
  changes nothing.
- A certificate export that failed is purged by key alone, whatever state the row is
  in by then (`internal/api/certstore.go:133`). So a completed row, or a job in an
  agent's hands, is safe exactly from everything but that (`JobHistory.CompletedIsFinal`,
  `Leases.LeaseKeeping`).
- Only the artifact finally chosen is checked for approval. When an update is chosen
  and the request then falls back (`internal/api/device_refresh.go:269-276`), the
  original is signed unchecked: `DeviceRefresh.FallbackSignsUnapproved`, with the
  exact condition in `DeviceRefresh.QueuedSourceApproved`.
- The shift in `minBackoff` leaves its range from the 60th attempt on
  (`Backoff.DelayInRange`). The code sets at most 15 attempts.
- The parent's heartbeat is paused while the installer runs
  (`scripts/sidey-device.py:617-619`), so an install that outlasts the lease gets the
  parent requeued; `RefreshRecovery` shows the next attempt picks up where it stopped.
- With automatic updates on, a refresh can have two sign children, and ensure-install
  goes by the newest, not by the one awaited. If the service then runs the install
  job, it downloads the awaited artifact itself (`scripts/sidey-device.py:614`); but if
  the job is completed already, the refresh records an artifact the job did not put on
  the device. `MismatchStory.RecordedIsNotInstalled` is a story,
  `RefreshMismatch.RecordedIsInstalledExactly` the exact condition of each branch.
- `createRefreshJob` counts a job that already existed as created
  (`internal/scheduler/scheduler.go:267-271`), and so does the guard:
  `TickCount.TickReports` says when the number is right, `TickCount.CountsWhatItFinds`
  is a tick where it is not.
- A deployment not yet due can be given a guard refresh although its cycle died
  terminally: `TickCount.GuardedWhileFrozen` is such a tick, `FrozenCycles.FrozenTick`
  the exact condition. A dead guard row is never replaced for that expiry day.
- An original upload whose insert fails removes the file without asking whether it
  created it (`internal/api/artifacts.go:116-121`), and two publishers take no lock
  (`internal/api/store.go:1278`, `internal/api/accounts.go:487`): `BlobSafety` has a
  run for each in which a live row loses its file. `BlobSafety.FailedInsertIsSafe` is
  the exact condition for the first, `CrossedRuns.SafeExactlyWhenUncrossed` the one
  for runs with everyone, read off the run. The removal need not fall between the
  publication and the commit (`UnlockedPublishers.LateRemovalLosesFile`).
- `ipLimiter` reads the clock before it takes the lock, so served out of clock order
  it lets more than `max` through (`IpLimiter.OutOfOrderExceeds`);
  `IpLimiter.AgreesExactly` and `IpLimiter.NaiveExactly` say when it still does what
  its comment says. Its eviction never finds anything to evict (`IpLimiter.EvictionIdle`).
- `compareVersions` is not transitive: 9 < 10 < 1a < 9. `VersionOrder.FitsExactly`
  says for which segments it is. So the update list can miss a newer version:
  `Updates.MissedUpdate`, with `Updates.MissedExactly` for rows as they come and
  `Updates.OrdersNeverMiss` for any order.
- `patch_macho_platform` never looks at the magic number (`MachO.MagicIgnored`), though
  its comment says fat files are left alone (`MachO.FatIsPatched`); and it rewrites the
  next command after a build-version command of eight bytes
  (`MachO.ShortCommandCorruptsNext`).
- `handleListUpdates` returns early when nothing is deployed, so subscriptions never
  surface then (`internal/api/store.go:644-647`): `Updates.NothingDeployedNothingListed`,
  with the exact condition in `Updates.SurfacesIffNewer`.

## Model

| member | source | states |
|---|---|---|
| JobQueue.Service.InsertOrFind | internal/jobs/jobs.go:212-248 | one row per idempotency key: a second insert changes nothing and answers with the first row |
| JobQueue.Service.Create | internal/jobs/jobs.go:200-249 | type and key are demanded, in that order; otherwise a fresh pending row, or the row already under the key |
| JobQueue.Service.CreateRefresh | internal/jobs/jobs.go:255-297 | a device is demanded; otherwise the same for refresh jobs, with their own attempt budget |
| JobQueue.Service.ClaimSpecific | internal/jobs/jobs.go:310-355 | completed and own active jobs are handed back untouched, others' active jobs refused, failed and dead ones requeued and granted |
| JobQueue.Service.Earliest | internal/jobs/jobs.go:544-560 | the earliest pending due unlocked row of the device and types, or none if there is none |
| JobQueue.Service.DevicesInScope | internal/jobs/jobs.go:459-539 | the devices the caller may use, ascending, leaving out none that has a row to offer |
| JobQueue.Service.TakeDeviceless | internal/jobs/jobs.go:426-457 | at most one device-less job, only for a caller that names types, no devices, and is global or asks for global types |
| JobQueue.Service.TakeFrom | internal/jobs/jobs.go:540-580 | one turn of the device loop: the device's earliest row or proof that it has none |
| JobQueue.Service.Claim | internal/jobs/jobs.go:399-590 | at most the normalised limit, at most one job per device and one device-less, each on offer to this caller and earliest for its device, nothing passed over before the limit, all other rows unchanged |
| JobQueue.ClaimDetermined | internal/jobs/jobs.go:540-580 | that promise fixes the answer, ids and order: no other answer meets it |
| JobQueue.Service.Update | internal/jobs/jobs.go:593-676 | refused with the first failing check and no change at all (a completion with a category or details among them), or the row, deployment and installation record written together |
| JobQueue.Service.ApplyRefreshOutcome | internal/jobs/jobs.go:682-774 | what a completed or failed refresh writes, including the two error cases that roll the update back |
| JobQueue.Service.SelectExpired | internal/jobs/jobs.go:807-836 | exactly the unlocked rows that are past their lease, or failed refresh and sign jobs, each once |
| JobQueue.Service.Reap | internal/jobs/jobs.go:800-919 | each such row is killed for a terminal category or a spent budget, else requeued with its delay; no other row changes; the count is the number of rows |
| JobQueue.Service.DeleteDead | internal/scheduler/scheduler.go:357-363 | the row under the key goes if it is dead, taking its children's parent links with it; nothing else changes |
| JobQueue.Service.Purge | internal/api/certstore.go:133 | the row under the key goes in whatever state, with its children's parent links; nothing else changes |
| RowLaws.InsertMeans | internal/jobs/jobs.go:212-248 | an insert adds one waiting, unclaimed row on no attempt under the next id, or finds the row under the key and changes nothing |
| RowLaws.GrantMeans | internal/jobs/jobs.go:561-568 | being handed a job by Claim or ClaimSpecific makes it claimed by that agent, on the next attempt, with a lease that ends a lease after now, and touches no other column |
| RowLaws.LeaseFromGrant | internal/jobs/jobs.go:561-568 | from the grant on, the agent keeps that attempt if and only if no later reap comes more than a lease after its latest heartbeat, the grant counting as one, and nobody purges the key |
| RowLaws.ClaimSpecificMeans | internal/jobs/jobs.go:310-355 | the row as it is if completed or the caller's own, refused if another's, else granted |
| RowLaws.ClaimHandsOut | internal/jobs/jobs.go:426-560 | every job handed out is pending, unlocked, due, of a wanted type (never sign unless asked for) and of a device the caller may take from, and the earliest such of its device |
| RowLaws.ClaimIsBounded | internal/jobs/jobs.go:400-402 | at most as many jobs as asked for when 1 to 100 are, else at most ten; at most one per device, in device order |
| RowLaws.ClaimMissesNothing | internal/jobs/jobs.go:399-590 | a job on offer of a device that got none is passed over only if the limit was used up on earlier devices |
| RowLaws.RefusalMeans | internal/jobs/jobs.go:593-626 | an update is accepted if and only if its sender holds the row, the row is claimed or in progress, it asks for progress, completion or failure, a completion carries neither category nor details, and an ended refresh has a deployment and a readable result; each error has its own condition |
| RowLaws.UpdateMeans | internal/jobs/jobs.go:627-676 | an accepted update leaves no category on completion, else the one reported if there is one, else the old one; a lease a lease from now while in progress and none after; the result reported if any; no other column |
| RowLaws.RefusedMeansNothing | internal/jobs/jobs.go:593-626 | a refused update leaves every table as it was |
| RowLaws.OutcomeMeans | internal/jobs/jobs.go:682-774 | the deployment and installation record after a completed or failed refresh: a week from now is the expiry when the report has none, and the previous artifact becomes the rollback only when the reported one differs |
| RowLaws.ReapMeans | internal/jobs/jobs.go:839-898 | an unlocked overdue row is dead with its own category if and only if it failed for one of the five terminal ones, else dead with max attempts if and only if its attempt reached its budget (five if none is set), else pending; no other row changes |
| RowLaws.RetryAfter | internal/jobs/jobs.go:887-931 | a requeued row waits 30, 30, 60, 120, 240 seconds after attempts 0 to 4, then 300 |
| RowLaws.FailureKills | internal/jobs/jobs.go:849-866 | a sign or refresh job its holder reports failed for a terminal category is dead with exactly that category after the next reap that can lock it, over any run in between short of a purge or a ClaimSpecific of it |
| RowLaws.RemovalMeans | internal/scheduler/scheduler.go:357-363 | the row under the key goes if dead, or in any state when purged, with its key and its children's links; every other row and column stays |
| JobApi.AllowedJobTypes | internal/api/jobs.go:76-103 | no role is left without types; the signing types belong to the signing worker alone; only refresh agents and the device service see refreshes |
| JobApi.WhoMayClaim | internal/api/jobs.go:76-103 | for every job type, the roles that may ask for it; an unnamed type is nobody's |
| JobApi.Server.AgentRole | internal/api/agents.go:280-300 | the role used, and the promotion of an agent named signing-worker, which touches no other agent |
| JobApi.Server.HandleClaimJobs | internal/api/jobs.go:33-73 | forbidden exactly when a requested type is not the role's, and then the queue is unchanged; otherwise no row reaches a role that may not have its type, and signing rows reach only the signing worker; the agents table changes by the promotion alone, whatever the answer |
| JobRuns.RowStep | internal/jobs/jobs.go:310-919 | what a transaction does to a row depends on that row alone, up to a cleared parent link |
| JobRuns.NewRowStep | internal/jobs/jobs.go:200-297 | only an insert adds a row, under an id never used before |
| JobRuns.KeyStep | internal/scheduler/scheduler.go:357-363 | a key leaves the unique index exactly when its dead row is deleted or the key purged, and enters it exactly with a new row |
| JobRuns.StepWellFormed | internal/jobs/jobs.go:310-919 | every transaction keeps the unique index, the id sequence and the columns that go with each state |
| JobRuns.RunWellFormed | internal/jobs/jobs.go:310-919 | so does every run |
| JobRuns.RowDecreases | internal/jobs/jobs.go:561-568 | every move other than a heartbeat and ClaimSpecific strictly uses up 5*(max-attempt)+rank(state); Claim alone raises attempt; only a purge or the deletion of a dead row removes it |
| JobRuns.Termination | internal/jobs/jobs.go:839-898 | in any run a job never given to ClaimSpecific makes at most that many moves and is claimed at most max_attempts times |
| Backoff.ShiftValue | internal/jobs/jobs.go:925-931 | the 64-bit shift is exact up to 58 places and not positive beyond |
| Backoff.DelayInRange | internal/jobs/jobs.go:925-931 | the delay lies in 30..300 seconds if and only if the attempt is at most 59 |
| Backoff.DelayNeverShrinks | internal/jobs/jobs.go:925-931 | no earlier attempt waited longer if and only if the attempt is at most 59 |
| Backoff.RequeueDelay | internal/jobs/jobs.go:887-896 | a requeued job waits 30..300 seconds, and at least as long as after any earlier attempt, if and only if its attempt is at most 59, as it is under any budget up to 60 |
| JobHistory.HolderIsLatestGrantee | internal/jobs/jobs.go:561-568 | over any run, claimed_by names an agent if and only if it got the latest grant and nothing took the row back since |
| JobHistory.OnlyTheHolderUpdates | internal/jobs/jobs.go:613-618 | an accepted update comes from that agent; anyone else's leaves every table as it was |
| JobHistory.CompletedIsFinal | internal/jobs/jobs.go:776-784 | over any run a completed row never changes again, apart from losing a deleted parent, and is gone for good if and only if its key was purged |
| JobHistory.CompletesAtMostOnce | internal/jobs/jobs.go:666-669 | a row accepts at most one completion in any run, so the success branch of applyRefreshOutcome runs at most once for a refresh |
| Conflicts.ExclusiveStep | internal/jobs/jobs.go:544-568 | from a table where no two active rows share a device, a step keeps it so if and only if nothing it grants shares a device with an active row or another granted one |
| Conflicts.ExclusiveRun | internal/jobs/jobs.go:544-568 | over any run, no two jobs of one device are ever active together, whoever holds them, if and only if every step of it is such a step |
| Conflicts.ClaimKeepsExclusive | internal/jobs/jobs.go:540-568 | one Claim keeps each device at one active job if and only if no device of a job it hands out has one active already, the caller's own included |
| Conflicts.ApartStep | internal/jobs/jobs.go:544-568 | from a table where no two agents are at work on one device, a step keeps it so if and only if it grants no job of a device another agent is at work on |
| Conflicts.ApartRun | internal/jobs/jobs.go:6-7 | over any run, no two agents are ever at work on one device if and only if every step of it is such a step |
| Conflicts.ClaimKeepsApart | internal/jobs/jobs.go:540-568 | one Claim keeps agents apart if and only if no other agent is at work on the device of a job it hands out |
| Conflicts.BothClaimsAnswer | internal/jobs/jobs.go:544-553 | Claim hands the second job of a device to a second agent while the first is at work on it |
| Conflicts.TwoAgentsOneDevice | internal/jobs/jobs.go:6-7 | a run from an empty queue that ends with two agents active on one device |
| Conflicts.OneAgentTwoJobs | internal/jobs/jobs.go:544-553 | a run in which Claim hands one agent two jobs of a device: no two agents meet |
| Leases.HeartbeatsKeepTheJob | internal/jobs/jobs.go:620-626 | while no unlocked reap comes more than a lease after the last heartbeat and nobody purges the key, no schedule of reaps, claims and updates takes the job |
| Leases.EndTakesTheJob | internal/jobs/jobs.go:807-813 | the first such reap or purge takes that attempt away for good |
| Leases.LeaseKeeping | internal/jobs/jobs.go:807-813 | the holder still has the job on the same attempt if and only if no reap was late and nobody purged its key |
| Installs.DeploymentStep | internal/jobs/jobs.go:692-774 | what any one step does to a deployment and its installation record |
| Installs.RollbackHistory | internal/jobs/jobs.go:727-741 | over any run the record names the latest install and the rollback artifact is the most recent different one, never the current one |
| Installs.DueALeadBeforeExpiry | internal/jobs/jobs.go:713-722 | from the first completion on, the next refresh is due a lead before the recorded expiry |
| DeviceRefresh.Server.HandleRefreshSign | internal/api/device_refresh.go:247-325 | one sign child per refresh and source, found again on every later call; each precondition's error leaves the tables alone |
| DeviceRefresh.Server.HandleEnsureInstall | internal/api/device_refresh.go:327-422 | the install child of the newest sign child's artifact, inserted or found, then claimed; an insert stands even if the claim fails |
| DeviceRefresh.Server.RecordSigned | internal/api/signing.go:493-524 | the signed row and the install child under the same key ensure-install uses |
| DeviceRefresh.SignRequestMeans | internal/api/device_refresh.go:60-325 | a sign request is answered if and only if the row is an active refresh with a device and a source, the source finally chosen is a known, approved original, the device is known and the account resolves; otherwise the first failing condition gives the error and nothing changes; the child queued, or found, is the one for that source |
| DeviceRefresh.QueuedSourceApproved | internal/api/device_refresh.go:269-276 | a newly queued sign child's source is approved if and only if the request did not fall back from an update or the refresh's own original is approved |
| DeviceRefresh.FallbackSignsUnapproved | internal/api/device_refresh.go:269-276 | a fallback that queues a sign job for an original in quarantine |
| DeviceRefresh.ResolveMeans | internal/api/device_refresh.go:327-378 | ensure-install goes by an artifact if and only if the same conditions hold and the newest sign child completed with one that still exists; it is that one |
| DeviceRefresh.EnsureInstallMeans | internal/api/device_refresh.go:327-422 | it is answered if and only if there is such an artifact and nobody else has its install job in hand |
| DeviceRefresh.EnsureInstallHandsOver | internal/api/device_refresh.go:390-422 | what it hands over is the install job under the key of refresh and artifact, found or newly queued with five attempts, completed or in the caller's hands |
| RefreshProtocol.ProperStep | internal/api/device_refresh.go:298-325 | every permitted transaction keeps sign children keyed by their refresh and source, workflow keys on the rows they are for, and refreshes in the device service's hands |
| OrchestratorLaws.MovesForward | scripts/sidey-device.py:511-656 | apart from picking up a refresh handed to it and a new error replacing an unreported one, every move takes the orchestrator forward through its stages, with the same refresh until idle |
| OrchestratorLaws.OneFallback | scripts/sidey-device.py:546-581 | over any story, at most two sign requests for one refresh, and none after the request that may not fall back |
| OrchestratorLaws.MayFallBackMeans | scripts/sidey-device.py:555-572 | it may fall back if and only if this was the first request and the deployment has an update |
| OrchestratorLaws.PollMeans | scripts/sidey-device.py:488-507 | waits while the sign job is open; goes on with the artifact it delivered; else falls back if it may; else fails with the sign job's own category |
| OrchestratorLaws.DeadlineMeans | scripts/sidey-device.py:507-580 | out of time it falls back if it may, else fails |
| OrchestratorLaws.BeginMeans | scripts/sidey-device.py:524-528 | it starts if and only if its first report is accepted, and fails a refresh without a source at once |
| OrchestratorLaws.EnsureMeans | scripts/sidey-device.py:585-600 | it goes on to the claim if and only if ensure-install finds an artifact, with the job under that key |
| OrchestratorLaws.ClaimAnswerMeans | scripts/sidey-device.py:601-607 | a completed install job completes the refresh with that job's expiry; another's job fails it; else it installs |
| OrchestratorLaws.ReportMeans | scripts/sidey-device.py:619-633 | an accepted install report completes the refresh with the same expiry or fails it for the same reason |
| OrchestratorLaws.LastWord | scripts/sidey-device.py:659-670 | its last report names the artifact it awaited, the install job and the expiry, or the reason it failed; after it, or a crash, it is idle |
| OrchestratorLaws.UploadMeans | internal/api/signing.go:493-524 | an upload for a refresh's sign job queues its install child, three attempts, under the key ensure-install looks for |
| OrchestratorLaws.SignFailureKillsRefresh | scripts/sidey-device.py:475-508 | once the orchestrator polled a sign job that failed for a terminal category and reported, the next reap that can lock the refresh leaves it dead with the sign job's category, over any run in between short of a purge or a ClaimSpecific of it |
| RefreshSafety.PersistsStep | internal/scheduler/scheduler.go:357-363 | no row changes type, key or parameters; workflow rows stay, and completed ones keep state and result |
| RefreshSafety.HowRefreshesComplete | internal/jobs/jobs.go:613-669 | a refresh becomes completed only by its holder's accepted report, whose result it keeps |
| RefreshSafety.TablesKept | scripts/sidey-device.py:511-639 | no action but the completion report completes a refresh, loses a workflow row or breaks the tables |
| RefreshSafety.KnowledgeKept | scripts/sidey-device.py:545-605 | what the orchestrator remembers of sign child, artifact and install child stays true whatever the others do |
| RefreshSafety.CompletionStep | scripts/sidey-device.py:659-671 | an accepted completion report is earned by a completed sign child and a completed install child |
| RefreshSafety.StoryKeepsInv | scripts/sidey-device.py:511-639 | every story of the protocol, crashes and unanswered calls included, keeps all of this |
| RefreshSafety.StoryPersists | scripts/sidey-device.py:511-639 | and loses no workflow row |
| RefreshTheorems.FreshStart | scripts/sidey-device.py:511-639 | an empty queue over any deployments is a start from which all of this holds |
| RefreshTheorems.SoleSignChild | internal/api/device_refresh.go:298-325 | without automatic updates a refresh has one sign child |
| RefreshTheorems.RefreshCompletesOnlyInstalled | internal/jobs/jobs.go:682-758 | in every story a completed refresh has exactly one sign child, completed with artifact g, and a completed install child for g, and its result names those two |
| RefreshTheorems.CompletionRecordsTheInstall | internal/jobs/jobs.go:727-758 | the step that completes it is the orchestrator's report, and the same transaction sets the installation record to exactly that artifact and install job and moves the due date |
| RefreshRecovery.RestartRecovery | internal/api/device_refresh.go:298-411 | once the sign child is completed, any crashes, lease expiries and requeues later the refresh still resolves the same sign job, artifact and install job, and no further row for them exists |
| RefreshRecovery.CallsAreEndpoints | scripts/sidey-device.py:556-589 | the protocol's calls are the endpoints' own transactions, the insert and the claim of ensure-install when nothing comes between them |
| RefreshRecovery.LaterSignRequest | internal/api/device_refresh.go:298-325 | a later sign request answers with the old sign job and changes nothing |
| RefreshRecovery.LaterEnsureInstall | internal/api/device_refresh.go:374-419 | a later ensure-install call adds no row, touches at most the old install job, and nothing if that is completed |
| RefreshRecovery.RecoveryAttempt | scripts/sidey-device.py:589-604 | with the install child completed, the next attempt, from the claim that hands the requeued refresh out on, completes it with the same ids, inserting and claiming nothing else and touching only the refresh's own row |
| RefreshMismatch.InstallMatchesNewest | internal/api/device_refresh.go:343-347 | the install job ensure-install settles on names the awaited artifact if and only if the newest sign child produced it |
| RefreshMismatch.HowItEnded | scripts/sidey-device.py:597-632 | a pending completion report follows the orchestrator's own accepted run of the job with the awaited artifact, or the job's having been completed when it was claimed |
| RefreshMismatch.RecordedIsInstalledExactly | scripts/sidey-device.py:597-632 | over every story, automatic updates or not, what a completed refresh records against what the recorded job put on the device: the same artifact if the orchestrator ran the job itself; if a poll loop had completed it, the same if and only if the newest sign child at the ensure-install call had produced the awaited artifact; if an earlier attempt had, if and only if that attempt awaited the same one |
| MismatchStory.RecordedIsNotInstalled | internal/api/device_refresh.go:343-347 | with automatic updates on, a story from an empty queue, every claim in it an answer of Claim, ends with artifact 0 recorded by a job whose completed run put artifact 1 on the device |
| Scheduler.Service.MarkUnrefreshable | internal/scheduler/scheduler.go:130-163 | exactly the due deployments that cannot be resolved are flagged |
| Scheduler.Service.DueDeployments | internal/scheduler/scheduler.go:87-124 | exactly the due resolvable deployments, each once, by due date |
| Scheduler.Service.DeadCycleTerminal | internal/scheduler/scheduler.go:368-389 | true if and only if the row under the key died of a terminal error |
| Scheduler.Service.FlagAttention | internal/scheduler/scheduler.go:394-403 | the deployment's outcome becomes attention and nothing else changes |
| Scheduler.Service.CreateRefreshJob | internal/scheduler/scheduler.go:218-274 | a terminally dead cycle is flagged and left, a retryable dead one replaced, a live one found |
| Scheduler.Service.ExpiryGuard | internal/scheduler/scheduler.go:282-351 | exactly the deployments near expiry with no refresh under way and no flag, each under its guard key |
| Scheduler.Service.Tick | internal/scheduler/scheduler.go:182-208 | the three passes in order, the count returned, and a well-formed table afterwards, so never two rows under one cycle or guard key |
| SchedulerLaws.DueRowsMean | internal/scheduler/scheduler.go:87-125 | the due query returns exactly the deployments with an agent, an expiry and an account whose recorded due date, else a lead before expiry, has come, with that date |
| SchedulerLaws.GuardRowsMean | internal/scheduler/scheduler.go:282-307 | the guard returns exactly those within a day of expiry, not flagged, whose device has no refresh pending, claimed or in progress |
| SchedulerLaws.ScheduledMeans | internal/scheduler/scheduler.go:218-276 | one due deployment: a refresh with fifteen attempts under the key of its due and expiry days if the key is free; nothing if a live row has it; the flag alone if a terminally dead one has; else the dead row replaced |
| SchedulerLaws.ForcedMeans | internal/scheduler/scheduler.go:319-345 | one forced deployment: a refresh under the key of its expiry day, unless a row has it |
| SchedulerLaws.MarkedMeans | internal/scheduler/scheduler.go:130-163 | exactly the due deployments without an account are flagged |
| FrozenCycles.ScheduledAllLeaves | internal/scheduler/scheduler.go:195-198 | the due loop touches no row of a deployment whose cycle is frozen, and flags it if it is listed |
| FrozenCycles.GuardedAllLeaves | internal/scheduler/scheduler.go:313-349 | the guard leaves a deployment alone that it does not list, or whose guard key is taken |
| FrozenCycles.FrozenTick | internal/scheduler/scheduler.go:182-389 | a tick leaves the terminally dead row in place, and every refresh row of the deployment unchanged if and only if the guard does not force one under a free guard key; once due it never does |
| FrozenCycles.TickOnlyRetries | internal/scheduler/scheduler.go:218-274 | a tick deletes nothing but retryable dead cycle rows it replaces; every other row survives as it was |
| FrozenCycles.FrozenForGood | internal/scheduler/scheduler.go:182-389 | over any interleaving of ticks with everyone else's transactions, a terminal cycle stays frozen while the deployment stays due in it |
| TickCount.TickReports | internal/scheduler/scheduler.go:182-208 | the tick's number is the rows it added plus the live cycles and taken guard keys it found; so it is the rows added if and only if every due cycle key was free or dead and every guard key free |
| TickCount.CountsWhatItFinds | internal/scheduler/scheduler.go:267-271 | a tick that reports one job and adds none |
| TickCount.GuardedWhileFrozen | internal/scheduler/scheduler.go:282-351 | a tick that forces a guard refresh for a deployment not yet due whose cycle died terminally |
| ContentStore.Store.SaveToTemp | internal/artifacts/store.go:60-79 | the bytes' hash and a new temp file holding them; nothing under a final name changes, and a failing read leaves nothing |
| ContentStore.Store.Publish | internal/artifacts/store.go:93-103 | created or not, or the rename error, and exactly which files exist afterwards |
| ContentStore.Store.Save | internal/artifacts/store.go:112-121 | the same bytes converge on one file under their hash; no temp file remains |
| ContentStore.Keeper.UploadOriginal | internal/api/artifacts.go:75-131 | one row per content; the file is there afterwards, or removed when the insert fails; no temp file remains |
| ContentStore.Keeper.UploadSigned | internal/api/signing.go:415-538 | file and row together, or neither change |
| ContentStore.Keeper.PruneHash | internal/retention/prune.go:61-96 | the hash's rows past retention go, its file goes if no row is left, and the count says how many rows went |
| ContentStore.Keeper.PruneSignedArtifacts | internal/retention/prune.go:31-105 | one such turn for each hash with a row past retention; nothing at all when retention is off |
| ContentStore.PassRemoves | internal/retention/prune.go:31-105 | with one clock for all turns: exactly the rows past retention go, and exactly the files only they named |
| ContentStore.ExpiredMeans | internal/retention/prune.go:31-56 | a pass visits exactly the hashes of rows whose recorded expiry is before the cutoff |
| ContentStore.TurnMeans | internal/retention/prune.go:61-100 | a turn deletes exactly the hash's rows with a recorded expiry before the cutoff, never one without, and its file exactly if no original and no remaining row names it |
| BlobSafety.PruneSparesLive | internal/retention/prune.go:84-95 | at the moment a prune turn removes a file, no committed row within retention names it |
| BlobSafety.FailureSparesLive | internal/api/signing.go:420-430 | the same for the clean-up of a failed upload that created its file |
| BlobSafety.StepKeepsInv | internal/retention/prune.go:61-100 | every step of lock-taking uploads and prune turns, including a crash anywhere, keeps the invariant |
| BlobSafety.BlobsStay | internal/retention/prune.go:25-30 | over every interleaving, each committed row not past retention has its file |
| BlobSafety.SafeMeans | internal/retention/prune.go:25-30 | being safe is: every original, and every signed row whose expiry is unknown or within the retention, has its file |
| BlobSafety.FailedInsertIsSafe | internal/api/artifacts.go:116-121 | removing the file after a failed insert is safe if and only if no row within retention names the hash; having created it suffices |
| BlobSafety.FailedInsertLosesFile | internal/api/artifacts.go:116-121 | a run in which it is not |
| BlobSafety.UnlockedImportLosesFile | internal/api/store.go:1276-1300 | a run in which a publisher without the lock ends with a committed original and no file |
| BlobSafety.PruneTurn | internal/retention/prune.go:61-100 | run without interruption, the steps of a prune turn are `ContentStore.Pruned` |
| BlobSafety.SignedTurn | internal/api/signing.go:405-538 | the steps of a successful signed upload are what `ContentStore.Keeper.UploadSigned` says |
| BlobSafety.FailedSignedTurn | internal/api/signing.go:405-538 | those of one that fails after the publication leave everything as it was |
| BlobSafety.OriginalTurn | internal/api/artifacts.go:75-131 | those of an original upload end as `ContentStore.Keeper.UploadOriginal` says: a duplicate, an insert, or a failed insert after which the file is gone |
| BlobSafety.ImportTurn | internal/api/store.go:1276-1300 | those of a publisher without the lock end with file and original |
| UnlockedPublishers.SafeStep | internal/retention/prune.go:84-95 | from a safe world, any step of anyone leads to a safe one if and only if a file it removes has no live row and a row it commits has its file |
| UnlockedPublishers.SafeRun | internal/retention/prune.go:25-30 | a run, unlocked publishers and failed inserts included, is safe throughout if and only if every step of it is such a step |
| UnlockedPublishers.SteadyStep | internal/api/signing.go:405-538 | what lock-taking transactions rely on survives every step of publishers without the lock |
| UnlockedPublishers.ImportsAreSafeWhen | internal/api/store.go:1276-1300 | lock-taking uploads and prune turns next to unlocked publishers: safe throughout if and only if no removal meets a committed original and each unlocked publisher commits with its file there |
| UnlockedPublishers.FileGone | internal/api/store.go:1276-1300 | its file is missing at the commit if and only if a removal fell since its publication and no publication after that |
| UnlockedPublishers.Overtaken | internal/retention/prune.go:61-100 | while a transaction holds the lock, having found no original, one turns up if and only if an unlocked publisher commits one |
| UnlockedPublishers.LateRemovalLosesFile | internal/api/store.go:1276-1300 | a run in which the file goes after the unlocked publisher's commit, by a prune turn that had decided before |
| CrossedRuns.SafeExactlyWhenUncrossed | internal/retention/prune.go:25-30 | from rest, a run with anyone in it is safe throughout if and only if no unrepaired removal falls between an unlocked publication and its commit, no unlocked commit between a judgement and the removal it leads to, and no failed insert removes a file it found that a live row needs |
| Slices.Compact | cmd/signing-worker/main.go:300-306 | compaction in place keeps exactly the recent elements in order |
| Slices.SinceMeans | cmd/signing-worker/main.go:300-306 | as many elements are kept as are recent enough, and in order |
| Slices.Append | cmd/signing-worker/main.go:329 | append in place or into a larger array gives the old elements and the new one |
| AppleGuard.Guard.Prune | cmd/signing-worker/main.go:298-307 | attempts older than the closed hour are forgotten, nothing else |
| AppleGuard.Guard.Allow | cmd/signing-worker/main.go:310-325 | the answer, and that only pruning happens |
| AppleGuard.Guard.NoteRun | cmd/signing-worker/main.go:328-345 | the whole new state, also in the file |
| AppleGuard.Live | cmd/signing-worker/main.go:274-345 | any run of asks, notes and restarts on the class ends with the memory, file and last answer the run on values says |
| AppleGuard.AnswersAsFullHistory | cmd/signing-worker/main.go:280-325 | after any run of asks, notes and restarts, allow answers as the full unpruned history of recorded runs does |
| AppleGuard.StreakMeans | cmd/signing-worker/main.go:330-343 | the streak is the number of auth failures no success came after, and the breaker goes by the last of them |
| AppleGuard.RecordedMeans | cmd/signing-worker/main.go:298-325 | a window's count is the number of runs recorded in it, both ends included |
| AppleGuard.HourlyCap | cmd/signing-worker/main.go:135-146 | no closed 3600-second window holds more than twelve recorded runs, counted one by one |
| AppleGuard.BreakerSpacing | cmd/signing-worker/main.go:335-343 | from the third auth failure since the last success on, an allowed ask comes at least an hour after each; other failures neither reset nor advance the count |
| AppleGuard.SuccessCloses | cmd/signing-worker/main.go:330-334 | with fewer than three auth failures since the last success only the hourly cap refuses |
| IpLimiter.Limiter.KeepRecent | internal/api/discovery.go:109-115 | the filter loop compacts one address's array and no other's |
| IpLimiter.Limiter.Evict | internal/api/discovery.go:122-128 | above 4096 addresses exactly the empty entries go |
| IpLimiter.Limiter.Allow | internal/api/discovery.go:105-130 | the answer and the whole new map |
| IpLimiter.AllowsMeans | internal/api/discovery.go:109-120 | an attempt passes if and only if fewer than max of the kept times are younger than the window |
| IpLimiter.ServeAll | internal/api/discovery.go:105-130 | serving any history on the class ends with the map, and gives the answers, the run on values says |
| IpLimiter.CountsGranted | internal/api/discovery.go:105-130 | in any serving order less than a window out of clock order, an attempt is measured against its own address's grants since a window before the latest clock reading, and nothing else |
| IpLimiter.AgreesExactly | internal/api/discovery.go:105-118 | such an attempt is answered as a limiter that never forgets would if and only if forgotten grants do not make the difference |
| IpLimiter.NaiveExactly | internal/api/discovery.go:93-95 | over a history served so, it grants what the naive limiter grants at every point if and only if it never forgot a grant that mattered |
| IpLimiter.NaiveMeans | internal/api/discovery.go:93-95 | the limiter that never forgets lets an attempt pass if and only if fewer than max of all its address's grants are younger than the window |
| IpLimiter.InWindowMeans | internal/api/discovery.go:93-95 | what the bounds below count: the grants later than a window before a time and not after it |
| IpLimiter.GrantsAsNaive | internal/api/discovery.go:93-95 | in clock order the limiter grants exactly what one that never forgets would |
| IpLimiter.NaiveBound | internal/api/discovery.go:93-95 | a limiter that never forgets keeps every half-open window at max grants, in any serving order |
| IpLimiter.PromptBound | internal/api/discovery.go:93-95 | so does this one over any history served less than a window late in which it forgot no grant that mattered |
| IpLimiter.WindowBound | internal/api/discovery.go:93-95 | in clock order no half-open window holds more than max grants of one address |
| IpLimiter.OutOfOrderExceeds | internal/api/discovery.go:106-107 | served out of clock order, three pass where two may |
| IpLimiter.EvictionIdle | internal/api/discovery.go:122-128 | eviction never finds an empty entry |
| Versions.IsVersionDigits | internal/api/store.go:893-903 | true if and only if the string is a nonempty run of digits |
| Versions.CompareVersions | internal/api/store.go:856-872 | the first differing segment decides, missing segments counting as "0" |
| Versions.Antisymmetric | internal/api/store.go:856-891 | swapping the arguments flips the sign, for all strings |
| Versions.DigitsCompareAsNumbers | internal/api/store.go:880-891 | digit segments compare as the natural numbers they write |
| Versions.NumericOrder | internal/api/store.go:853-872 | on all-digit segments the comparison is the lexicographic order of the numbers, padded with zeros |
| VersionFields.SegmentsAreWhole | internal/api/store.go:874-878 | no segment is empty or contains a dot, dash, underscore or plus |
| VersionFields.SegmentsJoin | internal/api/store.go:874-878 | the segments put together are the version without those four characters |
| VersionFields.Neighbours | internal/api/store.go:874-878 | two neighbouring characters fall into one segment if and only if neither is one of the four |
| VersionFields.ReadsBack | internal/api/store.go:874-878 | segments written one after the other, joined by any of the four, are read back as written |
| VersionFields.WrittenOrder | internal/api/store.go:853-872 | versions written as numerals joined by any of the four compare as their lists of numbers, the shorter padded with zeros |
| VersionFields.FirstDifference | internal/api/store.go:856-872 | for all strings, the first pair of segments that compare unequal decides |
| VersionFields.WordsCompareAsStrings | internal/api/store.go:880-891 | segments that are not both numerals compare as strings |
| VersionFields.DigitsMean | internal/api/store.go:893-903 | a numeral is a nonempty run of the ten digits |
| VersionFields.LexMeans | internal/api/store.go:880-891 | strings compare by the first differing character, a proper beginning first |
| VersionOrder.Transitive | internal/api/store.go:856-891 | transitive, hence with antisymmetry a total preorder, on versions whose segments are numerals or lie beyond all numerals |
| VersionOrder.NumericFits | internal/api/store.go:853-872 | every version whose segments are all digits is among them |
| VersionOrder.FitsExactly | internal/api/store.go:880-891 | a segment is placed consistently with the order of the numbers if and only if it is a numeral, starts below '0', or exceeds '9' after its leading 9s |
| VersionOrder.NotTransitive | internal/api/store.go:880-891 | 9 before 10 before 1a before 9 |
| Updates.LooksPrerelease | internal/api/device_refresh.go:232-240 | true if and only if one of the eight markers occurs |
| Updates.PrereleaseMeans | internal/api/device_refresh.go:232-240 | that is: the lower-cased text has beta, alpha, rc, nightly, preview, dev, testflight or snapshot in it |
| Updates.ResolveUpdateArtifact | internal/api/device_refresh.go:180-228 | an update is chosen if and only if consent was given and some row is eligible; it is eligible, and if the eligible versions have fitting segments none is newer |
| Updates.PickMeans | internal/api/device_refresh.go:180-228 | an update is chosen if and only if consent was given, the source names its bundle and some row is newer with no marker in its version or file name; and it is such a row's |
| Updates.PickIgnoresOrder | internal/api/device_refresh.go:208-223 | the order of the rows does not matter |
| Updates.BestListings | internal/api/store.go:668-682 | one entry for each listed bundle, the listing that leads after comparing the rows in order, and a newest one if its versions have fitting segments |
| Updates.NewestOf | internal/api/store.go:728-750 | a bundle outside the snapshot gets one of its own newest listings, or none if it has none |
| Updates.ListUpdates | internal/api/store.go:604-771 | nothing if nothing is deployed; else the deployments, then the subscriptions, with a newer choice of listing, in order |
| Updates.ListedIffNewer | internal/api/store.go:604-606 | a deployment is listed only if some listing of its bundle is strictly newer, and exactly then if the versions have fitting segments, whatever the row order |
| Updates.ListedExactly | internal/api/store.go:690-695 | for all versions: a deployment is listed if and only if the leading listing of its bundle is newer |
| Updates.SurfacesExactly | internal/api/store.go:712-756 | for all versions: a subscription surfaces if and only if something is deployed and the leading listing of its bundle can be downloaded and is newer than the version seen, or none was seen |
| Updates.ListedInOrder | internal/api/store.go:690-756 | deployments come first, then subscriptions, both in the order given |
| Updates.MissedExactly | internal/api/store.go:668-695 | a newer listing is missed if and only if some row that is not newer took the lead and no newer row took it afterwards |
| Updates.OrdersNeverMiss | internal/api/store.go:668-695 | no selection and order of listings with given versions misses an update if and only if every version newer than the deployed one beats every other |
| Updates.FittingSeparates | internal/api/store.go:668-695 | versions with fitting segments meet that |
| Updates.SurfacesIffNewer | internal/api/store.go:712-756 | a subscription surfaces only if something is deployed and its bundle has news; if the versions fit and the listings can be downloaded, exactly then |
| Updates.NothingDeployedNothingListed | internal/api/store.go:644-647 | a newer listing for a subscriber is not reported when nothing is deployed |
| Updates.MissedUpdate | internal/api/store.go:668-695 | with segments that do not fit, a newer listing can be missed |
| AltStore.SortVersions | internal/api/store.go:1070-1078 | a permutation in the comparator's order |
| AltStore.FetchApps | internal/api/store.go:1000-1092 | one app for each group in group order, its versions sorted, its own fields those of the first |
| AltStore.ItemsMean | internal/api/store.go:1003-1040 | exactly these are accepted: each app's versions with a URL, or its top-level fields when no version has one, if the URL is https; with these columns |
| AltStore.ItemsJoin | internal/api/store.go:1003-1040 | in feed order |
| AltStore.KeyMeans | internal/api/store.go:905-915 | the key is the lower-cased identifier without an ending .beta, before that .preview, .nightly and -beta, each once; else the name |
| AltStore.ChannelMeans | internal/api/store.go:917-929 | which words make a version nightly, alpha or beta, in that order |
| AltStore.GroupMeans | internal/api/store.go:1041-1065 | a group's name, icon and description are those of the last stable entry that joined it and has one, else of its first entry, whose name loses " (Beta)" and " Beta" |
| AltStore.GroupsConserve | internal/api/store.go:1030-1065 | groups come in order of first appearance, each once, and hold exactly the entries under their key, in feed order |
| AltStore.Conservation | internal/api/store.go:1030-1065 | every accepted entry is in exactly one group, as often as in the feed |
| AltStore.StableOnTop | internal/api/store.go:1080-1088 | the app's own fields are a latest stable version's whenever the group has a stable one |
| AltStore.SortedMeans | internal/api/store.go:1070-1078 | stable versions precede the others; within either kind dates never increase |
| MachO.File.PatchPlatform | scripts/tvos-patch-ipa.py:88-118 | the answer and the bytes written, which are the old ones unless the walk got through and patched something |
| MachO.PatchIsExact | scripts/tvos-patch-ipa.py:98-118 | when every rewritten command has nine bytes and its whole word in the file: length and commands kept, exactly the iOS platform words of build-version commands changed, none left, a second run does nothing |
| MachO.StartsMean | scripts/tvos-patch-ipa.py:98-107 | the walk gets through if and only if the commands lie one after the other by their own sizes, of eight bytes or more, inside the file |
| MachO.PatchInBytes | scripts/tvos-patch-ipa.py:88-118 | in bytes: with build-version commands of twelve bytes or more, exactly the byte at offset 8 of each one for iOS changes, from 2 to 3, and the file counts as patched if and only if there is one |
| MachO.MalformedWritesNothing | scripts/tvos-patch-ipa.py:101-106 | for every file: the patcher gives up and writes nothing if and only if the file's own walk meets a malformed command, whatever was rewritten on the way |
| MachO.MagicIgnored | scripts/tvos-patch-ipa.py:88-100 | files that agree from byte 16 on are patched alike |
| MachO.FatIsPatched | scripts/tvos-patch-ipa.py:89-93 | a file with a fat magic that is rewritten |
| MachO.WideIsCareful | scripts/tvos-patch-ipa.py:108-111 | build-version commands of at least twelve bytes meet the condition of PatchIsExact |
| MachO.SafeExactlyWhenCareful | scripts/tvos-patch-ipa.py:98-118 | only platform words inside their own commands changed if and only if every rewritten command has nine bytes and its whole word in the file |
| MachO.ShortCommandCorruptsNext | scripts/tvos-patch-ipa.py:108-111 | a file whose symbol table command is turned into another |
| KnownServers.KnownServers.Note | ios/Sidey/DiscoveryService.swift:59-72 | the whole new map after a contact |
| KnownServers.NoteAll | ios/Sidey/DiscoveryService.swift:59-74 | after any run of contacts the class holds, for every server, the list of the fold below |
| KnownServers.KeptIsHistory | ios/Sidey/DiscoveryService.swift:59-74 | a server's list is the first eight addresses of its full reversed contact history, case-insensitive repeats dropped, each in its latest spelling |
| KnownServers.KeptIsLast | ios/Sidey/DiscoveryService.swift:59-74 | in other words: the hosts in the order of the last contact at each address, latest first, spelled as then, cut to eight; no address twice |

## Left out

- Text columns: error details (only whether a report carries any is modelled), last_refresh_error, progress, purpose, timestamps other than the ones a decision reads, and audit records.
- Scheduler.Service.MarkUnrefreshable: does not model that a row whose error text already is the notice is skipped, because error texts are left out; the outcome is attention either way.
- JobQueue.Service.ClaimSpecific: its statements run as one step, because its caller is a single-threaded loop; a concurrent claim between them is not modelled.
- RefreshSafety.StoryKeepsInv: each endpoint's reads run with its write as one action (ensure-install's insert and its claim are two). The story leaves out the admin's POST /jobs (internal/api/jobs.go:13-24) making rows under workflow keys or sign jobs with a parent, and agents other than the device service claiming refreshes (the refresh_agent role, internal/api/jobs.go:80).
- RefreshMismatch.RecordedIsInstalledExactly: takes a poll loop's, or another agent's, accepted completion of an install job to mean that the artifact the job names was installed (scripts/sidey-device.py:438-453, 734-747); an install whose report is lost is not entered.
- JobQueue.Service.Reap: does not mark agents offline, and visits the selected rows in any order, which does not change the result.
- Scheduler.Service.Tick: its queries and writes run with no other transaction in between; FrozenCycles interleaves whole ticks with everyone else.
- Foreign keys: an insert that names a device or application that does not exist is not modelled, and neither is the reference of deployments.rollback_artifact_id.
- ContentStore.Keeper.UploadSigned: the account and certificate rows, and the commit that fails after the lock is gone (internal/api/signing.go:535-537), are not modelled.
- BlobSafety.BlobsStay: covers publishers that take the lock; UnlockedPublishers.SafeRun covers everyone, under the exact condition. The lock is per hash; PostgreSQL's hashtext may make two hashes share one, which only adds waiting.
- AppleGuard.HourlyCap: counts recorded runs; one export path reaches Apple without recording (cmd/signing-worker/main.go:708-713). Writing and reading the state file are taken to succeed.
- AltStore.SortVersions: stands for the library's sort, which is not stable either; any permutation in order is allowed by its contract.
- Versions.CompareVersions: strings are sequences of characters; on valid UTF-8 byte order and code point order agree.
- The automatic-update lookup, approved artifacts, devices and the Apple account of loadRefreshContext are parameters of the refresh endpoints.
- KnownServers.KnownServers.Note: encoding to and from the Keychain is left out.
- HTTP decoding, status codes, authentication, enrolment and the dashboard: plumbing.
- Apple signing, tunnels and device installation: their outcomes are chosen freely by the model.
- Remote-node and tvOS refreshes, which run one wrapper and skip the workflow, and the migrations.
