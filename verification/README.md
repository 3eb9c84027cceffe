# Agent platform: a verified model

This project models the hard parts of the agent platform's services in Dafny and proves what their
design promises:

- **Publication** (`Publication.dfy`, with `Releases.dfy`, `ModelGateway.dfy`, `SandboxStaging.dfy`): the saga
  that moves a release through the operations job row, the catalog's release record, the model gateway or the
  sandbox manager's staged override, and the persistent admission block, under every pattern of refused,
  lost and interrupted calls.
- **Job leases** (`Jobs.dfy`, `JobStates.dfy`) and **automatic recovery** (`Recovery.dfy`): exclusion of jobs
  and of load tests over whole histories, and the window, backoff and parallelism of recoveries.
- **Sandbox admission** (`Admission.dfy`): interleaved request tasks, draining, removal and eviction.
- **The catalog document** (`Catalog.dfy`, `Transfers.dfy`): reference integrity under every edit, tombstones,
  and the transactional import with its idempotent result.
- **Traces** (`Traces.dfy`) and **log queries** (`LogQuery.dfy`): the span forest, interval unions, and the
  bounded newest-first query.
- **Secrets** (`Secrets.dfy`) and **JSONC** (`Jsonc.dfy`): the mask/restore pair and the two-pass stripper.
- **Session routes** (`Sessions.dfy`) and **command journals** (`Journal.dfy`): batches with savepoints, and
  at-most-once commands across crashes.
- **Load-test capacity** (`Capacity.dfy`).

`dafny verify dfyconfig.toml` checks everything.

## How to read the model

A component whose source updates state is a class whose methods follow the source's statements; each is proved
against a value-level transition (`Next`) or states its whole new state, and properties of whole histories are
lemmas about runs of that transition. An HTTP error is `Failure(status)`; in the saga an exception is
`Raised(...)`, so `:-` leaves a method where the source's `try` body is left. A choice the code does not make
(the fate of a remote call, an operator's cancellation, whether a container starts) is `*`. A stretch of code
between two awaits is one method, a SQLite transaction one step. Times are integers (seconds, or microseconds
in traces); text is a sequence of characters; capacities are reals.

Three assumptions of the saga: the effect of a call lands before its reply or never; operations' own SQLite
writes succeed; one run is followed at a time. Each remote call is entered, with the exception it ended in, in a log
of the clause that made it: `calls` (`try`), `undo` (`except`) and `resumes` (`finally`). A run was struck if a call
of its compensation ended in CancelledError, killed if a call before the `finally` clause ended in a kill, and cut if
it was killed or the resume of its `finally` clause ended in CancelledError or a kill; the resume is acknowledged if
it was asked for and returned.

Four statements turned out to hold under a condition only; the model keeps the code as it is and proves exactly
when it meets them:

- A run that quiesced and was not cut ends with a final status, its target released and nothing staged, or in
  needs_recovery, if and only if it was not struck and then acknowledged (`Publication.Publisher.Run`). Such a job
  stays `applying` with its block released, and the restart holds it unblocked; the catalog has not moved, and a
  gateway job leaves gateway and catalog in agreement if and only if the gateway still runs what it ran before.
  `Publication.StruckBeforeRollback` is such a run on a platform that has just been installed.
- A retried deletion does not look at load tests. A history keeps jobs and load tests apart throughout if and only
  if no deletion is requeued while an active load test has its scope among its agents (`Jobs.AlwaysApart`,
  `Jobs.RetryApartIff`). `Jobs.RetryIgnoresLoadTests` is a history of the two stores alone. In the services,
  load tests start on active agents only (operations/src/load_test_store.py:102-133), the retry endpoint wants the
  agent archived or deleting (operations/main.py:814-828) and archiving is refused under a load test, so it takes a
  load test admitted on a `catalog_snapshot` read before the agent was archived.
- Masking and restoring gives a value back if and only if no masked map would be rebuilt as a legacy model and
  no row without an ID holds a readable credential (`Secrets.RoundTrip`; `Secrets.RowWithoutIdLosesItsKey`).
- The second JSONC pass changes its own output if and only if two commas outside strings stand together before
  a closing bracket (`Jsonc.DropTwice`, `Jsonc.DropTwiceDiffers`).

The suggested user count of a capacity rejection is the largest that fits for rows that agree on their agent's
limits, a precondition the rows of a request and of its users always meet (`Capacity.RequestsAgree`,
`Capacity.RequestSuggestions`).

`drain` can return while a request is still served from a sandbox that was not listed or was only counted by its
lease; it is `remove_records` that refuses such a sandbox, and the two together are what `Admission.Manager`
proves safe.

## Model

| member | source | states |
|---|---|---|
| Publication.Publisher.Run | operations/main.py:233-473 | The saga under every call fate. Succeeded only with every call of its course acknowledged and the release published on top of the old track, running at its target and, for an agent, recorded as verified at that version; failed, interrupted or cancelled only with catalog and target as before. The resume is asked for once, exactly if the run quiesced, was not killed and is not held; held exactly if the apply call was made, neither compensated nor known to be committed, and the run neither struck nor killed. Unless it was cut, a run that quiesced ends released with a final status, or in needs_recovery, if and only if it was not struck and then acknowledged, and the job stays `applying` exactly otherwise; from the apply call on the block lasts exactly until a resume takes effect; a models.apply with a final status leaves gateway and catalog in agreement |
| Publication.Publisher.Reconcile | operations/main.py:86-130 | From any state `Run` leaves, a job is closed as succeeded only with its release committed and active, run by its target, and the target released; a failed attempt leaves the job open and the state recoverable, and fails only with a call or for want of evidence |
| Publication.Publisher.CommitOnEvidence | operations/main.py:93-125 | Reconcile commits only a release its target is observed to run, returns only with it committed, and fails only with a call or for want of evidence |
| Publication.Publisher.Attempt | operations/main.py:243-410 | Before the apply call nothing happened to the target; from it on the job is `applying`, the target blocked and the release known; the catalog moves last and only by this release; it returns only with every call of the course acknowledged, and raises a kill exactly if a call was killed |
| Publication.Publisher.AttemptAndHandle | operations/main.py:243-461 | Body and exception handling together leave a recoverable state and a truthful status: success means live, failure unchanged; what passes by is exactly a kill or a cancellation of the compensation, and the job is held exactly if it is open |
| Publication.Publisher.PrepareRelease | operations/main.py:244-269 | No version track moves before validation; on return the job remembers an uncommitted release based on the active version |
| Publication.Publisher.BlockTarget | operations/main.py:270-283 | The target is blocked before the job becomes `applying`; a failure leaves the job cancellable |
| Publication.Publisher.Precede | operations/main.py:244-283 | Up to the apply call no version track moves and nothing is committed; on return the job is `applying` with its target blocked and its release known |
| Publication.Publisher.Deliver | operations/main.py:284-305 | After the apply call the target runs the new release, or exactly what it ran if the call was never acknowledged; on return an agent's version is verified too |
| Publication.Publisher.CommitRelease | operations/main.py:306-322 | A refused commit is settled by asking again, and the commit state is known exactly if one of the two calls was answered: success means committed, a known failure means not committed, and the track either gained exactly this release or is untouched |
| Publication.Publisher.Execute | operations/main.py:284-322 | Delivery and commit in that order: committed implies applied |
| Publication.Publisher.Compensate | operations/main.py:421-450 | A gateway rollback, or the previous bundle re-applied and verified, in order up to the first call that fails; it restores the pre-run target exactly when all its calls return |
| Publication.Publisher.Handle | operations/main.py:411-461 | The compensation is called exactly after an ordinary failure of an acknowledged application whose commit state is known; it counts exactly if all its calls return; a kill or a cancellation passes by exactly if one of its calls ended so; otherwise the status is needs_recovery exactly if the apply call was made and not compensated, else failed, interrupted or cancelled by what was raised, with target and catalog unchanged |
| Publication.Publisher.TakeBack | operations/main.py:418-448 | The guard of the compensation, and which of its exceptions pass by |
| Publication.Publisher.Stop | operations/main.py:411-417 | A cancelled worker undoes nothing: the job is cancelled if it was, needs_recovery if the apply call was made, else interrupted |
| Publication.Publisher.Fail | operations/main.py:418-461 | Needs_recovery exactly if the apply call was made and not compensated, else failed |
| Publication.Publisher.Finalize | operations/main.py:462-473 | From any status, `applying` included: one resume is asked for exactly if the run quiesced, was not killed and is not held; the job becomes held exactly if the resume fails without cutting the worker, and nothing else changes the status; the block goes exactly with a resume that takes effect |
| Publication.Publisher.AllClauses | operations/main.py:243-473 | Body, handling and final clause together: the status the `finally` clause finds is needs_recovery exactly for a held run and `applying` exactly for a struck one, and only a failed resume changes it |
| Publication.Publisher.Concludes | operations/main.py:411-473 | A models.apply with a final status, or struck, leaves gateway and catalog in agreement if and only if it succeeded or the gateway runs what it ran before |
| Publication.Publisher.StrikeRollback | operations/main.py:243-473 | From any fresh models.apply on a platform with nothing staged, the calls of such a run end struck, not cut and acknowledged, with the job `applying`, unblocked and in disagreement |
| Publication.StruckBeforeRollback | operations/main.py:421-473 | A run on a fresh platform whose activation lands, whose verification fails, whose rollback is cancelled before it is sent and whose resume is acknowledged: the job is `applying` with an uncommitted release, the platform is unblocked, and gateway and catalog disagree |
| Publication.Publisher.Checkpoint | operations/main.py:217-231 | Goes on exactly while the job is executing; a cancelled job raises cancellation |
| Publication.Publisher.RunAndRestart | operations/main.py:233-512 | A run and the next start of the service leave no job in progress: it is succeeded and live, closed with everything as before, or in needs_recovery and still recoverable; only a run that was cut can leave its block behind a final status; one held since its apply call is blocked exactly if no resume of it took effect |
| Publication.Publisher.Meanwhile | operations/main.py:844-854 | A cancellation can only hit a queued, running or waiting job, never one that is applying |
| Publication.Publisher.CallApply | operations/main.py:285-290 | The target changes to the handed version or not at all, and an acknowledged call changed it |
| Publication.Publisher.CallCommit | operations/main.py:308-313 | The catalog takes at most one commit step of this release, and an acknowledged call took it |
| Publication.Publisher.CallResume | operations/main.py:465-468 | An acknowledged resume leaves the target unblocked and unstaged; an override only goes once the catalog's active version equals it |
| Publication.Publisher.CallRollback | operations/main.py:423-429 | The gateway returns to its previous release only from this one, and an acknowledged call did so |
| Publication.Publisher.CallObserve | operations/main.py:97-113 | What reconcile takes as evidence is evidence: the target really runs this release; a gateway that runs it is always seen to |
| Publication.Publisher.CallBundle | catalog_service/main.py:179-191 | The remembered previous bundle is the target's active version |
| Releases.VersionsStayDense | catalog_service/main.py:199-324 | After any interleaving of prepares, commits, edits, archivings, restorings and deletions every track is numbered 1..n and its active version is none exactly without versions, else n |
| Releases.NextKeepsInv | catalog_service/main.py:199-324 | One request of any kind keeps tracks dense, releases sound and proposals honest |
| Releases.CommitKeepsInv | catalog_service/main.py:295-324 | A commit appends the next number only |
| Releases.StaleNeverCommits | catalog_service/main.py:295-324 | A release whose predecessor is no longer active is refused in every later state |
| Releases.StaleStep | catalog_service/main.py:295-324 | No request makes a stale release fresh again |
| Releases.CommitTwiceAppendsOnce | catalog_service/main.py:295-324 | Whatever happens in between, committing again changes nothing but the revision |
| Releases.CommittedStaysPublished | catalog_service/main.py:295-324 | A committed release stays under its own number with its own content |
| Releases.HistoryIsAppendOnly | catalog_service/main.py:295-324 | Published versions are never changed while the target lives, and a retired target stays retired |
| Releases.ReleaseRowsPersist | catalog_service/main.py:287-324 | A release record is never lost or altered, and never becomes uncommitted |
| Releases.ReleaseStore.BeginPrepare | catalog_service/main.py:200-282 | The proposal is computed from one read: expected revision, live target, chosen version, next number |
| Releases.ReleaseStore.FinishPrepare | catalog_service/main.py:283-285 | The record is written only if no edit came in between |
| Releases.ReleaseStore.Prepare | catalog_service/main.py:199-285 | Both transactions together never move a version track; they succeed exactly if the first accepts and no edit comes in between |
| Releases.ReleaseStore.Commit | catalog_service/main.py:295-324 | The edit is the commit step; it succeeds for a committed release or one whose predecessor is still active |
| ModelGateway.ValidateRelease | model_gateway/src/state.py:11-44 | The loop accepts exactly the releases with well-formed deployments and no identifier used twice |
| ModelGateway.GatewayState.constructor | model_gateway/src/state.py:82-94 | A restart resumes the persisted active release, which must be valid, and the previous one as stored |
| ModelGateway.GatewayState.StatusNow | model_gateway/src/state.py:96-102 | Ready exactly when a release is active |
| ModelGateway.GatewayState.Validate | model_gateway/src/state.py:104-107 | Accepts exactly the valid releases a router can be built from, and changes nothing |
| ModelGateway.GatewayState.Activate | model_gateway/src/state.py:118-129 | Activating the active release again changes nothing, a different configuration under its ID is refused, a new one makes the old one previous; memory and disk always agree |
| ModelGateway.GatewayState.Rollback | model_gateway/src/state.py:131-139 | Restores the previous release, only from the named one and only once |
| ModelGateway.RollbackUndoesActivation | model_gateway/src/state.py:118-139 | One rollback undoes one activation; a second is refused |
| SandboxStaging.SandboxManager.InstallBundle | sandbox_manager/catalog_client.py:21-125 | A version directory is written once and never replaced by different content |
| SandboxStaging.SandboxManager.Quiesce | sandbox_manager/main.py:747-756 | The target is blocked before draining, whether or not the drain succeeds, and the action succeeds exactly if it does |
| SandboxStaging.SandboxManager.Apply | sandbox_manager/main.py:753-769 | Wherever the action breaks off, an override names an installed bundle of exactly that content, and a new override is not yet verified |
| SandboxStaging.SandboxManager.Load | sandbox_manager/catalog_client.py:171-211 | The staged version, else the catalog's; installed bundles are kept |
| SandboxStaging.SandboxManager.Verify | sandbox_manager/main.py:714-746 | The recorded verified version is the one that would be loaded |
| SandboxStaging.SandboxManager.CommitOverride | sandbox_manager/catalog_client.py:186-203 | An override is dropped only when the catalog serves that very version with the installed content |
| SandboxStaging.SandboxManager.Resume | sandbox_manager/main.py:703-713 | The block goes only after every override of the target was committed |
| Jobs.AlwaysExclusive | operations/src/store.py:45-196 | In every reachable store at most one job per scope executes, one on "*" executes alone, and at most one load test is active |
| Jobs.AlwaysApart | operations/src/store.py:64-77 | In any history no job ever executes on an agent of an active load test, if and only if no deletion is requeued under an active load test of its scope |
| Jobs.RetryApartIff | operations/src/store.py:125-183 | A retried deletion keeps jobs and load tests apart if and only if no active load test has its scope |
| Jobs.RetryIgnoresLoadTests | operations/src/store.py:125-183 | A four-step history of the two stores in which a retried deletion executes on an agent under load test |
| Jobs.SubmitKeepsExclusive | operations/src/store.py:45-123 | An accepted job meets no executing job in its scope and no pinning load test |
| Jobs.RetryKeepsExclusive | operations/src/store.py:125-183 | A retried deletion meets no executing job in its scope |
| Jobs.NextKeepsInv | operations/src/store.py:45-196 | Every operation keeps the exclusion, and all but retry keep jobs and load tests apart |
| Jobs.JobStore.Submit | operations/src/store.py:45-123 | A known request is replayed or refused, never queued twice; a new one is queued exactly if its scope is neither pinned nor held |
| Jobs.JobStore.RetryDeletion | operations/src/store.py:125-183 | Requeued exactly if it is a retriable deletion nobody else holds and the confirmation is new; a repeated one is replayed |
| Jobs.JobStore.Transition | operations/src/store.py:185-196 | The status moves exactly from an allowed one, and exclusion is kept |
| Jobs.JobStore.Update | operations/src/store.py:36-43 | A final or uncertain status can always be written without breaking exclusion |
| Jobs.JobStore.CreateTest | operations/src/load_test_store.py:135-213 | A new test starts exactly if none is active and no executing or uncertain job touches its agents |
| Jobs.NeverRevived | operations/src/load_tests.py:321-442 | Whatever the run, a cancellation, a cleanup or a restart still writes, a load test that is over never becomes active again |
| Jobs.JobStore.BeginTest | operations/src/load_tests.py:328-337 | The task goes on exactly if the test is still active, and otherwise writes nothing but its end |
| Jobs.JobStore.WriteTest | operations/src/load_tests.py:337-419 | A phase is only written by a task in progress; a final one ends it |
| Jobs.JobStore.CancelTest | operations/src/load_tests.py:431-442 | Only an active test is cancelled: it is over at once without a task, and cancelling while its task still runs |
| Jobs.JobStore.RestartService | operations/main.py:492-512 | A restart ends active tests and holds jobs in progress, keeping exclusion |
| Recovery.WindowHoldsAtMost | operations/src/recovery.py:128-135 | Between stability resets, attempts max_attempts apart are at least a window apart |
| Recovery.AttemptSpreads | operations/src/recovery.py:128-135 | The window check admits no attempt that would crowd a window |
| Recovery.AttemptBacksOff | operations/src/recovery.py:169-175 | Each delay is the backoff indexed by the attempts then in the window, and is waited out |
| Recovery.AttemptKeepsBounded | operations/src/recovery.py:122-175 | An attempt admitted by the stored record keeps the sandbox's whole history bounded |
| Recovery.StoredIsEnough | operations/src/recovery.py:128-130 | Pruned attempts no longer matter: the stored list counts as the whole history would |
| Recovery.AttemptIsRemembered | operations/src/recovery.py:168-175 | The rewritten record again remembers enough of the history |
| Recovery.AutoRecovery.Tick | operations/src/recovery.py:47-179 | With a fixed policy and a monotone clock a pass, with whatever else happens while it waits, keeps every sandbox's history bounded and at most max_parallel recover jobs executing |
| Recovery.AutoRecovery.Loop | operations/src/recovery.py:181-189 | Over any number of passes, between and within which any other steps of the job store happen, histories stay bounded and at most max_parallel recover jobs execute |
| Recovery.AutoRecovery.Others | operations/src/store.py:45-196 | Any run of the store's steps that submits no recover job adds none to those executing |
| Recovery.QuietRun | operations/src/store.py:45-196 | No step but the submission of a recover job makes a job one that recovers |
| Recovery.AutoRecovery.Visit | operations/src/recovery.py:78-179 | A history is forgotten only after a stable period, and grows by one only for an unhealthy, enabled, live sandbox past its threshold that is confirmed idle |
| Recovery.AutoRecovery.Consider | operations/src/recovery.py:122-179 | A recovery is queued only when threshold, backoff, window and idleness admit it; the parallel bound ends the pass |
| Recovery.AutoRecovery.Recover | operations/src/recovery.py:153-179 | The attempt is booked exactly when the store admits and queues a new job |
| Recovery.AutoRecovery.Observe | operations/src/recovery.py:106-119 | A ready sandbox loses its failures at once and its attempts only after stable_seconds of health |
| Admission.Manager.Acquire | sandbox_manager/backend.py:257-301 | A lease is taken only under the owner's lock, never for an agent drained since its block was set, or while all are drained, until that block is removed, and never while an evictor concerns the sandbox |
| Admission.Manager.Arrive | sandbox_manager/native_router.py:231-234 | Every attempt is counted before it can be admitted |
| Admission.Manager.CheckBlock | sandbox_manager/catalog_client.py:241-243 | A blocked agent is refused at the first check and its attempt uncounted |
| Admission.Manager.EnterLock | sandbox_manager/backend.py:264-269 | A block set while the task queued for the lock still refuses it |
| Admission.Manager.Recheck | sandbox_manager/backend.py:270-279 | A block set during the remote check still refuses it |
| Admission.Manager.GiveUp | sandbox_manager/native_router.py:235-245 | A failed or cancelled attempt leaves counters and lock as if it had never been |
| Admission.Manager.OpenStream | sandbox_manager/native_router.py:496-500 | An observer is counted on top of its lease |
| Admission.Manager.BeginRelease | sandbox_manager/backend.py:331-340 | Only the last lease waits for the idle timestamp |
| Admission.Manager.CloseStream | sandbox_manager/native_router.py:502-527 | The observer goes before its lease, so observers never exceed leases |
| Admission.Manager.EndRelease | sandbox_manager/backend.py:341-353 | The kept lease goes once; no zero count stays in the map |
| Admission.Manager.LeaseAccounting | sandbox_manager/backend.py:284-353 | in_use counts exactly the leases not yet fully released, observers are some of them, and neither map keeps a non-positive count |
| Admission.StreamsAreLeases | sandbox_manager/native_router.py:496-533 | Observers never exceed leases, and if all leases are observers no request is being served |
| Admission.LeaseIsSafe | sandbox_manager/backend.py:257-301 | Taking a lease past the third check disturbs no verdict, no action and no drained agent |
| Admission.Manager.CondemnIdle | sandbox_manager/health.py:217-221 | The evictor condemns exactly a sandbox with in_use zero |
| Admission.Manager.CondemnQuiet | sandbox_manager/main.py:514-515 | An operator's action, or the cleanup of a load-test user, condemns exactly a sandbox with no lease but observers |
| Admission.Manager.RemoveCondemned | sandbox_manager/health.py:245-266 | Whatever happened since the verdict, the container removed is used by nobody (evictor) or by no request (operator, load-test cleanup) |
| Admission.Manager.DrainPoll | sandbox_manager/main.py:611-634 | Drain returns exactly when every sandbox was seen idle and no task of the agent is on its way to a lease, and from then on the agent counts as drained |
| Admission.Manager.CheckRecord | sandbox_manager/main.py:636-643 | A record with an active request lease is refused |
| Admission.Manager.RemoveRecord | sandbox_manager/main.py:644-662 | The container removed after a drain serves no request and none can be about to be served |
| Admission.Manager.Block | sandbox_manager/main.py:753-755 | The block is set before draining starts |
| Admission.Manager.EndAction | sandbox_manager/main.py:747-782 | The end of an action leaves the block and what the drain achieved: no task of a drained agent is on its way to a lease |
| Admission.Manager.Unblock | sandbox_manager/main.py:711-713 | The block and the drained state go together, and only when no action on the agent is under way |
| Catalog.CatalogStore.SaveModel | catalog_service/src/management.py:529-542 | Accepted exactly if well-formed, current, not a false legacy claim, and not disabling a model an enabled configuration uses; integrity is kept |
| Catalog.CatalogStore.ImportModels | catalog_service/src/admin_api.py:120-146 | All items or none: accepted exactly if each is acceptable and none is given twice; each is stored as given, others are untouched |
| Catalog.CatalogStore.Imported | catalog_service/src/admin_api.py:129-145 | The loop over the items, each checked against what the earlier ones left, accepts exactly what the original document would, stores exactly the items, and is a legal edit |
| Catalog.CatalogStore.DeleteModel | catalog_service/src/admin_api.py:152-165 | Deleted exactly if no draft or active configuration mentions it; integrity is kept |
| Catalog.CatalogStore.ValidateAgent | catalog_service/src/management.py:484-527 | The checks accept exactly the acceptable configurations: limits, distinct existing and enabled models, default and small among them, resolving bindings with distinct IDs and runtime names |
| Catalog.CatalogStore.ValidateBindings | catalog_service/src/management.py:509-522 | The loop with its two sets accepts exactly the bindings that resolve, belong to the agent or to everyone, and repeat neither ID nor runtime name |
| Catalog.AcceptableSnoc | catalog_service/src/management.py:512-522 | One more binding is acceptable exactly if it resolves and repeats nothing |
| Catalog.CatalogStore.SaveAgent | catalog_service/src/management.py:555-593 | Accepted exactly for a live, never retired ID and an acceptable draft; only the draft changes |
| Catalog.CatalogStore.CopyAgent | catalog_service/src/management.py:570-593 | Accepted exactly for a live source and an unused ID, if the settings are acceptable, no two bindings share a runtime name and no shared resource is bound twice; the copy binds its own copies of the source's private resources and shares the rest; the source and its resources are untouched |
| Catalog.CopyIsAcceptable | catalog_service/src/management.py:570-584 | Exactly when a copied draft passes every check for its new owner; an acceptable draft always does |
| Catalog.CatalogStore.PublishAgent | catalog_service/main.py:314-323 | Committing an agent's release keeps integrity, and every resource it pins counts as referenced from then on |
| Catalog.CatalogStore.CopyBindings | catalog_service/src/management.py:575-582 | Each binding keeps its version and names the original or a copy owned by the new agent |
| Catalog.CatalogStore.AgentLifecycle | catalog_service/main.py:382-440 | Deletion only from archived or deleting, leaving a tombstone; a repeated deletion request is answered again; private resources go along and no draft loses a reference |
| Catalog.CatalogStore.RestoreTemplate | catalog_service/src/agent_templates.py:33-70 | Restores only under an unused, never retired ID and only an acceptable configuration |
| Catalog.CatalogStore.SaveResource | catalog_service/src/management.py:595-647 | Kind, owner and published versions of a known resource never change; a new one needs a live owner |
| Catalog.CatalogStore.UploadSkill | catalog_service/src/management.py:675-695 | Only the name and draft of a skill change |
| Catalog.CatalogStore.ResourceLifecycle | catalog_service/src/management.py:649-673 | Deleted exactly if archived and referenced by no draft, version or template |
| Catalog.CatalogStore.CopyResource | catalog_service/src/admin_api.py:315-328 | A copy under an unused ID, with the source's versions, unarchived |
| Catalog.CatalogStore.PublishResource | catalog_service/src/admin_api.py:410-421 | Published exactly if the draft is still the validated one; the number is new and finds exactly this artifact |
| Catalog.CatalogStore.Store | catalog_service/src/management.py:410-427 | An edit made of guarded changes is a step of the transition relation and ends in the next revision of a document with integrity |
| Catalog.AlwaysSound | catalog_service/src/management.py:410-427 | In every history of edits from the empty document each reference of each draft resolves, no retired ID is an agent, and published versions are numbered 1..n |
| Catalog.ChangeKeeps | catalog_service/src/management.py:484-703 | Every change the catalog makes, under the guard it is made under, keeps integrity and takes back no tombstone and no published version |
| Catalog.PlayKeeps | catalog_service/src/management.py:410-427 | So does an edit of several changes, each judged in the document the earlier ones left |
| Catalog.RetiredForever | catalog_service/main.py:424-431 | In every history of edits from the empty document a tombstoned agent ID never becomes an agent again |
| Catalog.PinnedForever | catalog_service/src/management.py:465-475 | In every history of edits what a pinned resource version resolves to never changes while the resource exists |
| Catalog.ModelStored | catalog_service/src/management.py:529-542 | Storing a model keeps integrity if it is not disabled under an enabled draft |
| Catalog.ModelDropped | catalog_service/src/admin_api.py:152-165 | Dropping an unreferenced model keeps integrity |
| Catalog.AgentDropped | catalog_service/main.py:424-431 | Nobody else can have bound an agent's private resources |
| Catalog.ResourceDropped | catalog_service/src/management.py:649-673 | Dropping an unreferenced resource keeps integrity |
| Catalog.NextVersionIsNew | catalog_service/src/management.py:702-703 | len + 1 is a number no version has |
| Transfers.ImportStore.Commit | catalog_service/src/transfers.py:330-466 | All or nothing: catalog and remembered outcome change together; a repeated commit answers the same and changes nothing, another selection is refused; accepted exactly if unexpired, current and every entry importable |
| Transfers.Stage | catalog_service/src/transfers.py:357-432 | The loop accepts exactly distinct, importable destinations and ends, by a legal edit, in a document that holds each entry and nothing else new |
| Transfers.CheckEntry | catalog_service/src/transfers.py:369-401 | Refuses exactly unconfirmed replacement, another kind, a private resource, or disabling a referenced model |
| Transfers.TemplateResolves | catalog_service/src/transfers.py:435-448 | Whatever an imported template referred to and was imported along resolves to what was stored; other references are unchanged |
| Transfers.MappedIsTarget | catalog_service/src/transfers.py:435-441 | The mapping leads a selected entry to one of its own destinations and leaves others alone |
| Traces.ReachedExactlyOnce | observability/main.py:216-232 | For any parent pointers every span is reached from the roots by exactly one way |
| Traces.Partition | observability/main.py:217-232 | Roots and child lists partition the span IDs: each is in exactly one list, once |
| Traces.Walk | observability/main.py:221-229 | The ancestor walk terminates on every input and reports a cycle exactly if the chain never ends |
| Traces.Link | observability/main.py:216-232 | The loop puts each span under its home, in order |
| Traces.Repeats | observability/main.py:224-229 | A chain that meets itself never ends |
| Traces.WayUnique | observability/main.py:217-232 | Two ways from the roots to one span are the same |
| Traces.WayExists | observability/main.py:217-232 | Every span can be reached from a root |
| Traces.SpanRange | observability/main.py:183-196 | A span's interval exists exactly with a dated duration, covers all of them, is no wider than they are and never runs backwards |
| Traces.MergedDuration | observability/main.py:234-241 | The merged duration is the measure of the union of the intervals, in any order and with any overlap |
| Traces.MergeSorted | observability/main.py:236-241 | The loop over sorted intervals counts every covered instant once |
| Traces.ModuleTimes | observability/main.py:233-242 | Each module with an interval gets the measure of the union of its own spans' intervals |
| Traces.CoveredIff | observability/main.py:233-242 | The measured set is the instants that lie in some interval |
| LogQuery.Query | observability/main.py:93-160 | The page holds the newest `limit` matches of the lines read, newest first; truncated exactly if more matched or the scan was partial; the byte budget holds; an untruncated page holds every match of every candidate |
| LogQuery.ScanFiles | observability/main.py:104-130 | The loop reads the tails of the newest files, as many bytes as the budget and the files allow, and reports a cut exactly when there was one |
| LogQuery.ReadMeaning | observability/main.py:104-130 | Without a cut everything was read; more bytes than the budget always mean a cut, and a cut means the budget was used up |
| LogQuery.TailIsSuffix | observability/main.py:121-130 | Only whole lines are read from a cut file, and they are its last ones |
| LogQuery.LinesSplit | observability/main.py:126-130 | Cutting after a newline cuts between lines |
| LogQuery.Collect | observability/main.py:130-150 | The bounded heap keeps the newest matches and counts all |
| LogQuery.Keep | observability/main.py:146-150 | A push or replacement keeps what is left out older than everything kept |
| LogQuery.KeptIsNewest | observability/main.py:151-154 | The heap, reversed, is the newest-first list |
| LogQuery.MatchesIff | observability/main.py:130-146 | A match is a line that parses and passes the filters, at its own position |
| Secrets.RoundTrip | catalog_service/src/management.py:50-83 | For every value whose rows with a readable credential have string IDs no later row repeats, saving the masked value gives it back if and only if it is restorable |
| Secrets.PlainKept | catalog_service/src/management.py:63-83 | A value without a readable credential comes back whatever it is saved over, and whatever the IDs of its rows |
| Secrets.RowsRestored | catalog_service/src/management.py:78-82 | Reordering, repeating or dropping ID-bearing rows restores each remaining row as stored |
| Secrets.RowsFollowTheirId | catalog_service/src/management.py:78-82 | An edited row takes its credentials from the last stored row with its ID, never from its position |
| Secrets.MaskRestored | catalog_service/src/management.py:63-77 | A masked map comes back unless it would be rebuilt as a legacy model |
| Secrets.LegacyKeySurvives | catalog_service/src/management.py:68-73 | A single-key model turned into deployments keeps its key |
| Secrets.RowWithoutIdLosesItsKey | catalog_service/src/management.py:81-82 | A row without an ID is saved with the mask in place of its credential |
| Secrets.RedactTwice | catalog_service/src/management.py:50-60 | Masking is idempotent |
| Secrets.RedactHides | catalog_service/src/management.py:50-60 | No credential stays readable |
| Secrets.RedactFixes | catalog_service/src/management.py:50-60 | Masking changes exactly the values with a readable credential |
| Jsonc.StripMeaning | catalog_service/src/import_formats.py:7-35 | Every text is literals, plain characters and comments up to an open end; the first pass drops line comments, blanks block comments and keeps the rest, and fails exactly on an open block comment |
| Jsonc.RenderedStripped | catalog_service/src/import_formats.py:7-35 | On any rendering of tokens the first pass gives the rendering of the cleaned tokens |
| Jsonc.Tokenized | catalog_service/src/import_formats.py:7-35 | Every text has such a reading |
| Jsonc.TokenStripped | catalog_service/src/import_formats.py:10-35 | Each kind of token is treated as its own, whatever follows |
| Jsonc.StripTwice | catalog_service/src/import_formats.py:7-35 | The first pass is idempotent on every text it accepts |
| Jsonc.StripComments | catalog_service/src/import_formats.py:7-35 | The loop computes that pass on every text, error included |
| Jsonc.DropTrailingCommas | catalog_service/src/import_formats.py:36-50 | Exactly the commas outside strings whose next non-blank character closes are removed |
| Jsonc.TrailingIff | catalog_service/src/import_formats.py:38-40 | The look-ahead finds exactly those commas |
| Jsonc.DropTwice | catalog_service/src/import_formats.py:36-50 | The second pass is idempotent on a text if and only if it has no two commas together before a closing bracket |
| Jsonc.DropTwiceDiffers | catalog_service/src/import_formats.py:36-50 | A text on which it is not |
| Jsonc.DropIsKept | catalog_service/src/import_formats.py:36-50 | The scan from any position agrees with the choice by position |
| Jsonc.Prepare | catalog_service/src/import_formats.py:7-50 | Both passes in order |
| Sessions.Registry.RecordSessionsBatch | sandbox_manager/registry.py:235-299 | A committed batch gives the table and outcomes of recording its entries one by one; an uncommitted one leaves the table alone |
| Sessions.Registry.RecordSession | sandbox_manager/registry.py:220-233 | A single record is a batch of one |
| Sessions.Registry.Insert | sandbox_manager/registry.py:251-291 | The statements of one entry refuse an unknown sandbox, another owner and another route, and otherwise write that entry only |
| Sessions.RefusedLeavesNoTrace | sandbox_manager/registry.py:292-298 | Without a refused entry the batch would leave the same tables |
| Sessions.AlwaysOwned | sandbox_manager/registry.py:147-299 | Over any history each session's owner is its sandbox's owner, and an owner has one sandbox |
| Sessions.NextKeepsOwned | sandbox_manager/registry.py:147-299 | Every write keeps that |
| Sessions.BoundForever | sandbox_manager/registry.py:261-287 | While a session exists its route never changes |
| Sessions.Registry.UpsertSandbox | sandbox_manager/registry.py:147-185 | The row of the owner is refreshed, or a new one inserted; a taken sandbox ID changes nothing |
| Sessions.Registry.Reconcile | sandbox_manager/registry.py:316-342 | Rows not observed become missing, the others show an observation; ownership is kept |
| Sessions.SessionRecorder.Ask | sandbox_manager/native_router.py:112-117 | A waiting caller always has a worker, and keeps its place |
| Sessions.SessionRecorder.Take | sandbox_manager/native_router.py:119-125 | The next batch is the oldest requests, in order, at most 64 |
| Sessions.SessionRecorder.Flush | sandbox_manager/native_router.py:126-137 | Each caller of the batch that is still there is told the outcome of its own entry, or that the commit failed; the others' answers stay |
| Journal.StartsAtMostOnce | sandbox_manager/main.py:476-572 | Under every interleaving, failure and crash the body of a command starts at most once |
| Journal.RepliesAgree | sandbox_manager/main.py:683-701 | All answers under one ID are for one payload and give one result |
| Journal.InterruptedForever | sandbox_manager/main.py:484-491 | A command whose body broke off is never run again and never answered |
| Journal.BreakOrphans | sandbox_manager/main.py:546-572 | A crash or an exception inside the body leaves exactly such a command |
| Journal.ResultStays | sandbox_manager/main.py:775-781 | A recorded result is never changed |
| Journal.ReplayAnswers | file_service/coordination.py:69-88 | A repeat after completion is answered with the recorded result without running the body |
| Journal.OtherPayloadRefused | file_service/coordination.py:77-81 | Another payload under a used ID is refused |
| Journal.RunKeepsInv | file_service/coordination.py:69-105 | The journal's rows say exactly what started, completed and was answered |
| Journal.JournalService.Lookup | sandbox_manager/main.py:683-701 | Look-up as specified; an agent action inserts in the same stretch |
| Journal.JournalService.Reserve | sandbox_manager/main.py:535-546 | The second look under the write lock, or the primary key alone for a file cleanup |
| Journal.JournalService.Finish | file_service/coordination.py:100-105 | The result is recorded before it is answered |
| Journal.JournalService.Arrive | file_service/coordination.py:69-71 | An unbounded or empty ID is refused before the journal is touched |
| Capacity.Admit | operations/src/load_capacity.py:5-42 | An accepted request fits: allocated, requested and reserved memory within the machine and within what is available, CPU up to 1e-8, on a sample at most 15 seconds old |
| Capacity.Calculate | sandbox_manager/capacity.py:42-112 | The snapshot is a budget of what runs: it allows admission exactly if every sandbox is limited, the host is not busy and nothing intrudes on the reserve, and then offers all that is left, rounded down by less than a thousandth of a core and a megabyte |
| Capacity.Weigh | sandbox_manager/capacity.py:77-112 | Reserve, admission and remaining budget from the sums |
| Capacity.Sums | sandbox_manager/capacity.py:50-76 | The loop charges running containers and all sandboxes, and finds the unlimited ones |
| Capacity.CheckCapacity | operations/src/load_capacity.py:5-42 | Exactly when a request is accepted, refused as stale or disallowed, or divides by zero, for rows of any limits; a rejection suggests one count for every agent, the largest that fits where its rows agree on positive limits |
| Capacity.Suggest | operations/src/load_capacity.py:16-41 | The loop divides by zero exactly if some agent's first row has a zero limit |
| Capacity.MaximumFits | operations/src/load_capacity.py:21-37 | Exactly the counts up to the suggestion fit beside the other agents' rows |
| Capacity.RequestSuggestions | operations/src/load_capacity.py:16-41 | For the rows of a request, and for the rows of the users left to prepare, every suggestion is the largest count that fits |
| Capacity.RequestsAgree | operations/src/load_test_store.py:36-41 | A request selects each agent once, so its rows, and the rows of any users not yet prepared, ask for the same limits within an agent |
| Capacity.UsersAskTheSame | operations/src/load_test_store.py:196-213 | The users created ask in sum for exactly what the start was checked for |
| Capacity.SumsSplit | operations/src/load_capacity.py:10-24 | Total minus the agent's demand is the demand of the other rows |
| Capacity.Grouped | operations/src/load_capacity.py:17-20 | One group per agent with the users of all its rows |

## Left out

- Publication.Publisher.Run: covers `models.apply` and `agent.apply`; the sandbox and life-cycle branches of `run` and `reconcile` are not modelled. One run is followed at a time: an earlier job's finalizer overlapping a later job is excluded, as is a request delivered after its caller gave up.
- Publication.Publisher.PrepareRelease: a queued job has no release yet; the branch for one that already has a `release_id` is left out.
- Publication.Publisher.Compensate: request IDs of the compensating actions are not tied to the journal.
- SandboxStaging.SandboxManager.Verify: covers one target; verifying all overrides at once, which neither apply kind asks for, is left out.
- Publication.Publisher.Reconcile: covers jobs of the two apply kinds; its branches for sandbox actions and agent.delete are not modelled.
- Releases.ReleaseStore.BeginPrepare: the checks that the models are available and the compilation are one outcome of the call.
- SandboxStaging.SandboxManager.InstallBundle: the refusals for size, encoding and a missing agent.cfg are not told apart.
- ModelGateway.GatewayState.constructor: a stored active release that is not valid keeps the service from starting and is not modelled.
- Releases.ReleaseStore.Commit: integrity of what a historical version references is not claimed, since a resource it names may have been deleted after the release was prepared.
- Admission.Manager.DrainPoll: the `requests` counter and each sandbox's own idleness appear as one boolean that can only delay the return; idle timestamps and elapsed times are left out.
- Admission.Manager.CondemnQuiet: the label check of the load-test cleanup, force previews, activity generations and expected container IDs are left out.
- Jobs.JobStore.Submit: a deletion is never submitted for every agent, which the deletion preview in operations guarantees; traces and timestamps are left out.
- Jobs.JobStore.Transition: a step into an executing status from a final one, which no caller makes, is excluded.
- Jobs.JobStore.Update: writing an executing status without a check, which no caller does, is excluded.
- Recovery.AutoRecovery.Tick: the list of sandboxes, its paging and the catalog's answer are arguments; the policy is fixed between stability resets.
- Catalog.CatalogStore.SaveModel: restoring masked fields, `validate_model` and identifier syntax are one boolean; so are `validate_mcp`, hook compilation, skill unpacking and template validation in the other edits.
- Catalog.History: the two bundled templates of the first start are an edit like an import; the artifact paths rewritten at a start are left out.
- Catalog.CatalogStore.PublishAgent: the check of the previous active version and the release record belong to `Releases`.
- Catalog.CatalogStore.AgentLifecycle: the fingerprint and the compiled paths are booleans; `last_restored` and timestamps are left out.
- Transfers.ImportStore.Commit: an entry is what remains after restoring secrets and forcing models without credentials off; encryption, ZIP and native formats are left out.
- Traces.Link: a parent pointer is absent or a string; one that is a JSON list or object makes the look-up raise (observability/main.py:217) and the request fail, which is left out.
- Traces.SpanRange: status, names, sorting for display, offsets and rounding are left out, as are timestamps outside the range of datetime.
- LogQuery.Query: parsing is a function argument and bytes are characters; heapq's array layout is replaced by the ascending list of its entries; symbolic links and vanished files are absent contents; the export and the trace listing are left out.
- Secrets.RoundTrip: values for which the source raises (a number in place of a list, an unhashable row ID, a non-iterable `additional_base_urls`) are given a harmless meaning; numbers and booleans are never equal as IDs.
- Jsonc.Prepare: the byte order mark and `json.loads` after it are left out.
- Sessions.Registry.UpsertSandbox: the agents table with its foreign key and the port range are left out; when both the ID and the owner are taken by different rows the statement is taken to fail.
- Sessions.SessionRecorder.Flush: the worker's own cancellation at shutdown is left out.
- Journal.JournalService.Lookup: an agent action without a request ID bypasses the journal and has no such guarantee; a payload is its canonical JSON text.
- Capacity.Calculate: rounding of the reported (not the remaining) figures, Docker and /proc sampling and the five-second cache are left out.
- HTTP clients and servers, Docker, LiteLLM, SQLite itself, path handling, logging, metrics, the TypeScript UI, and build and install tooling.
