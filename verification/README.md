# AIRA-X backend: durable protocols, modelled and proved in Dafny

AIRA-X keeps its background work, its outgoing deliveries, its incident workflow and its approvals in
database rows. Each row has a status, each operation is one database session, and workers, operators and
sweeps interleave. This project models those protocols and proves what they keep.

Tables are sequences of records and an id is a position in its table. A session is one atomic step; where
the program splits an operation over several sessions, so does the model. Handlers, HTTP sends, model
output and the clock are inputs: every theorem holds for all of them. The clock never runs backwards
wherever a theorem depends on time.

The project has one module per component and verifies with `dafny verify dfyconfig.toml`.

| part | modules |
|---|---|
| Execution queue | `JobPolicy`, `JobTable`, `ExecutionQueue`, `QueueProtocol`, `QueueSafety`, `QueueAtomic`, `QueueCaps`, `QueueLineage`, `QueueReplies`, `QueueResults`, `QueueNumbers` |
| Rate limit, quota, approvals | `RateLimiter`, `UsageQuota`, `GuidedFlows`, `Approvals`, `ApprovalPayloads`, `ApprovalExpiry` |
| Incident workflow | `Incidents`, `IncidentHistory` |
| External delivery | `Webhooks`, `WebhookRouting`, `WebhookAdmission`, `WebhookRuns`, `WebhookHistory` |
| Incident mirroring | `IncidentTargets`, `Readiness`, `IncidentSync`, `IncidentSyncRuns`, `IncidentSyncAnswers`, `ApplyPreview` |
| Plan execution | `PlanExecutor`, `RuntimeValidation` |

How the modules are built: a function gives what one session does to the tables; a class method does it
step by step, as the program does, and is proved equal to that function; lemmas then speak of runs, which
are arbitrary sequences of sessions. What a session is for is said apart from that function, in terms of
the request, the answer, and the rows before and after. Every lemma turns automatic induction off, so that a
proof rests on what its body says.

## Findings

Promises that hold only under a condition. Each comes with the exact condition under which it holds, and
most with a concrete run in which it fails. Where the code and its documentation disagree, the model follows
the code.

- An acknowledged cancel is honored exactly when it stands: its holder had not decided on another outcome
  when it landed, and the handler does not mark its own job between the last request and the holder's next
  look, unless it bails out (`CancelStaysPendingIff`, `CancelOutcome`, `SingleCancelIff`). It is lost after
  the decision (`AcknowledgedCancelCanBeLost`) and to the artifact handler's own mark (`MarkLosesCancel`).
  With each checkpoint and the transition after it as one step, and a checkpoint in the same step before
  each mark, it is always kept (`CancelIsHonest`).
- The concurrency caps hold throughout a run exactly when no claim's update takes a row, and no handler's
  mark takes back a cancel, whose owner or class has no place left (`StepKeepsCapsIff`, `CapsHoldIff`). A
  claim split over two sessions breaks them (`SplitClaimBreaksCaps`), and so does a mark although every
  claim is one step (`MarkBreaksCaps`). With claims as one step, and a checkpoint in the same step before
  each mark, they hold (`CapsHold`).
- A retry, which promises the active re-run of a failed job, answers with one exactly when the active job under
  that retry's key is not an original job (`RetryIsOfTheJobIff`, `ForgedKeyStopsRetry`); that always holds
  when nobody enqueues under such a key (`RetryMakesARetry`), and no caller in the program does
  (backend/app/assistant_supervisor.py:1052).
- An approval runs what it claimed exactly when it is of a plan, or when the offer that its turn peeked and
  the offer pending at its read carry the same payload (`RunsItsClaimIff`); otherwise an artifact or action
  runs the payload peeked before (`PeekedMayNotBeClaimed`).
- Sessions do not flush before a query (backend/app/db/database.py:11). So a sweep of incidents is lost as a
  whole when one new signal is alerted twice (`SweepIsExactIff`), a routing sweep returns counts for
  deliveries that it rolled back (`RoutedIsCreatedIff`), and "one open delivery per (destination, signal)"
  (backend/app/webhooks.py:20-21) can break within one sweep (`NoiseBoundIff`, `OneSweepTwoOpen`); it
  holds when no sweep brings two alerts of one signal (`DistinctSweepsKeepNoiseBound`).
- A rate-limited client can get `2 * max(1, limit) - 1` requests through in one minute (`RateBound`,
  `RateBoundIsReached`), and `Retry-After` is a long enough wait only when nothing was truncated
  (`RetryAfterSuffices`).
- A dead letter that reads `resolved` is still redriven, unless a further redrive is open or the limit is
  reached (`RedriveVersusDeadLetter`, `ResolvedCanBeRedriven`), although the view presents it as settled.
- A target can read `ready` on a test that used the previous secret, when the secret was rotated while
  the test was in flight (`EvidenceCurrentIff`, `RotationDuringTest`).
- Two redrives of one sync record can both be open when a stale list of pending records brings a failed
  one to be sent again (`OneOpenRedriveIff`, `TwoOpenRedrives`).
- A runtime validation that completes has checked a command on the final files exactly when every later
  action passes at its first run or probe (`FinalFilesIff`, `CompletedOnOldFiles`): a repair runs again only
  the check that it was made for.

## Model

| member | source | states |
|---|---|---|
| JobPolicy.BlockedClasses | backend/app/job_policy.py:99-106 | the classes held back are exactly the bounded ones whose running rows have reached their cap |
| JobTable.PickQueued | backend/app/execution_queue.py:204-217 | the ordered query finds a queued row that is not held back and ahead of every other one, or there is none |
| JobTable.ChooseIsBestClaimable | backend/app/execution_queue.py:188-217 | a claim finds nothing if and only if no queued row is below its caps, and otherwise the one of highest priority and then earliest creation |
| ExecutionQueue.ExecutionQueueService.Enqueue | backend/app/execution_queue.py:125-177 | refuses an empty owner or kind, returns the active job of the same key, or appends a queued one |
| ExecutionQueue.ExecutionQueueService.CountInFlight | backend/app/execution_queue.py:191-201 | the dictionaries built in the loop hold, for every class and owner, the number of interruptible rows |
| ExecutionQueue.ExecutionQueueService.Claim | backend/app/execution_queue.py:181-233 | takes the best claimable row to running with one more attempt and changes no other row; otherwise changes nothing |
| ExecutionQueue.ExecutionQueueService.SetStatus | backend/app/execution_queue.py:237-261 | a terminal row takes no other status; a result is stored only when given |
| ExecutionQueue.ExecutionQueueService.RequestCancel | backend/app/execution_queue.py:265-300 | a queued job is canceled at once, a running one is marked, a finished one is left, another owner's is not found, and each answer is the status that the row then has |
| ExecutionQueue.ExecutionQueueService.EnqueueClone | backend/app/execution_queue.py:352-384 | returns the active job of the owner and key, or adds one queued child of the parent with its work, exactly when there is none |
| ExecutionQueue.ExecutionQueueService.RetryFailed | backend/app/execution_queue.py:313-334 | only the owner's failed job gets a retry: an active job under its retry key, added exactly when there was none |
| ExecutionQueue.ExecutionQueueService.ReplayAny | backend/app/execution_queue.py:336-350 | any job gets a replay for its owner, under the key of job and requester, added exactly when there was none |
| ExecutionQueue.ExecutionQueueService.RunOnce | backend/app/execution_queue.py:408-449 | one claim and execution, with a cancel before the handler or at any point among its marks, ends in the one outcome that the flags call for |
| ExecutionQueue.ExecutionQueueService.Close | backend/app/execution_queue.py:425-449 | after the handler, a cancel seen wins, an error re-queues while budget remains, and only otherwise is an outcome stored |
| ExecutionQueue.ExecutionQueueService.Drain | backend/app/execution_queue.py:464-470 | the loop runs jobs until one run finds nothing or the limit is reached |
| ExecutionQueue.RunAloneProgress | backend/app/execution_queue.py:408-449 | a lone run finds work if and only if a job is queued, keeps the table sound, and uses up retry budget |
| ExecutionQueue.DrainEmptiesQueue | backend/app/execution_queue.py:464-470 | draining a closed queue takes at most the retry budget that the queued jobs have left, and then every job is terminal, whatever the handlers do |
| ExecutionQueue.AloneIsProtocol | backend/app/execution_queue.py:408-449 | a lone run, with its marks and its cancels, is the interleaved protocol with no other worker in between |
| QueueProtocol.StepKeepsInv | backend/app/execution_queue.py:181-449 | every session of every worker and client keeps the invariant of table and workers, and never changes a terminal row or a job's identity |
| QueueProtocol.RunKeepsInv | backend/app/execution_queue.py:181-449 | the invariant holds over every run from a state in which it holds |
| QueueSafety.SingleExecution | backend/app/execution_queue.py:215-233 | in every interleaving a job has at most one holder, and a held job is neither queued nor terminal until its holder's own last transition |
| QueueSafety.InHandHasHolder | backend/app/execution_queue.py:408-449 | a job that reads as running or cancel-requested has a worker that holds it |
| QueueSafety.AttemptsCountExecutions | backend/app/execution_queue.py:219-224 | the stored attempts are the executions handed out, and never exceed the retry budget |
| QueueSafety.TerminalFrozen | backend/app/execution_queue.py:249-261 | a completed, failed or canceled row is never modified again |
| QueueSafety.RetryReadStaysValid | backend/app/execution_queue.py:318-332 | whatever happens between reading the failed job and cloning it, the clone is the one that an atomic retry would make |
| QueueSafety.ReplayReadStaysValid | backend/app/execution_queue.py:340-350 | the same for a replay |
| QueueSafety.CancelStaysPendingIff | backend/app/execution_queue.py:237-261 | any step but the holder's last keeps a cancel pending if and only if it is not a mark of the holder's handler that overwrites the status |
| QueueSafety.CancelOutcome | backend/app/execution_queue.py:276-300 | whatever happens until the holder finishes, its own marks included, a requested cancel ends canceled if and only if it stands: not decided otherwise when it landed, and not marked over between the last request and the next look, unless the handler bailed out |
| QueueSafety.SingleCancelIff | backend/app/execution_queue.py:425-445 | a cancel asked for once, of a handler that does not bail out, ends canceled if and only if the holder had not decided otherwise and never marks the job again |
| QueueSafety.AcknowledgedCancelCanBeLost | backend/app/execution_queue.py:442-445 | a run in which a cancel is acknowledged and the job still completes |
| QueueSafety.MarkLosesCancel | backend/app/job_handlers.py:34-36 | a run in which a cancel is acknowledged while the handler works, its mark overwrites it, and the job completes |
| QueueAtomic.MoveIsRun | backend/app/execution_queue.py:408-449 | each claim, and each checkpoint with its transition, is a short run of sessions |
| QueueAtomic.PlayIsRun | backend/app/execution_queue.py:408-449 | every sequence of such moves is a run of sessions |
| QueueAtomic.CancelIsHonest | backend/app/execution_queue.py:416-445 | once requested, a cancel's only successor is canceled, and the handler's result is not stored |
| QueueAtomic.CapsHold | backend/app/execution_queue.py:190-228 | with each claim, and each checkpoint with the mark or transition after it, as one step, in every reachable state no bounded class and no owner has more counted rows than its cap |
| QueueAtomic.ReplayYields | backend/app/job_policy.py:59-65 | a replay is claimed only when no eligible job of another class is queued |
| QueueCaps.StepKeepsCapsIff | backend/app/execution_queue.py:190-228 | from within the caps a session keeps them if and only if it brings no row in flight, by a claim's update or by a mark that takes back a cancel, whose owner or class is full |
| QueueCaps.CapsHoldIff | backend/app/execution_queue.py:181-261 | the caps hold throughout a run of sessions if and only if no step of it does so |
| QueueCaps.SplitClaimBreaksCaps | backend/app/execution_queue.py:215-224 | with selection and update apart, two workers take two jobs of an owner that may have one |
| QueueCaps.MarkBreaksCaps | backend/app/job_handlers.py:34-36 | with every claim in one go, a mark over a pending cancel puts two jobs of such an owner in flight |
| QueueReplies.ClientStepTells | backend/app/execution_queue.py:125-384 | each client step of the protocol leaves the table that its answer tells of, and moves no worker |
| QueueReplies.EnqueueAnswer | backend/app/execution_queue.py:125-177 | refused exactly without an owner or a kind; otherwise the answer is an active job of that owner and key, and one queued job, unattempted and stamped with the moment, is added exactly when the key is empty or free |
| QueueReplies.CancelAnswer | backend/app/execution_queue.py:265-300 | not found exactly for a missing or foreign job; already finished exactly for a terminal one, with its status; otherwise the row has the status answered, canceled if it was queued and cancel-requested if not; nothing else changes |
| QueueReplies.QueuedCancelIsFinal | backend/app/execution_queue.py:282-294 | a queued job that its owner cancels is canceled at once, stays as it is over every later run, and is never executed |
| QueueReplies.RetryAnswer | backend/app/execution_queue.py:313-334 | scheduled exactly for the owner's failed job; the answer is an active job under that job's retry key, and a queued retry with its work is added exactly when there was none |
| QueueReplies.ReplayAnswer | backend/app/execution_queue.py:336-350 | the same for a replay of any job, for its own owner, under the key of job and requester |
| QueueReplies.CloneAnswer | backend/app/execution_queue.py:352-384 | the clone adds one queued job with the parent's work, or returns the active one of the key |
| QueueReplies.RetryKeyTells | backend/app/execution_queue.py:331 | the key of a retry determines the job |
| QueueReplies.ReplayStemTells | backend/app/execution_queue.py:349 | the key of a replay determines the job, whatever the requester is called |
| QueueReplies.OriginsAreKeyed | backend/app/execution_queue.py:328-349 | in every run an original has no parent, and the key of a retry or replay names its parent |
| QueueReplies.RetryIsOfTheJobIff | backend/app/execution_queue.py:323-365 | in every run the answer to a retry of a failed job is an active retry of that very job with its owner, kind and payload, if and only if it is not an original job |
| QueueReplies.ReplayIsOfTheJobIff | backend/app/execution_queue.py:336-365 | the same for replays |
| QueueReplies.RetryMakesARetry | backend/app/execution_queue.py:328-332 | when nobody enqueues under a key of that form, a retry always answers with a retry of the job |
| QueueReplies.ReplayMakesAReplay | backend/app/execution_queue.py:345-350 | and a replay with a replay of the job |
| QueueReplies.ForgedKeyStopsRetry | backend/app/execution_queue.py:357-365 | a run in which another job was enqueued under the retry key, and the retry of the failed job makes none |
| QueueResults.OutcomesHaveSources | backend/app/execution_queue.py:420-445 | in every run a completed job holds a value that a handler returned, and a failed one an error that a handler raised or the truth that its kind has none |
| QueueNumbers.ClaimOrder | backend/app/job_policy.py:47-65 | in every reachable state a claim takes light work before generation, that before validation, that before operators' replays, and the oldest of a rank; without scheduling the oldest of all |
| QueueNumbers.ClaimableInNumbers | backend/app/job_policy.py:47-96 | a queued job may be claimed exactly when its owner and its class run fewer than their numbers: 2 artifacts, 1 validation, 1 replay, any number of light jobs, or as configured |
| QueueNumbers.CapsInNumbers | backend/app/job_policy.py:47-96 | with claims as one step none of those numbers is ever exceeded |
| QueueNumbers.ExecutionsInNumbers | backend/app/execution_queue.py:219-438 | a job is executed at most as often as configured, and exactly that often when its handler's error is final |
| QueueLineage.OneActivePerKey | backend/app/execution_queue.py:140-153 | at most one active job per owner and non-empty key, in every run |
| QueueLineage.OneActiveRetry | backend/app/execution_queue.py:357-365 | a failed job has at most one active retry |
| QueueLineage.RetriesAreKeyed | backend/app/execution_queue.py:328-332 | every retry ever made carries the key of the job that it retries |
| QueueLineage.RetryParentStaysFailed | backend/app/execution_queue.py:323-332 | a retry's parent is an older failed job of the same owner and work, and stays failed forever |
| QueueLineage.Root | backend/app/execution_queue.py:368-375 | a chain of parents ends at an original job of the same owner, kind and payload |
| QueueLineage.LineageIsStable | backend/app/execution_queue.py:352-384 | parent links are acyclic, and a job's root never changes |
| QueueLineage.TriageTellsTheCause | backend/app/ops_policy.py:128-144 | on every reachable failed job, a replay candidate failed only for want of a handler, a job whose handler failed spent its whole budget, and the two classifiers agree |
| QueueLineage.TriageIff | backend/app/observability.py:182-189 | resolved exactly when a follow-up completed, in progress when none did and one is active, exhausted when neither and the budget is spent |
| QueueLineage.ResolvedIsPermanent | backend/app/observability.py:182-189 | a failed job that reads resolved reads resolved forever |
| RateLimiter.RateLimitMiddleware.Dispatch | backend/app/middleware.py:92-117 | the decision, the bucket and the header of one request |
| RateLimiter.RateLimitMiddleware.DropExpired | backend/app/middleware.py:102-108 | the cleanup loop removes exactly the expired buckets |
| RateLimiter.CleanedRefinesPlain | backend/app/middleware.py:102-108 | the cleaned table agrees with one never cleaned on every bucket that is not expired |
| RateLimiter.CleanupChangesNoDecision | backend/app/middleware.py:92-108 | every request gets the decision of a limiter that never cleans up |
| RateLimiter.RateBound | backend/app/middleware.py:92-100 | every half-open minute admits at most 2 * max(1, limit) - 1 requests of one client |
| RateLimiter.RateBoundIsReached | backend/app/middleware.py:92-100 | for every limit and wherever the cleanups fall, an ordered history gets exactly that number through within one minute |
| RateLimiter.RetryAfterSuffices | backend/app/middleware.py:111 | the announced wait ends the window if and only if the time left was whole seconds or less than one |
| UsageQuota.UsageLimiter.Check | backend/app/usage_limits.py:76-91 | allowed if and only if quotas are off or the window's count is below the limit of that owner and kind |
| UsageQuota.UsageLimiter.Record | backend/app/usage_limits.py:182-184 | one more record, unless quotas are off |
| UsageQuota.UsageLimiter.PurgeOld | backend/app/usage_limits.py:98-103 | exactly the records older than the age go |
| UsageQuota.PurgeChangesNoDecision | backend/app/usage_limits.py:98-103 | purging no younger than the window changes no later decision |
| UsageQuota.WindowBound | backend/app/usage_limits.py:173-184 | every closed interval of the window's length holds at most the limit, for turns that follow one another, even when a record is stamped after its check |
| UsageQuota.WindowBoundByOwner | backend/app/usage_limits.py:133-165 | a workspace never exceeds the workspace's limit of each kind, and anyone else the personal one |
| UsageQuota.AllowedByOwner | backend/app/usage_limits.py:173-180 | and below that limit nothing is refused |
| UsageQuota.TurnRecordsIff | backend/app/usage_limits.py:173-184 | a turn records exactly when quotas are on, its check passed and its approval was still there |
| GuidedFlows.Newest | backend/app/guided_flow_store.py:131-140 | the newest pending flow of a key and kind, if there is one |
| GuidedFlows.GuidedFlowStore.Set | backend/app/guided_flow_store.py:65-101 | the pending flows of the key and kind go, and one pending flow is added that is good for its time to live, or for ever without one |
| GuidedFlows.GuidedFlowStore.Peek | backend/app/guided_flow_store.py:103-118 | a payload is returned if and only if a flow is pending, expired or not |
| GuidedFlows.GuidedFlowStore.Consume | backend/app/guided_flow_store.py:120-153 | with nobody in between, returns the payload and spends the flow, or changes nothing |
| GuidedFlows.GuidedFlowStore.Take | backend/app/guided_flow_store.py:147-153 | the guarded update flips the row and wins only while it is pending |
| GuidedFlows.GuidedFlowStore.Clear | backend/app/guided_flow_store.py:155-163 | every flow of the key and kind goes |
| GuidedFlows.GuidedFlowStore.PurgeExpired | backend/app/guided_flow_store.py:224-230 | the expired flows go, those without an expiry stay |
| GuidedFlows.SetKeeps | backend/app/guided_flow_store.py:78-100 | setting a flow keeps ids unique and one pending flow per key and kind |
| GuidedFlows.SetTells | backend/app/guided_flow_store.py:78-100 | the flow that is set holds the payload and expires exactly when its time to live has run out; of the others only the pending ones of its key and kind go |
| GuidedFlows.TakeKeeps | backend/app/guided_flow_store.py:147-153 | a taken flow is pending nowhere, and no other flow changes |
| Approvals.HandleReply | backend/app/assistant_supervisor.py:1198-1224 | a blocked approval leaves the flow pending; only an approval that claimed its flow is charged and runs |
| Approvals.ExactlyOnceApproval | backend/app/guided_flow_store.py:128-153 | over every interleaving, each flow is claimed at most once, never one expired at its read; only a charged approval ran; a plan ran what was claimed, the other kinds what was peeked |
| Approvals.OnePendingPerKey | backend/app/guided_flow_store.py:79-100 | at most one pending flow per key and kind, in every run |
| Approvals.OneRecordPerCharge | backend/app/assistant_supervisor.py:1222-1224 | with quotas on, the records ever made are exactly the charged claims |
| Approvals.ChargeTells | backend/app/assistant_supervisor.py:1222-1224 | a charge makes one record for the reply's owner and kind at the present, with quotas on, and marks its claim |
| Approvals.PurgeTells | backend/app/usage_limits.py:98-103 | a purge with an age no less than the quota's window removes exactly the usage records older than that, and changes nothing else |
| Approvals.QuotaUnderRaces | backend/app/assistant_supervisor.py:1207-1223 | with n turns at once, every window holds at most the limit plus n - 1 records; one turn at a time never exceeds it |
| ApprovalPayloads.PendingIsLastOffer | backend/app/guided_flow_store.py:65-101 | in every run, every pending flow carries the payload last offered for its key and kind |
| ApprovalPayloads.RunsItsClaimIff | backend/app/assistant_supervisor.py:927-948 | in every run, an approval that ran was peeked and later read by one turn, and it ran what it claimed if and only if it is of a plan or the last offer before the read carries the same payload as the last offer before the peek |
| ApprovalPayloads.PeekedMayNotBeClaimed | backend/app/assistant_supervisor.py:927-948 | a run in which an artifact other than the claimed one is made |
| ApprovalExpiry.FlowTells | backend/app/guided_flow_store.py:75-101 | every flow ever set was offered at its step, under that key and kind, and is expired exactly when that offer's time to live has run out |
| ApprovalExpiry.ClaimsAreInTime | backend/app/guided_flow_store.py:120-153 | in every run, every claim is of a flow offered before its read and read within that offer's time to live, and an approval was permitted and below its quota at the check before the read |
| ApprovalExpiry.ReadFindsIff | backend/app/guided_flow_store.py:128-146 | in every run, a read finds the flow pending for its owner and kind exactly when that flow's offer is still good, and otherwise ends the turn |
| ApprovalExpiry.ReadFindsNothing | backend/app/guided_flow_store.py:141-142 | with nothing pending a read ends the turn |
| ApprovalExpiry.PeekTells | backend/app/guided_flow_store.py:103-118 | in every run, a reply begins a turn exactly when a flow of its owner and kind is pending, expired or not, and the turn remembers that flow and its payload |
| ApprovalExpiry.TakeTells | backend/app/guided_flow_store.py:147-153 | a take wins exactly while the flow that was read is still pending; it then spends that flow, enters one claim, and only an approval goes on |
| ApprovalExpiry.CheckClearsIff | backend/app/assistant_supervisor.py:1203-1209 | a check clears a refusal always, and an approval exactly when it is permitted and, with quotas on, below the limit |
| ApprovalExpiry.WhatGoes | backend/app/guided_flow_store.py:155-230 | a purge removes exactly the flows whose offers have run out, and a drop those of one owner and kind |
| Incidents.IncidentWorkflowService.Observe | backend/app/incidents.py:73-120 | the sweep's loop opens, bumps and reopens incidents and logs them, or is lost when two new rows clash |
| Incidents.IncidentWorkflowService.RecoverStale | backend/app/incidents.py:122-149 | every active incident that is no longer alerted recovers, and the count is that of the log entries |
| Incidents.IncidentWorkflowService.Operate | backend/app/incidents.py:172-261 | one operator action changes one incident and logs the state that it leaves |
| Incidents.SweepIsOk | backend/app/incidents.py:82-116 | a sweep leaves every alerted incident active and stages rows for exactly the alerted signals that had none |
| Incidents.BoardAlwaysOk | backend/app/incidents.py:172-275 | in all runs: one incident per signal, silenced if and only if an end of silence is set, and the last log entry of each incident tells its state |
| Incidents.SilencesAreBounded | backend/app/incidents.py:183-193 | no silence ever reaches further than max(1, the maximum) past the present |
| Incidents.SilencedIffReadsSilenced | backend/app/incidents.py:153-166 | the signals that routing skips are those of the incidents whose effective state is silenced |
| Incidents.LostSweep | backend/app/incidents.py:85-118 | when a new signal is alerted twice the sweep changes nothing |
| Incidents.SweepIsExactIff | backend/app/incidents.py:82-144 | after a sweep and the recovery of stale incidents, the active signals are exactly the alerted ones, if and only if no new signal is alerted twice |
| IncidentHistory.SweepRow | backend/app/incidents.py:82-116 | whatever else a sweep brings, a known incident counts its own alerts, takes the severity of the last, and begins a new episode when its last one was over |
| IncidentHistory.StagedRow | backend/app/incidents.py:85-96 | in a sweep that is not lost, a new incident is as its one alert opens it |
| IncidentHistory.OperationTells | backend/app/incidents.py:172-261 | an operator action changes at most one incident, leaves the state and silence of its kind, clamped to the configured length, and logs its word with that state |
| IncidentHistory.ColumnsAreHistory | backend/app/incidents.py:73-261 | in every run the columns of every incident tell its history: how often and when last it was alerted and how severely, when its episode began, its owner, acknowledgement, note and recovery |
| IncidentHistory.ShownState | backend/app/incidents.py:153-166 | a silence shows until it ends, then an acknowledged incident shows as such and any other as open |
| IncidentHistory.SweepLogsOnce | backend/app/incidents.py:92-110 | a sweep logs the opening of each new incident and each reopening once, and nothing else |
| IncidentHistory.RecoveryLogsOnce | backend/app/incidents.py:138-146 | a recovery of stale incidents logs each that recovers once, and nothing else |
| Webhooks.Latest | backend/app/webhooks.py:431-436 | the newest delivery of a destination and signal |
| Webhooks.DeliveryService.RouteAlertsDetailed | backend/app/webhooks.py:338-409 | one sweep: occurrences, decisions, deliveries, counters and tally, committed or rolled back as a whole; `WebhookAdmission` says which alerts become deliveries |
| Webhooks.DeliveryService.RecordOccurrences | backend/app/webhooks.py:361-364 | the first loop counts one sighting per alert |
| Webhooks.DeliveryService.RouteToDestinations | backend/app/webhooks.py:371-405 | the outer loop visits every enabled alert destination and skips one that cools down |
| Webhooks.DeliveryService.RouteToDestination | backend/app/webhooks.py:380-405 | the inner loop judges every alert and bumps one counter for each |
| Webhooks.DeliveryService.DeliverPending | backend/app/webhooks.py:454-507 | the oldest pending deliveries are sent once each, up to the limit, and booked on row and destination; the counts returned are those of the batch that ended delivered, failed and pending, and add up to it |
| Webhooks.DeliveryService.Redrive | backend/app/webhooks.py:530-565 | a failed delivery below its limit gets one pending child, unless one is open |
| Webhooks.DeliveryService.ClearCooldown | backend/app/webhooks.py:893-903 | streak and cooldown are cleared |
| WebhookRouting.RoutingConserves | backend/app/webhooks.py:371-405 | routed + suppressed + skipped + silenced = destinations * alerts |
| WebhookRouting.RoutedIsCreatedIff | backend/app/webhooks.py:392-409 | a sweep creates exactly the deliveries that it says it routed, if and only if it is not rolled back or routed none; existing deliveries stay |
| WebhookRouting.DestinationCounters | backend/app/webhooks.py:375-405 | each destination's counters: its new deliveries are those it routed, and every alert that is not silenced is counted once |
| WebhookRouting.RoutedIsAdmitted | backend/app/webhooks.py:186-199 | an alert is routed only when no delivery of its destination and signal is open and the last one differs in severity or is a window old |
| WebhookRouting.SeverityChangeRoutesIff | backend/app/webhooks.py:183-199 | a change of severity is routed past the window, if and only if the last delivery is not open |
| WebhookRouting.SweepKeepsNoiseBoundIff | backend/app/webhooks.py:371-405 | a sweep keeps the noise bound if and only if no destination routes two alerts of one signal in it |
| WebhookRouting.DistinctSignalsRouteOnce | backend/app/webhooks.py:361-405 | alerts for different signals commit and never route twice |
| WebhookAdmission.FateTells | backend/app/webhooks.py:168-199 | an alert is routed exactly when it is not silenced, at or above the floor (info, warning, critical), in the filter, seen often enough, and its newest delivery is closed and of another severity or a window old; suppressed when only the window is missing |
| WebhookAdmission.DeliveriesAreWanted | backend/app/webhooks.py:371-397 | every delivery that a sweep adds is of one of its alerts that was so wanted, to a destination that takes alerts and does not cool down |
| WebhookAdmission.WantedAreDelivered | backend/app/webhooks.py:371-405 | in a sweep that commits, such a destination gets exactly one delivery for each alert so wanted, and counts those too early as suppressed; any other gets none |
| WebhookAdmission.FirstAlertIsDelivered | backend/app/webhooks.py:186-199 | an alert that meets floor, filter and threshold, and has no earlier delivery there, is delivered |
| WebhookAdmission.EscalationsAreCounted | backend/app/webhooks.py:399-400 | the tally's escalations are the deliveries made for destinations with a threshold |
| WebhookAdmission.SendTells | backend/app/webhooks.py:484-505 | a send counts one attempt; the delivery is delivered, failed once its budget is spent (its destination's, two for a chat, or as configured), or stays open |
| WebhookAdmission.SendBooks | backend/app/webhooks.py:509-526 | a success clears its destination's streak and cooldown, a final failure adds to the streak and starts a cooldown of the configured length from the threshold on |
| WebhookAdmission.FetchedIff | backend/app/webhooks.py:459-467 | the worker takes a delivery exactly when it is open and fewer than the limit are older |
| WebhookAdmission.BatchIsSent | backend/app/webhooks.py:459-505 | a worker that runs alone sends each of the oldest open deliveries once, to the destination it is for, and touches no other row |
| WebhookAdmission.OperatorTells | backend/app/webhooks.py:893-903 | creating, configuring, deleting and clearing change one destination, in what they name |
| WebhookRuns.DeskAlwaysOk | backend/app/webhooks.py:459-467 | in every run with one worker, its batch names different pending deliveries with the attempts they still have |
| WebhookRuns.OutcomesAreFinal | backend/app/webhooks.py:484-506 | a delivered or failed delivery never changes, and no delivery changes its identity |
| WebhookRuns.NoiseBoundIff | backend/app/webhooks.py:186-199 | over every run, each destination and signal has at most one open delivery and consecutive ones differ in severity or are a window apart, if and only if no sweep routes two alerts of one signal to a destination |
| WebhookRuns.DistinctSweepsKeepNoiseBound | backend/app/webhooks.py:361-405 | when no sweep of a run holds two alerts of one signal, that bound holds throughout |
| WebhookRuns.OneSweepTwoOpen | backend/app/webhooks.py:380-397 | a run in which one sweep leaves two open deliveries for one signal |
| WebhookRuns.AttemptsAreBounded | backend/app/webhooks.py:489-505 | no delivery is attempted more often than the largest budget read, and an open one less often |
| WebhookHistory.CountIsEpisode | backend/app/webhooks.py:411-426 | the stored count is the length of the trailing run of sightings with gaps within the resolve window, with its first and last time |
| WebhookHistory.SeverityIsLast | backend/app/webhooks.py:411-426 | the stored severity of a signal is that of its last sighting |
| WebhookHistory.StreakIsHistory | backend/app/webhooks.py:509-526 | the stored failures are the terminal failures since the last success or clearing, and decide whether and how long the destination cools down |
| WebhookHistory.RedrivesAreBounded | backend/app/webhooks.py:530-565 | over every run, only a failed delivery has redrives, at most max(1, limit) of them and at most one open |
| WebhookHistory.RedriveVersusDeadLetter | backend/app/webhooks.py:593-601 | for each dead-letter state, when a redrive is scheduled |
| WebhookHistory.ResolvedCanBeRedriven | backend/app/webhooks.py:549-562 | an event list reaches a failed alert delivery whose redrive was delivered, and a further redrive of it is scheduled, whenever more than one is allowed |
| Readiness.IncidentTarget.InvalidateReadiness | backend/app/incident_sync.py:1342-1350 | all evidence goes |
| Readiness.IncidentTarget.Update | backend/app/incident_sync.py:992-1037 | the settings are applied in order, all or none: one bad url, unknown kind or unknown preset leaves the target as it was; an applied update drops the evidence exactly when url or secret changed |
| Readiness.UpdateTellsKind | backend/app/incident_sync.py:1003-1022 | the kind is the one that the last kind or preset among the settings calls for |
| Readiness.UpdateTells | backend/app/incident_sync.py:1003-1028 | a bad url, unknown kind or unknown preset leaves the target; any other list gives each field the last value named, and keeps the evidence exactly when url and secret are not new |
| Readiness.IncidentTarget.RotateSecret | backend/app/incident_sync.py:2271-2284 | a rotation stores the new secret, none for an empty one, and always drops the evidence |
| Readiness.IncidentTarget.Validate | backend/app/incident_sync.py:2130-2210 | a validation passes exactly when the target is sound and answers or cannot be probed, and stamps the success or the failure side accordingly |
| Readiness.IncidentTarget.FinishTest | backend/app/incident_sync.py:2246-2263 | a test stamps the success or failure side when its send returns |
| Readiness.EvidenceIsHistory | backend/app/incident_sync.py:2186-2206 | in every run the evidence columns are the last success and the last failure since url or secret changed |
| Readiness.ReadyIffBacked | backend/app/incident_sync.py:555-584 | a target reads ready if and only if it is enabled, configured, and some check since the last change succeeded, at most max(1, stale) old, with no failed check strictly later |
| Readiness.ConfigOkIff | backend/app/incident_sync.py:467-472 | a target is sound exactly when its url is http and its preset, if any, is one for its kind; it is probed when it is sound and not outbound-only |
| Readiness.ValidationLeaves | backend/app/incident_sync.py:2166-2199 | a validation stamps a success when the target is sound and answers or cannot be probed, and otherwise a failure with the probe's error, and leaves the other side |
| Readiness.TestLeaves | backend/app/incident_sync.py:2249-2259 | a test stamps the side of what its send returned, and leaves the other |
| Readiness.TestBeginsIff | backend/app/incident_sync.py:2219-2228 | a test is sent exactly for an enabled and sound target, with the url and secret that it then has |
| Readiness.VerdictIsHistory | backend/app/incident_sync.py:555-584 | in every run each of the eight verdicts is what the checks since the last change call for: unverified without any, a failure's verdict by the last check's error and kind when it is strictly later than every success, and otherwise ready or stale by age |
| Readiness.FailedValidationIsNotReady | backend/app/incident_sync.py:2169-2195 | a validation that fails never leaves a target ready, unless a check succeeded at the same moment |
| Readiness.NextCurrentIff | backend/app/incident_sync.py:2249-2259 | a session keeps the evidence about the present url and secret, unless it ends a test that used others |
| Readiness.EvidenceCurrentIff | backend/app/incident_sync.py:2221-2263 | the evidence is about the present url and secret throughout a run, if and only if no test ends in it with ones that have changed |
| Readiness.RotationDuringTest | backend/app/incident_sync.py:2271-2284 | a run that ends ready although nothing was sent with the new secret |
| IncidentTargets.DefaultProfile | backend/app/incident_sync.py:463-472 | the default preset of a kind is a preset for that kind |
| IncidentTargets.PolicyTells | backend/app/incident_sync.py:617-633 | an action is allowed exactly when the kind is able to do it and the target wants it: by its own word, or without one by not being an outbound action of the observe-only preset; a refusal names the first obstacle |
| IncidentTargets.DefaultAllowsAll | backend/app/incident_sync.py:463-472 | each kind's default preset allows all that the kind is able to do |
| IncidentSync.IncidentSyncService.Export | backend/app/incident_sync.py:1071-1094 | one record per enabled target that mirrors the action, made together, and then one attempt at each |
| IncidentSync.ExportAttemptsEachOnce | backend/app/incident_sync.py:1090-1092 | an export leaves every older record alone and attempts each new one exactly once, with the outcome of its own send |
| IncidentSyncAnswers.ExportTells | backend/app/incident_sync.py:1071-1088 | an export makes one pending record for each target that is there, switched on and subscribed to the action, and for no other |
| IncidentSyncAnswers.UnsentTells | backend/app/incident_sync.py:1115-1122 | a synced or missing record is left alone, and one whose target is gone fails unattempted |
| IncidentSyncAnswers.RefusedTells | backend/app/incident_sync.py:1137-1142 | a refused send counts an attempt and a failure of the target, and the record fails when the cap is reached |
| IncidentSyncAnswers.AcceptedTells | backend/app/incident_sync.py:1128-1166 | an accepted send ends the record and the target's streak, and the pair's link tells the action, the time and the last non-empty reference; no other link changes |
| IncidentSyncAnswers.RedriveTells | backend/app/incident_sync.py:1170-1192 | a redrive adds a fresh pending record of the same transition exactly for a failed record below the limit with no unfailed redrive |
| IncidentSyncAnswers.RelinkTells | backend/app/incident_sync.py:1722-1775 | a link is repaired exactly on a reference that the target's system can be asked for and does not deny, and then holds it with what was answered, attached again |
| IncidentSyncAnswers.DetachTells | backend/app/incident_sync.py:1701-1720 | detaching marks the link and changes nothing else |
| IncidentSync.IncidentSyncService.Attempt | backend/app/incident_sync.py:1113-1144 | one send: success links and clears the streak, failure counts and ends at the cap, a deleted target fails the record |
| IncidentSync.IncidentSyncService.Upsert | backend/app/incident_sync.py:1146-1166 | the link of the pair is added or refreshed, and keeps its reference when the new one is empty |
| IncidentSync.IncidentSyncService.Redrive | backend/app/incident_sync.py:1170-1195 | a failed record below its limit without an open redrive gets one, which is attempted at once |
| IncidentSync.IncidentSyncService.Relink | backend/app/incident_sync.py:1722-1775 | a link is repaired only when the adapter verified the reference |
| IncidentSync.IncidentSyncService.Detach | backend/app/incident_sync.py:1701-1720 | the link is kept and marked detached |
| IncidentSyncRuns.ExportIsRun | backend/app/incident_sync.py:1071-1094 | an export with nobody in between is a run of the session that makes its records and of one attempt at each |
| IncidentSyncRuns.LinkHoldsLastRef | backend/app/incident_sync.py:1146-1166 | in every run there is one link per incident and target, and it holds the last non-empty reference over successful sends and repairs |
| IncidentSyncRuns.RetriesAreBounded | backend/app/incident_sync.py:1128-1142 | in every run a pending record has been attempted less often than the cap |
| IncidentSyncRuns.RedrivesAreBounded | backend/app/incident_sync.py:1177-1192 | in every run a record has at most max(1, limit) redrives |
| IncidentSyncRuns.NextKeepsOneOpenIff | backend/app/incident_sync.py:1115-1142 | a session keeps at most one redrive unfailed, unless it attempts a failed redrive again beside an open one |
| IncidentSyncRuns.OneOpenRedriveIff | backend/app/incident_sync.py:1177-1192 | throughout a run at most one redrive of a record has not failed, if and only if no such attempt is made |
| IncidentSyncRuns.TwoOpenRedrives | backend/app/incident_sync.py:1096-1111 | a run with two unfailed redrives of one record |
| ApplyPreview.Primary | backend/app/incident_sync.py:1526 | the first link with the worst verdict |
| ApplyPreview.IncidentView.AvailableActions | backend/app/incident_sync.py:853-909 | the list of offers, each available exactly when its condition holds on the links |
| ApplyPreview.IncidentView.ApplyFromExternal | backend/app/incident_sync.py:1807-1877 | the gates in order; an accepted resolution recovers the incident if the recovery succeeds, an accepted absence detaches the link, every call leaves one line on the trail that tells its answer and its target, and nothing changes unless that line says it was done |
| ApplyPreview.PrimaryIsPicked | backend/app/incident_sync.py:1838-1841 | the link that the preview judges is the link that the application picks |
| ApplyPreview.PreviewIsExact | backend/app/incident_sync.py:889-898 | for all links, policies and local states, an application is offered if and only if it passes all its gates, on the same link |
| ApplyPreview.VerdictTells | backend/app/incident_sync.py:918-937 | each verdict on a link: detached, never linked, missing before drifted, drifted before stale, and refreshed when it was asked for |
| ApplyPreview.OfferedIff | backend/app/incident_sync.py:853-909 | accepting an absence is offered exactly when an active link misses its external incident, accepting a resolution when none does and the first drifted link is closed elsewhere |
| ApplyPreview.OffersTell | backend/app/incident_sync.py:853-909 | refresh, relink and each outbound action are on offer exactly when some link's target can be asked, or is able to do it and wants it |
| ApplyPreview.PassedIsPermitted | backend/app/incident_sync.py:1848-1853 | an application that passes is on an attached link whose own target is able to do it and wants it |
| ApplyPreview.ObserveOnlyIsNeverPushed | backend/app/incident_sync.py:441-448 | with observe-only targets alone no outbound action is ever allowed |
| ApplyPreview.AfterAcceptResolved | backend/app/incident_sync.py:1861-1877 | after an accepted resolution the link is no longer drifted |
| ApplyPreview.DriftedAfterRecovery | backend/app/incident_sync.py:918-937 | after a recovery, a link is drifted if and only if its external incident is there and reported open |
| ApplyPreview.AfterAcceptMissing | backend/app/incident_sync.py:1854-1860 | an accepted absence detaches exactly the link that was judged missing |
| PlanExecutor.BuildExecutablePlan | backend/app/plan_executor.py:182-225 | one write step per manifest file, in order, and then one validation |
| PlanExecutor.ContainsIff | backend/app/plan_executor.py:233-239 | the text check finds a part exactly when it stands at some position |
| PlanExecutor.GateIff | backend/app/plan_executor.py:231-240 | the gate lets a step through exactly when the registry allows it, no blocked text stands anywhere in its payload, and its path has no two dots in a row |
| PlanExecutor.GateStops | backend/app/plan_executor.py:328-339 | a step that may not run fails with nothing generated, written or called |
| PlanExecutor.Executor.Attempt | backend/app/plan_executor.py:381-403 | one generation, write and read-back |
| PlanExecutor.Executor.RunWriteStep | backend/app/plan_executor.py:369-408 | the loop makes one attempt and at most one repair, and reports the file only when an attempt was accepted |
| PlanExecutor.Executor.RunValidateStep | backend/app/plan_executor.py:411-439 | the loop reads every planned file back and collects those that do not pass |
| PlanExecutor.Executor.ExecutePlan | backend/app/plan_executor.py:308-366 | the step loop with its gate and statuses, ended by the first step that fails |
| PlanExecutor.WriteTells | backend/app/plan_executor.py:380-402 | a write step generates once or twice, touches no other file, reports a file only when it is left valid, and counts as repaired exactly when it took two generations |
| PlanExecutor.AttemptTells | backend/app/plan_executor.py:380-403 | an attempt writes what was generated to its file and no other; it is accepted exactly when the write reports success and the file can be read back and is valid, and raises exactly when nothing was generated |
| PlanExecutor.NothingMissingIff | backend/app/plan_executor.py:419-439 | nothing is missing exactly when every planned file can be read back and is valid |
| PlanExecutor.ValidationTells | backend/app/plan_executor.py:419-439 | nothing is missing only when every planned file is valid, and every invalid one is named |
| PlanExecutor.MissingInPlanOrder | backend/app/plan_executor.py:419-439 | the missing files are named in the order of the plan |
| PlanExecutor.FailureHasCause | backend/app/plan_executor.py:328-356 | a step that may run fails only after two generations or one that raised, for a planned file that did not pass, or when its tool failed |
| PlanExecutor.CompletedMeansDone | backend/app/plan_executor.py:360-366 | completed means that every step was allowed, harmless and done, and that the reported files are the planned ones |
| PlanExecutor.CompletedMeansValid | backend/app/plan_executor.py:193-225 | a built plan completes only with every planned path valid in the final files, for any generator and any tool outcomes |
| PlanExecutor.IncompleteStops | backend/app/plan_executor.py:352-366 | an execution that does not complete stopped at one failed step and ran none after it, or had no file to write |
| PlanExecutor.TwoGenerationsEach | backend/app/plan_executor.py:380-405 | at most two generations per write step |
| RuntimeValidation.RuntimeValidator.ExecuteCommand | backend/app/plan_executor.py:639-688 | the attempts at one command: a run, and after a repair one more |
| RuntimeValidation.RuntimeValidator.RunStartupStep | backend/app/plan_executor.py:758-811 | the startup probe, and after a repair one more |
| RuntimeValidation.RuntimeValidator.ExecuteRuntimeValidation | backend/app/plan_executor.py:611-690 | the actions in order, ended by the first that fails |
| RuntimeValidation.AtMostTwoRuns | backend/app/plan_executor.py:639-688 | no command runs more than twice for one action |
| RuntimeValidation.CompletedMeansRan | backend/app/plan_executor.py:611-690 | completed means that the last run of every command succeeded |
| RuntimeValidation.CompletedIff | backend/app/plan_executor.py:611-690 | a validation completes if and only if every action is allowed and passes at once, or its failure points to a file that is generated and written and its second attempt succeeds |
| RuntimeValidation.RewrittenIff | backend/app/plan_executor.py:645-688 | in a completed validation a file is rewritten for exactly the actions that fail at first |
| RuntimeValidation.FinalFilesIff | backend/app/plan_executor.py:679-690 | of a completed validation, a command's last success is about the final files if and only if every later action passes at its first run or probe |
| RuntimeValidation.CompletedOnOldFiles | backend/app/plan_executor.py:679-690 | a completed validation whose first command never saw the final files |

## Left out

- ExecutionQueue.ExecutionQueueService.RunOnce: the method is one worker with at most one cancel before and one during the handler; any number of cancels, and other workers, are in `QueueProtocol`.
- ExecutionQueue.ExecutionQueueService.Enqueue: session, title, run id, progress and timestamps other than creation are not kept; nothing decides on them.
- QueueProtocol.StepKeepsInv: a handler's own marks are limited to running, validating, repairing and awaiting approval, the statuses that handlers use; a worker that crashes in the middle of a job is not a step.
- JobTable.PickQueued: rows of equal priority and creation time are taken in insertion order.
- QueueAtomic.CapsHold: counts interruptible rows, as the program does; a job whose cancel is pending still occupies its worker but is not counted.
- Approvals.ExactlyOnceApproval: the workspace permission check is an input, and the cap on pending flows is not modelled.
- Approvals.QuotaUnderRaces: a purge of usage records younger than the quota's window is not a step of a run; what it would remove, the count would miss.
- Incidents.IncidentWorkflowService.Operate: notes and handles arrive trimmed; actor, detail and assignment time are not kept.
- Incidents.IncidentWorkflowService.RecoverStale: incidents are visited in table order; the query fixes none.
- Webhooks.DeliveryService.RouteAlertsDetailed: all rows of one sweep share one creation time, not before the sweep's clock; a destination's filter is a set, not comma-separated text.
- WebhookRuns.NoiseBoundIff: speaks of alert deliveries with one worker; redrives carry no dedup key in the program and are bounded separately, and deliveries of observability events are not modelled.
- WebhookHistory.StreakIsHistory: a deleted destination has no streak, and its id is never used again.
- Readiness.IncidentTarget.Update: name, actions and overrides of a target are one setting without effect on readiness; the audit line of a change is not kept.
- Readiness.ReadyIffBacked: which error texts read like refused credentials is an input; a change of kind or preset keeps the evidence, as in the program.
- IncidentSync.IncidentSyncService.Attempt: signing, payload shaping and response parsing are inputs; the send and the booking are one session, as in the program.
- IncidentSyncRuns.OneOpenRedriveIff: records made by pushes are any pending records; which targets a push selects is not modelled.
- ApplyPreview.PreviewIsExact: preview and application see the same state; the program reads it afresh for each. No agreement is claimed for pushes, which check the adapter only.
- PlanExecutor.Executor.ExecutePlan: a successful read returns what is stored; what makes content well-formed, the tool registry and the list of blocked patterns are inputs; the listing of the project directory decides nothing.
- RuntimeValidation.RuntimeValidator.ExecuteCommand: how a failure is classified and mapped to a file is an input; only whether a file was found matters.
- Cleaning up all tables, counting pending flows, previews of routing, and all read views are projections or test helpers.
- HTTP, signing, subprocesses, model output, planning agents and the user interface are outside.
- Races inside one session are outside, except for the two guarded updates, which are split into read and update.
