# Agent runtime: verified protocol model

This project models the agent runtime's shared state and proves what holds of it in every state that any
interleaving of its actors can reach. Three parts are connected.

**The Run lifecycle.** API, workers, dispatcher and reconciler share one database of Runs. Each service method is one
transaction that commits or rolls back whole (`Lifecycle.dfy`); conditional updates take the snapshot they were
computed from as a parameter, so that stale snapshots are among the runs considered. `LifecycleSafety.dfy` and
`LifecycleTheorems.dfy` prove the joint invariant of a Run and what follows over every sequence of steps.
`Services.dfy`, `ReconcilerService.dfy` and `RunQueue.dfy` are the services as they work, field by field on a shared
session, and each method is proved to do exactly its transaction; `LifecycleLaws.dfy` says what a transaction makes the
next ones do. `Reconciliation.dfy` is what the reconciler decides and why its passes stop, `ReconcilerEffects.dfy` one
table of what a whole pass does to each Run, `ReconcilerRaises.dfy` exactly when a pass raises. `Callbacks.dfy` proves
that callbacks tell the truth, `Waiting.dfy` reads off them whether a Run waits for a person. `QueueLimits.dfy` and
`Strandings.dfy` reach, from the empty database on, the states in which expected properties fail.

**Model calls.** `Permits.dfy` is the permit script over its tables, `PermitTheorems.dfy`, `PermitRefusals.dfy`,
`CircuitTheorems.dfy` and `WindowBoundary.dfy` what every history of script calls keeps, why it refuses, and where that
ends, `PermitScript.dfy` the script's loops. `ModelUsage.dfy`, `Budget.dfy`, `BudgetTheorems.dfy`, `Pricing.dfy`,
`TokenLaw.dfy` and `PolicyEngine.dfy` are the usage ledger, what calls cost, and the reservation that reads, checks and
commits against a version. `Gateway.dfy` and `GatewayService.dfy` thread one try of a route through both ledgers while
others work on them between any two statements, `RouteLoop.dfy` and `GatewayCall.dfy` the whole call over its routes.

**Plan execution.** `Executor.dfy` is the node loop, `BoundedLoop.dfy` the bounded loop with its inherited budget and
keyed de-duplication. `ReconcilerLease.dfy` is the lease that keeps two reconcilers apart, `ReconcilerRunner.dfy` the
process that scans only while it can renew it.

## Assumptions

- A service method is one atomic transaction that sees its own writes; the database clock does not go back; ids
  (runs, events, usage rows, permits) are fresh. Times are whole microseconds in the lifecycle and reals in the permit
  script; money is a real.
- The rows of one Run (callback log, outbox rows, dispatch events, checkpoints, artifacts and the lease contexts handed
  to workers) are grouped in a `Record`. A heartbeat changes the context it renews, so contexts are kept by token.
- The order in which a scan reads Runs, what the authorization resolver answers, what the runner and the provider do,
  and every authority check are parameters, quantified over in each statement.
- The permit ledger is that of one rate-limit key; a Redis key with a time to live is kept with the moment it vanishes.

## What the proofs turned up

- A retry does not look at an earlier cancel request. It queues a Run that no worker can claim exactly when there is
  one (`RetryStrands`). A cancel on a failed Run is how to get there, and such a state is reachable under every API
  limit that admits anything (`StrandingReachable`).
- The API admits under its own limits, the reaper and the reconciler under the defaults. The API's queue limit holds
  in every reachable state if and only if it admits nothing at all or is no lower than the default (`ApiLimitExact`).
- A repair raises, and the pass is then rolled back whole, if and only if it would queue a Run where a default queue
  is full (`VisitRaises`, `SweepRaisesExactly`, `PassRaisesExactly`). Some pass over some reachable state raises if and
  only if the API admits anything to the queue (`RaisingExact`), and then there is a state in which every pass that
  gets to one Run does (`PassStuck`); no pass does while no more Runs are live than such a queue holds
  (`PassCannotRaise`).
- A Run taken back from a lapsed lease is failed in the same pass, whatever its new dispatch, if any dispatch event it
  ever had is a dead letter; one that had waited for a person is spared (`PassExact`).
- A worker reads the Run's status before it claims. With other transactions in between it can start over a Run that
  waited for a person (`StalePending`) or resume one that was retried (`StaleWaiting`). It chooses wrongly exactly when
  the last event since the read that is not about a step says so: a Run read as pending was parked, one read as waiting
  was parked no longer (`Consume`, from `WaitingIsMarked`).
- A heartbeat does not look at the package: under a revoked one it succeeds while the write gate refuses
  (`HeartbeatIsWriteGate`).
- The rate limits hold for windows open at their left end. A permit leaves the table at exactly sixty seconds, so a
  minute closed at both ends can be overfull: a closed window meets the rate under every history if and only if it is
  shorter than sixty seconds, whatever the rate (`ClosedWindowExact`).
- The usage ledger accepts measured tokens with any outcome. The token limit holds, up to what single calls measured
  beyond their own reservation, if and only if no settlement as unknown may report them, or the policy leaves no room
  for two calls (`TokenLawExact`); otherwise one run charges twice the limit (`OverdraftBreaks`). The gateway reports
  tokens only with successes.
- The reconciler that inserts the lease row reads its token after the commit, when a successor may already have the
  lease. Such a token never renews or releases anything, because the owner is tested too (`LateReadHarmless`).
- A permit whose hash has vanished is recreated without its route by the next reaping, so its settlement answers
  `route_mismatch`, exactly then (`VanishedMismatches`); the slot is released all the same (`SettleReleases`), and the
  gateway then reports an unknown outcome.
- A worker that reports a terminal result keeps its hold on the Run exactly when its lease, the deadline, the
  authorization or the package is over while nobody cancelled or purged (`WorkerLetsGo`); the reaper ends those.
- An iteration that raises leaves its batch unmerged when the loop then ends on its budget (`DuplicateStays`). The
  list is the merge up to the last report followed by the raw batches since (`ListedExact`), and its keys are distinct
  exactly when those bring none twice and none that was there (`ListedDistinct`); a complete loop has none
  (`RunBoundedLoopNode`).
- The recount of the admission buckets rewrites rows and creates none. From whatever counts it restores the whole
  ledger exactly when no Run counts under a scope without a row (`RecountHeals`).

## Model

| member | source | states |
|---|---|---|
| LifecycleTheorems.AdmissionExact | app/services/admission_service.py:34-92 | In every reachable state each scope's held, queued and running counts are the recount of Runs by dispatch state, and none exceeds the limit it is admitted under |
| LifecycleTheorems.AdmissionByScope | app/services/admission_service.py:34-53 | The four buckets a Run counts under are those of all Runs, its caller, its tenant and its agent, each the count of exactly those Runs |
| LifecycleTheorems.AdmissionTold | app/services/admission_service.py:54-92 | Every transaction tells admission the dispatch state the Run is really in, and the counter it leaves is at least one, so the clamp at zero never fires |
| Admission.MoveEachIsTransition | app/services/admission_service.py:34-95 | Moving the four scopes one after another, rolled back at the first full one, equals moving them all at once or not at all, also when scopes coincide |
| Admission.TransitionKeepsCounts | app/services/admission_service.py:34-92 | A committed move keeps every bucket equal to the recount |
| Admission.TransitionKeepsCaps | app/services/admission_service.py:70-92 | A committed move keeps every counter within its limits |
| LifecycleSafety.ActSafe | app/services/lease_service.py:27-323 | Every transaction of every service keeps the joint invariant of its Run and only moves it forward: versions, tokens, log, cancellation, privacy and the fence |
| LifecycleTheorems.ExecuteSafe | app/models/runtime.py:65-138 | Any sequence of steps keeps the whole database consistent and each Run evolving |
| LifecycleTheorems.StatesAgree | app/services/lease_service.py:30-46 | Held means pending; queued means pending or waiting for a person; claimed exactly when a lease owner is set; finished means terminal or waiting for a person, and terminal means finished |
| LifecycleTheorems.OneWriter | app/services/lease_service.py:99-126 | At most one issued lease context passes the write gate at any moment, and it is the latest |
| LifecycleTheorems.FencedForever | app/services/lease_service.py:99-126 | A context refused for any reason other than its package is refused in every later state |
| LifecycleTheorems.TokenDecidesAttempt | app/services/lease_service.py:48-66 | Equal fencing tokens mean equal execution attempts, so the write gate may leave the attempt out |
| LifecycleTheorems.HeartbeatIsWriteGate | app/services/lease_service.py:69-126 | A lease can be renewed exactly while its holder passes every test of the write gate but the package one, which a heartbeat leaves out, and then passes them until the new expiry or the deadline, exactly |
| LifecycleTheorems.QueuedIsClaimable | app/services/lease_service.py:27-46 | A queued Run can be claimed if and only if nobody asked to cancel it |
| LifecycleTheorems.RetryStrands | app/services/agent_run_service.py:379-418 | A retry leaves a Run that can be claimed if and only if no cancel was requested before it |
| RunQueue.CancelledFailureStrands | app/services/agent_run_service.py:263-288 | On every failed and retryable Run a cancel leaves it so, and the retry queues it unclaimable |
| Strandings.StrandingReachable | app/services/agent_run_service.py:263-418 | Under every API limit that admits anything, a state is reachable in which a retry commits on a Run with a cancel request |
| LifecycleTheorems.TerminalConservation | app/services/outbox_service.py:33-110 | Terminal callbacks ever appended number the manual retries plus one if the Run is terminal now, at most four |
| LifecycleTheorems.SealedForever | app/services/agent_run_service.py:395-411 | Succeeded and cancelled are never left and get no further terminal callback |
| LifecycleTheorems.LogExact | app/services/outbox_service.py:37-96 | The callback log is numbered 1 to last_event_seq in version order and only appended to; a status never changes without a new version |
| LifecycleTheorems.OutboxDeliverable | app/services/callback_service.py:47-118 | Every callback outbox row names exactly one event, of its own Run and target, that the delivery check accepts |
| LifecycleTheorems.PurgeBarrier | app/runtime/checkpoint.py:65-113 | Once privacy leaves active no checkpoint or artifact is ever added, by however late a worker |
| LifecycleTheorems.PurgedForever | app/services/agent_run_service.py:317-377 | After a completed purge the Run has no checkpoint, no input and only emptied artifacts, in every later state |
| Callbacks.CallbacksTrue | app/services/outbox_service.py:37-110 | In every reachable state each event names the way of ending its payload shows, if any, and the last such event of an ended Run shows the status the Run is in |
| LifecycleLaws.ClaimGivesWrite | app/services/lease_service.py:27-67 | A claim hands out one new context, which may write for as long as was asked, deadline and privacy permitting, and no other may |
| LifecycleLaws.DrainFrees | app/services/lease_service.py:175-184 | A drained lease is over at once and the reaper's from the next moment |
| LifecycleLaws.FinishEnds | app/services/lease_service.py:146-173 | Exactly the holder of the write gate ends its Run, in the terminal status it reports, with the callback of that status |
| LifecycleLaws.InvalidEnds | app/services/lease_service.py:186-213 | Exactly the current holder of a Run asked to stop or no longer private ends it as cancelled |
| LifecycleLaws.PauseWaits | app/services/lease_service.py:215-237 | A paused Run closes its gate and is left alone by the reconciler for exactly as long as was asked |
| LifecycleLaws.GuardOnce | app/runtime/policy_engine.py:132-158 | Of two reservations guarded by the same version at most one commits |
| LifecycleLaws.CheckpointKept | app/runtime/checkpoint.py:65-113 | A checkpoint is kept under its key until the deadline, and is what a retry asks for |
| LifecycleLaws.StopCloses | app/services/reconciliation_service.py:493-528 | Asking a claimed Run to stop closes its gate for good |
| LifecycleLaws.CreateWaits | app/services/agent_run_service.py:63-175 | A valid request is accepted; held, the Run can be started for ten minutes, after which the reconciler cancels it, and fails it after a day |
| LifecycleLaws.StartOnce | app/services/agent_run_service.py:177-210 | Only its authorized caller starts a held Run, into the queue, claimable and dispatched; a second start changes nothing |
| LifecycleLaws.CancelEnds | app/services/agent_run_service.py:263-288 | Its caller's cancel ends a Run nobody holds and otherwise closes the gate, leaving the holder nothing but to end it as cancelled |
| LifecycleLaws.PurgeCloses | app/services/agent_run_service.py:290-377 | A purge closes the gate, bars start and retry, and completes with nothing private left |
| LifecycleLaws.RetryThrice | app/services/agent_run_service.py:379-418 | A failed Run, or one partial for optional steps only, is retried into the queue at most three times, and only with a checkpoint |
| LifecycleLaws.ApprovalDecides | app/services/agent_run_service.py:477-541 | An answer on the waiting version queues the Run to be resumed or fails it; a late or foreign one is refused |
| Services.AdmissionService.TransitionRun | app/services/admission_service.py:34-95 | The loop over four scopes commits the all-at-once move or leaves every bucket as it was |
| Services.LeaseService.Claim | app/services/lease_service.py:27-67 | Does exactly the claim transaction, context and rollback included |
| Services.LeaseService.Heartbeat | app/services/lease_service.py:69-97 | Does exactly the heartbeat transaction, renewing row and context together |
| Services.LeaseService.Finish | app/services/lease_service.py:146-173 | Does exactly the finish transaction, only through the write gate |
| Services.LeaseService.ReleaseForDrain | app/services/lease_service.py:175-184 | Does exactly the drain transaction |
| Services.LeaseService.FinishAfterInvalidBoundary | app/services/lease_service.py:186-213 | Does exactly the invalid-boundary transaction |
| Services.LeaseService.PauseForHuman | app/services/lease_service.py:215-237 | Does exactly the pause transaction |
| Services.AgentRunService.Create | app/services/agent_run_service.py:63-175 | Does exactly the create transaction, admitted or rolled back |
| Services.AgentRunService.Start | app/services/agent_run_service.py:177-210 | Does exactly the start transaction |
| Services.AgentRunService.Cancel | app/services/agent_run_service.py:263-288 | Does exactly the cancel transaction |
| Services.AgentRunService.Purge | app/services/agent_run_service.py:290-315 | Does exactly the purge request |
| Services.AgentRunService.CompletePurge | app/services/agent_run_service.py:317-377 | Does exactly the purge completion |
| Services.AgentRunService.Retry | app/services/agent_run_service.py:379-418 | Does exactly the retry transaction |
| Services.AgentRunService.Approve | app/services/agent_run_service.py:477-541 | Does exactly the approval or rejection transaction |
| Services.OutboxService.AppendCallbackEvent | app/services/outbox_service.py:37-96 | Takes the next sequence number and appends event and outbox row together |
| Services.NodeStore.SaveCheckpoint | app/runtime/checkpoint.py:65-113 | Writes a checkpoint only through the write gate |
| Services.NodeStore.SaveNodeResult | app/runtime/artifact.py:30-70 | Appends an artifact only through the write gate |
| RunQueue.WorkerLetsGo | app/services/run_queue_service.py:46-53 | After reporting a terminal result the worker is off the Run, unless exactly the reaper's cases apply |
| RunQueue.RunQueueService.Consume | app/services/run_queue_service.py:29-63 | Reads the status, claims, lets anything happen in between and after, reports: stays within the protocol's runs; resumes by the status read, wrongly exactly when the last event since that is not about a step parked a Run read as pending or unparked one read as waiting, and never at an unmoved version; leaves no hold but the reaper's cases |
| Waiting.WaitingIsMarked | app/services/lease_service.py:215-237 | In every reachable state a Run waits for a person exactly when the last event of its log that is not about a step says so |
| Waiting.WaitingSince | app/services/outbox_service.py:37-96 | Over any steps, whether a Run waits afterwards is decided by the events appended since and whether it waited before |
| Strandings.StalePending | app/services/run_queue_service.py:34-45 | A Run read as pending can have waited for a person by the time it can be claimed |
| Strandings.StaleWaiting | app/services/run_queue_service.py:34-45 | A Run read as waiting for a person can have been rejected and retried by the time it can be claimed |
| Reconciliation.RecountFindsNothing | app/services/reconciliation_service.py:290-347 | The recount changes nothing when counts agree, as they do in every reachable state |
| Reconciliation.RecountHeals | app/services/reconciliation_service.py:290-347 | From whatever counts the recount restores the whole ledger if and only if no Run counts under a scope without a row, since it creates none |
| Reconciliation.DecisionLowers | app/services/reconciliation_service.py:355-724 | Every repair the reconciler decides on commits and strictly lowers the Run's rank |
| Reconciliation.PassProgress | app/services/reconciliation_service.py:99-242 | A pass changes nothing, and then had nothing to do for any Run, or lowers the total rank |
| ReconcilerEffects.PassExact | app/services/reconciliation_service.py:99-724 | A pass does to each listed Run what one table over its fields says: nothing, asked to stop, dispatched again, back to the queue, or ended as failed or cancelled with its callback, and emptied if its purge was due |
| ReconcilerEffects.UntouchedExactly | app/services/reconciliation_service.py:138-242 | A pass leaves a listed Run as it was if and only if the Run is in order |
| Reconciliation.Quiesces | app/services/reconciliation_service.py:99-242 | At a standing clock with no other actor, at most rank many passes change anything, and then none ever does |
| Reconciliation.RankBound | app/services/reconciliation_service.py:138-210 | The rank is at most sixteen for each Run |
| ReconcilerEffects.RestMeansDone | app/services/reconciliation_service.py:138-210 | At rest every listed Run is in order, written out on its own fields: lease not lapsed, no purge due, in time and allowed or already asked to stop, not held, queued or parked too long, and queued only with a dispatch on its way |
| Reconciliation.PassCannotRaise | app/services/reconciliation_service.py:700-724 | No pass raises while no more Runs are live than a default queue holds |
| Reconciliation.ReconcilerFinishes | app/services/reconciliation_service.py:99-242 | Under that bound the passes end in a state where a further pass finds nothing to do |
| ReconcilerEffects.AllInOrder | app/services/reconciliation_service.py:99-242 | Under that bound, after at most rank many passes every listed Run is in order |
| ReconcilerRaises.VisitRaises | app/services/lease_service.py:285-317 | A visit raises if and only if it would queue the Run while one of its scopes has a full default queue |
| ReconcilerRaises.SweepRaisesExactly | app/services/reconciliation_service.py:700-724 | A sweep raises if and only if, reckoned from the state before it, some Run is to be queued where those before it leave a full queue |
| ReconcilerRaises.PassRaisesExactly | app/services/reconciliation_service.py:99-242 | A pass raises if and only if, both reckoned from the state before it, some lapsed Run is to be queued where those before it leave a full queue, or, with all lapsed Runs taken back, some Run that waited too long is |
| QueueLimits.RaisingExact | app/services/reconciliation_service.py:99-242 | Some pass over some reachable state raises if and only if the API admits anything to the queue |
| QueueLimits.PassStuck | app/services/reconciliation_service.py:99-242 | Under every such API limit a state is reachable in which every pass that gets to one Run raises, whatever the order and the authorizations read |
| QueueLimits.ApiLimitExact | app/services/admission_service.py:70-92 | The API's queue limit holds in every reachable state if and only if it admits nothing or is no lower than the default |
| ReconcilerService.ReconciliationService.RunOnce | app/services/reconciliation_service.py:99-242 | Does exactly one pass, after which every Run is as the table says; a failed guard or a raise at any point leaves Runs, outbox and buckets unchanged |
| ReconcilerService.ReconciliationService.ExpectedCounts | app/services/reconciliation_service.py:290-321 | The counting loop yields exact counts for every scope |
| ReconcilerService.ReconciliationService.ReconcileAdmissionBuckets | app/services/reconciliation_service.py:290-347 | Rewrites exactly the buckets that differ from the recount |
| ReconcilerService.ReconciliationService.Terminate | app/services/reconciliation_service.py:670-698 | Does exactly the terminate transaction on its snapshot |
| ReconcilerService.ReconciliationService.RequeueTimeoutFallback | app/services/reconciliation_service.py:700-724 | Does exactly the fallback requeue, or raises |
| ReconcilerService.ReconciliationService.ReapRun | app/services/lease_service.py:239-323 | Does exactly the reap of one expired lease, or raises |
| ReconcilerLease.TokensIncrease | app/services/reconciliation_lease_service.py:31-94 | Over any operations by any instances, at any clocks, acquisitions get strictly rising tokens |
| ReconcilerLease.StaleForever | app/services/reconciliation_lease_service.py:96-129 | A holder whose lease was taken over can neither renew nor release it in any later state |
| ReconcilerLease.OneHolder | app/services/reconciliation_lease_service.py:31-112 | After any operations, only the last acquirer can renew, under the token it got, so at most one pair of owner and token can |
| ReconcilerLease.Exclusive | app/services/reconciliation_lease_service.py:31-112 | Until a lease expires it stays with its owner and token, whatever others try |
| ReconcilerLease.RenewedOrTaken | app/services/reconciliation_lease_service.py:31-112 | At every moment either the holder can renew or anyone can take the lease over |
| ReconcilerLease.LeaseLasts | app/services/reconciliation_lease_service.py:31-129 | A lease taken or renewed lasts its whole time and no longer, one given back is free at once |
| ReconcilerLease.ReconciliationLeaseService.Acquire | app/services/reconciliation_lease_service.py:31-94 | Takes an expired lease and reads its token at once; else, after whatever others did, inserts the row or takes it on a second try, and reads the token after whatever they did since the commit |
| ReconcilerLease.ReconciliationLeaseService.Renew | app/services/reconciliation_lease_service.py:96-112 | Renews exactly for the current owner, token and unexpired row |
| ReconcilerLease.ReconciliationLeaseService.Release | app/services/reconciliation_lease_service.py:114-129 | Releases exactly for the current owner and token |
| ReconcilerLease.LateReadHarmless | app/services/reconciliation_lease_service.py:56-129 | A token read late neither renews nor releases in any later state, unless the reader itself held the lease when it was read |
| ReconcilerRunner.Runner.RunOnce | app/reconciler.py:82-160 | A scan is committed only if every renewal on its way succeeded and is otherwise without trace; the lease is given back only if still its own |
| ReconcilerRunner.LostForGood | app/reconciler.py:96-113 | Once the lease has a newer token no later renewal of the scan succeeds |
| PermitTheorems.WindowQuota | app/runtime/model_gateway.py:1218-1267 | Over every history and every sixty seconds, the permits granted in them that were ever sent meet the request and token limits of the last of them, under any mix of limits |
| PermitTheorems.UniformWindowQuota | app/runtime/model_gateway.py:1233-1267 | With one configuration per key that is the configured rate |
| WindowBoundary.ClosedWindowExact | app/runtime/model_gateway.py:1251-1254 | For every rate, a window closed at both ends meets it under every history if and only if it is shorter than sixty seconds |
| PermitTheorems.TablesAgree | app/runtime/model_gateway.py:1215-1267 | The request, token and amount tables always hold the same permits, and a permit was started only before its time to live ended |
| PermitTheorems.ConcurrencyHolds | app/runtime/model_gateway.py:1249-1263 | The active set never exceeds the greatest concurrency limit in use |
| PermitRefusals.RefusedForCause | app/runtime/model_gateway.py:1218-1258 | A refusal for concurrency is backed by that many unexpired permits; one for requests or tokens by permits of the last minute that were started, settled or have not expired (or were granted with a negative time to live): an expired permit that was never sent backs none |
| PermitRefusals.BlockedExactly | app/runtime/model_gateway.py:1247-1321 | A new permit is refused for the cooldown only while a wait some first settlement asked for is not over, and then always unless the circuit refuses it first |
| PermitRefusals.ForeignRoute | app/runtime/model_gateway.py:1242-1311 | A permit is neither acquired, started nor settled under another route |
| PermitRefusals.AskedAgain | app/runtime/model_gateway.py:1242-1308 | Asked for again a permit is counted once and answers its state; started again only the first start counts |
| PermitTheorems.SettledOnce | app/runtime/model_gateway.py:1309-1323 | After a first settlement, and whatever calls in between, a second one changes neither the permit, its rows nor the cooldown |
| PermitTheorems.CooldownHolds | app/runtime/model_gateway.py:1247-1322 | After a first settlement asking for a wait, no permit is granted before it is over, whatever else happens |
| PermitTheorems.CooldownKept | app/runtime/model_gateway.py:1317-1321 | The shared cooldown never moves backwards |
| PermitTheorems.ReplayKeeps | app/runtime/model_gateway.py:1215-1323 | Every permitted sequence of calls keeps the ledger's invariant |
| CircuitTheorems.CircuitTrips | app/runtime/model_gateway.py:1268-1299 | As many failures in a row as the threshold open a route's circuit, and until the open time after the last one every acquisition that heeds circuits is turned away unchanged |
| CircuitTheorems.CircuitRefusedForCause | app/runtime/model_gateway.py:1268-1299 | Over every history a circuit refusal means at least as many failures since the route's last success as the threshold, the one that opened it less than the open time ago |
| PermitScript.Script.ReapExpiredPermits | app/runtime/model_gateway.py:1218-1232 | The loop over expired permits, in any order, reaps exactly them and gives back the window rows of those never sent |
| PermitScript.Script.Acquire | app/runtime/model_gateway.py:1233-1267 | The acquire branch with its sliding and summing loops is exactly the specified acquisition |
| PermitScript.Script.MarkStarted | app/runtime/model_gateway.py:1300-1308 | The started branch is exactly the specified start |
| PermitScript.Script.Settle | app/runtime/model_gateway.py:1309-1323 | The settle branch is exactly the specified settlement |
| PermitScript.Script.TokensUsed | app/runtime/model_gateway.py:1256-1257 | The summing loop yields the total of the amounts in the window |
| BudgetTheorems.BudgetHolds | app/runtime/policy_engine.py:118-243 | Under any interleaving of any number of reservers, cancellations, settlements and lifecycle steps: rows within max_model_calls, live attempts distinct, tokens and cost within their limits up to what single calls measured beyond their own reservation |
| Pricing.CostLaw | app/runtime/policy_engine.py:208-243 | With every call at the prices of its own route, the charges by asked and counted tokens stay below max_model_cost but for what single calls used beyond the tokens they asked for |
| Pricing.ChargedByTokens | app/services/model_usage_service.py:176-236 | Over every such run each row costs exactly a thousandth of its prices for the tokens counted, or asked for, or nothing if it was never sent |
| Pricing.DearerByToken | app/services/model_usage_service.py:195-201 | One more input token raises a measured success by a thousandth of the input price, one more output token by a thousandth of the output price |
| Pricing.ExactUse | app/runtime/policy_engine.py:159 | A success that used exactly what it asked for costs what it reserved |
| Pricing.CountedByToken | app/runtime/policy_engine.py:208-243 | Each reported token counts one, unreported ones as asked for, and a call never sent none |
| Pricing.AdmittedExactly | app/runtime/policy_engine.py:208-243 | Each budget test passes if and only if the rows with the new reservation still meet its limit |
| BudgetTheorems.SequentialTokens | app/runtime/policy_engine.py:208-243 | With one attempt in flight and no late recovery, tokens exceed the limit by at most the last attempt's own overrun |
| BudgetTheorems.ReserveIsFiveSteps | app/runtime/policy_engine.py:118-206 | An undisturbed reservation is the five steps of the interleaved one |
| BudgetTheorems.CommitDistinct | app/runtime/policy_engine.py:162-173 | The number a new attempt gets differs from every live attempt of its step |
| BudgetTheorems.NextIsLeast | app/runtime/policy_engine.py:160-173 | It is the least number past every attempt of the step and not below the one asked for |
| BudgetTheorems.RowStepLightens | app/services/model_usage_service.py:97-259 | Activation, start, cancellation, settlement and giving up never add a row or raise what it keeps of its reservation |
| TokenLaw.TokenLawExact | app/services/model_usage_service.py:176-236 | Under a token limit no run overdraws it beyond the calls' own overruns if and only if settlements as unknown may not report measured tokens, or the policy leaves no room for two calls |
| TokenLaw.OverdraftBreaks | app/runtime/policy_engine.py:208-243 | Otherwise, for every such limit, one run from the empty ledger charges twice the limit with no call over its reservation |
| PolicyEngine.Engine.Reserve | app/runtime/policy_engine.py:118-206 | With others at work before each statement, at most two tries that are a run of the budget machine; an allowed one leaves a new row for exactly what was asked; a denial names a limit that is reached, a test that failed or two races lost to a newer version, and adds no row; undisturbed, it is allowed if and only if all three limits admit it |
| PolicyEngine.Engine.EvaluateBudget | app/runtime/policy_engine.py:208-243 | The three limits in turn, each on the rows of its own moment |
| PolicyEngine.Engine.CommitReservation | app/runtime/policy_engine.py:132-204 | The conditional update commits exactly at the version read |
| PolicyEngine.Engine.PreviousAttempt | app/runtime/policy_engine.py:162-169 | Finds the highest attempt number of the step, or that it has none |
| ModelUsage.ModelUsageService.Settle | app/services/model_usage_service.py:176-236 | Settles calls in flight, and unknown ones only for the provider request they belong to |
| ModelUsage.SettleExactly | app/services/model_usage_service.py:176-236 | Which settlements count: well-formed ones of calls in flight, and of unknown ones successes and failures that name the recorded provider request; all others change nothing |
| ModelUsage.SettledForGood | app/services/model_usage_service.py:202-236 | A call settled as anything but unknown never changes again |
| ModelUsage.AttemptLife | app/services/model_usage_service.py:97-175 | A reservation is activated once and started once, and cancelled only before that |
| ModelUsage.GivenUpExactly | app/services/model_usage_service.py:238-259 | A call in flight is given up if and only if its deadline is past, at its reserved cost |
| ModelUsage.ModelUsageService.MarkExpiredRunningUnknown | app/services/model_usage_service.py:238-259 | Gives up exactly the calls in flight past their deadline, keeps their reserved cost, and counts them |
| GatewayService.ModelGateway.SendActivatedAttempt | app/runtime/model_gateway.py:958-1022 | The provider is called only with both ledgers marked started and the last authority check passed; on every exit both are settled; nothing sent is settled free of charge; a success is delivered only if fully on record; while no deadline or expiry intervenes it is sent if and only if every check passes, answered as judged, settled as reported, and a rate-limit answer closes the key for the wait it asks for; and the route's circuit has one more failure, is reset or is as it was, by what was answered |
| GatewayService.SettledAsAnswered | app/runtime/model_gateway.py:984-1011 | Answer by answer, what the caller is told and how the row is settled, with its tokens, cost and request identity |
| GatewayService.RateLimitHolds | app/runtime/model_gateway.py:988-1055 | After a rate-limit answer no permit of the key is granted before its wait is over, whatever calls come in between |
| GatewayService.ModelGateway.SettleActivatedAttempt | app/runtime/model_gateway.py:1024-1065 | Both ledgers are settled whatever the other answers; a confirmed success is on the row as reported |
| GatewayService.ModelGateway.BeginSend | app/runtime/model_gateway.py:972-981 | Leave to send means three passed authority checks and both marks made by this attempt |
| GatewayService.ModelGateway.CallRoute | app/runtime/model_gateway.py:820-930 | The provider is called only on a governed route, with a reservation the policy engine committed and just authorized; the whole try is a run of the budget machine; no reservation and no permit is left behind on any path; each refusal, and each abort before sending, has its own cause, a refused permit exactly the answer the permit tables gave at that moment |
| Gateway.GovernanceExact | app/runtime/model_gateway.py:932-956 | The governance checks refuse exactly the routes that are disabled, closed to the tenant, region or prompt policy, or not in the Run's frozen set |
| GatewayService.SettleReleases | app/runtime/model_gateway.py:1309-1323 | A settlement of a held permit releases its slot, also when its hash vanished or it was reaped |
| GatewayService.VanishedMismatches | app/runtime/model_gateway.py:1218-1323 | The settlement of an active permit answers route_mismatch if and only if its hash has vanished |
| GatewayCall.ModelCaller.Call | app/runtime/model_gateway.py:743-783 | A whole call ends for every registry, cycles included; tries each route at most twice, again exactly when its cooldown can be waited for; moves only from a rate-limited route to its allowed, untried fallback and stops only when none is left or the answer is another; every provider call in it is governed, just authorized and at a state the budget machine reaches; at the end every row of it is settled, no slot is taken, and all of it is one run of the budget machine |
| RouteLoop.Register | app/runtime/model_gateway.py:256-265 | Builds a registry exactly when ids are distinct and every fallback is registered |
| BoundedLoop.IncrementalIsBatch | app/runtime/bounded_loop.py:208-233 | Merging after every batch gives the list that merging once at the end gives |
| BoundedLoop.MergedIsFirsts | app/runtime/bounded_loop.py:208-233 | The merge is the subsequence of first occurrences |
| BoundedLoop.MergeDistinct | app/runtime/bounded_loop.py:208-233 | Keys of the merge are distinct |
| BoundedLoop.MergeKeepsUnkeyed | app/runtime/bounded_loop.py:208-233 | Items without a key are all kept, in order |
| BoundedLoop.AgentState.MergeUniqueScenes | app/runtime/bounded_loop.py:208-233 | The loop with its seen set replaces the list by its merge and counts what it dropped |
| BoundedLoop.RunLoopIterations | app/runtime/executor.py:694-784 | Ends where the specified iterations end, with the list as specified after as many calls |
| BoundedLoop.ExitExact | app/runtime/executor.py:707-784 | The body is called at most as often as allowed, each time after a passed check with all four limits unspent, and as long as its calls go on; the loop ends before the next call by a safety check or a spent budget, or by the report of the last, exactly |
| BoundedLoop.ListedExact | app/runtime/executor.py:739-777 | The list is the merge up to the last report followed by the raw batches since |
| BoundedLoop.ListedMerges | app/runtime/executor.py:776-777 | The list always has the merge of everything appended, and is it right after a report |
| BoundedLoop.ListedDistinct | app/runtime/executor.py:739-777 | Keys are distinct if and only if the raw batches since the last merge bring none twice and none that was there, and, without any merge, the list began so |
| BoundedLoop.DuplicateStays | app/runtime/executor.py:739-750 | A report, a raise with the same key and a spent budget leave a duplicate |
| BoundedLoop.RunBoundedLoopNode | app/runtime/executor.py:629-693 | Gives the specified verdict; at most as many body calls as model calls were left, none without budget; a complete loop leaves the merge of everything appended |
| BoundedLoop.CompleteExactly | app/runtime/executor.py:883-918 | Complete if and only if the loop may begin, a call within the budget declares it complete with every call up to it in order, and the closing report agrees |
| BoundedLoop.PartialCauses | app/runtime/executor.py:892-902 | Partial only for a spent budget, a declared partial, a raise or a partial closing report |
| BoundedLoop.VerdictExactly | app/runtime/executor.py:629-693 | A loop is gone through exactly if it ended by declaration or by a budget that may run out, with a closing report; each other verdict has its own cause |
| Executor.Execute | app/runtime/executor.py:244-609 | Succeeded and partial mean that every entry check passed and the whole plan was gone through, each node run to its checkpoint, skipped for exactly the stated reasons or failed as optional after publication; otherwise an entry check failed or the next node halts, and the status is waiting, cancelled, drained or raised if and only if the checks and the work of that node say so, failed else; a node that halts after its checkpoint counts as completed |
| Executor.Enter | app/runtime/executor.py:252-320 | The run goes on if and only if plan, graph with its declared successors, fallback target, authorization, package, write gate, draining and restored state all allow it; if not, it is cancelled, drained or raised exactly for the check that fails, and failed else |
| Executor.Resume | app/runtime/executor.py:153-242 | A resumed success has every node from the one it goes on at run to completion, or done before and not to be repeated |
| Executor.Run | app/runtime/executor.py:147-151 | A fresh run succeeds if and only if every entry check passes, every plan node passes all its checks and completes, and no loop is partial |
| Executor.RunNode | app/runtime/executor.py:457-483 | A node is called again only when it asks, and at most the frozen number of times more |
| Executor.VisitNode | app/runtime/executor.py:382-600 | A node passes, fails as optional, or ends the run, and with which status, exactly by its checks and its work |
| Executor.BuildGraph | app/runtime/graph_builder.py:36-69 | Builds the graph if and only if every entry is a node, no id comes twice and every declared edge leads to the next node |

## Left out

- API routes, middleware, settings, the command line supervisor, migrations, logging, audit rows and the test harness.
- HTTP, DNS, signatures, encryption and object storage: their answers are parameters or the identity.
- The runner of the memoir agent and the services under it: what a node or an iteration does is a parameter.
- Finished-at times and other columns that no transaction reads back. The error code is read back in one place, the test
  for a human fallback (app/runtime/executor.py:267), which is the free parameter `fallbackRequested` of `Executor.Entry`.
- Public trace projection, observability, evaluator, guardrails and the dispatcher's back-off: the dispatcher may do
  anything to a dispatch event.
- The unused `create_running` path of the usage ledger, and prompt and thinking references on a reservation.
- Database isolation below whole transactions, except for the reservation, whose reads are separate steps.
- GatewayService.ModelGateway.SendActivatedAttempt: authority checks return rather than raise, and both ledgers can be
  reached when they are settled.
- GatewayCall.ModelCaller.Call: whether a cooldown fits the execution window is a parameter for each try, and the time
  spent waiting is not recorded.
- Executor.Resume: of the restored state only its validity and its completed nodes are modelled, not its other contents.
- BoundedLoop.RunBoundedLoopNode: no bound on time is stated, because the caller hands seconds to a parameter read as
  milliseconds (app/runtime/executor.py:713-715, app/runtime/bounded_loop.py:192-198).
- LifecycleLaws.RetryThrice: whether only optional steps failed is a parameter.
- BudgetTheorems.BudgetHolds: assumes non-negative prices and that settlements as unknown report no measured tokens;
  `TokenLawExact` says why the latter is needed.
- ReconcilerRunner.Runner.RunOnce: the deletion maintenance after the scan is not modelled.
