# Dafny model of the gateway's queueing, session and housekeeping protocols

This project models the parts of the gateway whose guarantees span several SQL
statements, processes or requests, and proves those guarantees over every run.

* **The asynchronous task queue.** `TaskModel` gives each SQL statement over the task and
  delivery tables as one atomic step. `TaskQueue` lets any number of processes take these
  steps in any order, with crashes, shutdowns, zombie executions, the reaper, cancellation
  and deletion, and shows what every step keeps; `TaskQueueTheorems` draws the guarantees
  from that. `ClaimQuery` relates the windowed claim query to a simple rule, `Reaper` says
  what one reaper pass does, `Deliveries` follows the webhook outbox, `Admission` and
  `AdmissionTheorems` follow submit transactions statement by statement, `Paging` follows
  a caller through the listing. `TaskQueueAttempts` says what allowing more than one attempt
  costs, `TaskQueueEndings` which tasks can be brought to an end, `TaskResults` what a caller
  reads back, `AdmissionRefusals` when a submit is refused. `TaskStore` and `Engine` are the store and the engine as classes that
  update their tables in place, each method proved against those steps.
* **Login sessions and activation tokens.** `AuthModel`, `SessionFamilies`,
  `SessionTheorems`, `Activations`, and the services as a class in `AuthStore`.
* **One-time codes** (`Mfa`), **signing keys and their caches** (`SigningKeys`,
  `KeyCaches`), **the ban reconciler** (`BanReconciliation`), **cleanup runs**
  (`CleanupRuns`, `CleanupBatches`), **rebuilding streamed messages** (`ChatStream`,
  `MessagesStream`), **the shutdown stack** (`Shutdown`).

A protocol is a `World`, an `Enabled` predicate, an `Apply` function and runs of events
(`Legal`, `Run`). Fields of a world that only record what happened say so. Whatever the
environment decides (clock readings, which rows `SKIP LOCKED` passes over, failures, fresh
ids and hashes, handler outcomes) is an argument of the event or the method. Check it with
`dafny verify dfyconfig.toml`.

## Where the code does less than its comments suggest

These are results: each has a lemma with the exact condition or a concrete run.

* A reaper pass is described as failing only orphans that may not be retried. It also fails
  a retryable row whose lease lapses between its two statements, and retryable rows beyond
  one batch (`Reaper.PassWrongsLateLapses`, `Reaper.PassWrongsOverflow`).
* Deliveries are fenced by process, so a send that outlives its lease can put back a row
  whose last attempt is spent; that row is then never sent or failed. Exactly such answers
  do it (`Deliveries.StuckIffStranded`, `Deliveries.LateSendStrands`).
* A submit can be told the queue is full although its tenant had room, exactly when the row
  it conflicted with is gone before the duplicate check (`AdmissionRefusals.TooManyExactly`,
  `AdmissionRefusals.RefusedWithRoom`).
* Attempts of one task can overlap, be billed twice, and leave a run that Cancel cannot
  reach, exactly when its type allows more than one attempt
  (`TaskQueueAttempts.NeverOverlapsIffOneAttempt`, `BilledOnceIffOneAttempt` and
  `CancelReachesIffOneAttempt`). The registrations in this repository all allow one
  (`internal/ai/gateway/tasks_handler_image.go:50-56`,
  `internal/ai/console/console_image_task.go:76-79`), so none of it happens there; nor, for the
  same reason, does a reaper pass find a row to requeue.
* The retry bound a run consults is the one registered now, the reaper's is the row's; after
  a redeploy they can differ (`Engine.BoundsMayDiffer`).
* A session revoked by the account trigger keeps one active refresh-token row, which can
  never be rotated (`SessionTheorems.TriggerLeavesAToken`); because of that trigger three of
  Rotate's five refusals never happen (`SessionTheorems.RefusalsLeft`).
* One-time use of a code needs the script to run within 210 s of the check
  (`Mfa.OneTimeIffPrompt`).
* RotateKey reads the clock before it waits for the lock, so a key's day of grace can be
  short by that wait (`SigningKeys.FullGraceIffNoWait`).
* The key a reconcile pass sets is stale at that moment exactly when its id's last change
  since the pass read the banned ids is an unban
  (`BanReconciliation.StaleExactlyWhenUnbanned`); if the unban's own delete came before, the
  key stays until a later pass (`BanReconciliation.QuietPassRepairs`).

## Model

| member | source | states |
|---|---|---|
| TaskQueue.StepKeepsInv | internal/ai/asynctask/store_postgres.go:146-379 | every statement, crash, drain and shutdown step keeps the queue's invariant: the attempt bound no claim tests, request ids unique and not ahead of the row, billed ids not ahead either, hand-backs complete, deliveries matched to ended tasks |
| TaskQueue.RunKeepsInv | internal/ai/asynctask/store_postgres.go:146-535 | so does every run |
| TaskQueue.RowEffect | internal/ai/asynctask/store_postgres.go:230-379 | what a statement over many rows does to any one row, and the state it must find that row in |
| TaskQueueTheorems.RequestIdsAreDistinct | internal/ai/asynctask/store_postgres.go:173-187 | in every reachable state live executions hold distinct request ids, and the id the next claim of a pending task would settle is held by no execution and was never billed |
| TaskQueueTheorems.AttemptsAreBounded | internal/ai/asynctask/store_postgres.go:280-379 | pending rows have an attempt left, running rows are within the bound, attempts are claims less hand-backs, and status changes are at most 2*max_attempts plus two per hand-back |
| TaskQueueTheorems.DeliveryMatchesOutcome | internal/ai/asynctask/store_postgres.go:310-340 | a task has a delivery exactly when it ended and gave a URL, and the delivery announces that status |
| TaskQueueTheorems.StopLeavesOnlyBilledRows | internal/ai/asynctask/asynctask.go:246-307 | after a process handed its work back, a row still carrying its id is running and billed |
| TaskQueueTheorems.TerminalIsForever | internal/ai/adapters/postgres/request_settlement.go:195 | an ended row's status, output, error, times and request id never change while it exists; the settlement worker may still raise its charge, which never falls, ended or not |
| TaskQueueTheorems.DeletedIsForever | internal/ai/asynctask/store_postgres.go:522-535 | a deleted task id never comes back |
| TaskQueueTheorems.CheckedDeleteIsSafe | internal/ai/asynctask/query.go:279-306 | whatever runs between DeleteTerminal's status check and its delete by id, the row stays ended and no execution holds it |
| TaskQueueTheorems.BilledAtMostOnce | internal/ai/asynctask/store_postgres.go:274-298 | when executions bill only while their row runs under their request id, a task gathers at most one billed id and is never pending again |
| TaskQueueTheorems.HeartbeatsKeepTheRow | internal/ai/asynctask/store_postgres.go:214-228 | while an execution's beats land before its lease lapses, no claim, reap or hand-back of any process takes its row |
| TaskQueueTheorems.ClaimTakesTheRow | internal/ai/asynctask/store_postgres.go:173-187 | a claim changes its row and nothing else: running, leased, the next attempt under its own request id; time alone lets the reaper have it exactly once the lease is past |
| TaskQueueTheorems.ClaimedRowsAreKept | internal/ai/asynctask/store_postgres.go:173-228 | so an execution that beats in time keeps its row from its claim on, whatever else runs |
| TaskQueueTheorems.LeasesMove | internal/ai/asynctask/store_postgres.go:214-379 | in every world a beat renews, a reap requeues or fails with its code and time, and a hand-back frees, just the rows each is about |
| TaskQueueTheorems.TasksEnd | internal/ai/asynctask/store_postgres.go:465-535 | a cancellation ends a task in flight with its code and delivery, a deletion leaves neither row nor delivery, a posted charge is never lost |
| TaskQueueTheorems.TalliesCount | internal/ai/asynctask/store_postgres.go:146-379 | the tallies the bounds speak of count claims, hand-backs and changes of status |
| TaskResults.ResultIsKept | internal/ai/asynctask/worker.go:55-204 | the result an execution writes while it holds its row is what the task shows for every run after: status, output, error code, time, the attempt's request id, a charge no lower, and a delivery announcing it |
| TaskQueueTheorems.OverlappingAttemptsBillTwice | internal/ai/asynctask/registry.go:14-19 | two attempts of a task still executing can both bill, at most one of them while its row runs under its id |
| TaskQueueAttempts.OneAttemptIsSafe | internal/ai/asynctask/registry.go:12-19 | a task submitted with one attempt never has two executions at once and is billed under one id at most, whatever else the queue holds and whoever crashes |
| TaskQueueAttempts.NeverOverlapsIffOneAttempt | internal/ai/asynctask/registry.go:12-22 | attempts of a task never overlap, in any run from the empty tables, exactly when no submission allows more than one |
| TaskQueueAttempts.AttemptsCanOverlap | internal/ai/asynctask/store_postgres.go:280-298 | for every greater bound there is a run in which they do, in one process: claim, lapse, requeue, claim again |
| TaskQueueAttempts.BilledOnceIffOneAttempt | internal/ai/asynctask/registry.go:12-22 | a task gathers at most one billed id, in any run, exactly when no submission allows more than one attempt |
| TaskQueueEndings.CanAlwaysEnd | internal/ai/asynctask/store_postgres.go:146-340 | with a process up that registered the task's type and the tenant within its cap, time, what the claim query picks with nothing locked, and the reaper's own batches end any task, even if no claimed attempt runs |
| TaskQueueEndings.UnregisteredStaysPending | internal/ai/asynctask/registry.go:46-51 | such steps never change a pending row of a type no process registered |
| TaskQueueEndings.EndsExactlyIfRegistered | internal/ai/asynctask/store_postgres.go:146-340 | so they can end a pending task exactly if its type is registered |
| ClaimQuery.WindowIsOldestWithRoom | internal/ai/asynctask/store_postgres.go:146-172 | the windowed query with LIMIT 1 picks a row if and only if it is the oldest eligible one whose tenant has fewer live runs than the cap |
| ClaimQuery.PickReadsOffTheRows | internal/ai/asynctask/store_postgres.go:146-172 | read off the rows: the window picks a due pending row of an asked type, its tenant with fewer unlapsed runs than the cap, created before every other such row |
| ClaimQuery.NothingToClaim | internal/ai/asynctask/store_postgres.go:146-172 | the query finds nothing exactly when no eligible row's tenant has room |
| ClaimQuery.SnapshotPicksRespectCap | internal/ai/asynctask/store_postgres.go:128-172 | any number of claimers taking ranked rows off one snapshot keep every tenant within the cap: after the last claim its running rows with a lease beyond now are at most that many |
| ClaimQuery.AdmittedRowsAreRanked | internal/ai/asynctask/store_postgres.go:153-163 | where a tenant's pending and running rows are within the cap, the rank filter drops none of them |
| ClaimQuery.FindCandidate | internal/ai/asynctask/store_postgres.go:164-172 | a scan finds the window's pick among the rows not locked, or reports that every ranked row is locked |
| TaskStore.PostgresStore.Insert | internal/ai/asynctask/store_postgres.go:27-100 | one insert transaction alone: the row as submitted, a key some row has already, or as many pending and running rows as the cap, and which of the three when |
| TaskStore.PostgresStore.Claim | internal/ai/asynctask/store_postgres.go:146-212 | takes the oldest row with room, or there is none: the row is running under the process and the next attempt's request id, leased until now plus the lease, its first start kept and all else as before; no reap takes it at any time up to then |
| TaskStore.PostgresStore.Heartbeat | internal/ai/asynctask/store_postgres.go:214-228 | renews the lease exactly of a running row the process holds |
| TaskStore.PostgresStore.Complete | internal/ai/asynctask/store_postgres.go:230-272 | ends exactly a running row the process holds, with the outcome's output, error code and time and no charge lost, all else as submitted, and queues its delivery in the same step |
| TaskStore.PostgresStore.Cancel | internal/ai/asynctask/store_postgres.go:465-499 | cancels exactly a pending or running row and queues its delivery |
| TaskStore.PostgresStore.ReapRetryable | internal/ai/asynctask/store_postgres.go:280-306 | requeues the longest lapsed unbilled rows with attempts left, at most the batch, each after its backoff |
| TaskStore.PostgresStore.ReapDead | internal/ai/asynctask/store_postgres.go:310-349 | fails the longest lapsed runs as lost, at most the batch, with a delivery for each that gave a URL and had none |
| TaskStore.PostgresStore.ReleaseWorker | internal/ai/asynctask/store_postgres.go:351-379 | hands back the process's unbilled rows, the attempt taken back; those left to it are billed |
| TaskStore.PostgresStore.DeleteTask | internal/ai/asynctask/store_postgres.go:522-535 | afterwards the id has neither row nor delivery, and every other row and delivery is as it was |
| TaskStore.PostgresStore.ClaimDelivery | internal/ai/asynctask/store_postgres.go:537-575 | claims a delivery due or lapsed, with attempts left and the earliest due time, for one more attempt under a new lease; or there is none |
| TaskStore.PostgresStore.FinishDelivery | internal/ai/asynctask/store_postgres.go:577-595 | writes exactly when the process still holds the delivery: delivered, given up, or queued again after the answer's wait |
| TaskStore.PostgresStore.ReapDeadDeliveries | internal/ai/asynctask/store_postgres.go:597-619 | gives up on the longest lapsed deliveries without attempts; one is left out only when the limit was reached by others lapsed no later |
| TaskStore.PostgresStore.ReleaseDeliveries | internal/ai/asynctask/store_postgres.go:621-635 | hands back every delivery the process holds, and it holds none after |
| TaskStore.ChooseOldest | internal/ai/asynctask/store_postgres.go:286-297 | the sub-select: as many eligible rows as the limit allows, none left out with an earlier lease |
| Reaper.PassSortsOrphans | internal/ai/asynctask/reaper.go:33-61 | when both batches suffice, a pass requeues what was retryable, fails every other lapsed run, and touches nothing else |
| Reaper.PassWrongsExactly | internal/ai/asynctask/reaper.go:33-61 | on any table and readings, a pass wrongs just the retryable rows its second batch takes and its first did not |
| Reaper.PassWrongsLateLapses | internal/ai/asynctask/reaper.go:33-61 | when the retryable orphans fit in one batch, whatever else there is, it wrongs exactly the rows of its second batch whose lease lapsed between the two statements; at one clock reading, none |
| Reaper.PassWrongsOverflow | internal/ai/asynctask/store_postgres.go:308-326 | at one clock reading it wrongs no more rows than are retryable beyond one batch, and exactly that many when the second batch reaches every orphan left |
| Reaper.LateLapseExample | internal/ai/asynctask/reaper.go:33-61 | a concrete row that a pass wrongs |
| Engine.RunEndsOrLeavesToReaper | internal/ai/asynctask/worker.go:55-211 | the status, output, error code, time and charge each way of ending leaves in the row, nothing else changed; or the row untouched exactly for a retryable error with attempts registered, and then the reaper may requeue it exactly if the row has an attempt left and did not bill |
| Engine.BoundsMayDiffer | internal/ai/asynctask/worker.go:206-211 | what happens when the registered bound is not the row's: higher, the last attempt is left to the reaper, which fails it; lower, it fails with attempts unused |
| Engine.Engine.Start | internal/ai/asynctask/asynctask.go:205-240 | launches once, never after Stop |
| Engine.Engine.Stop | internal/ai/asynctask/asynctask.go:246-307 | given whether the wait for its goroutines ended in time: writes nothing if it did not, retries what failed, and on success leaves the process only billed rows and no deliveries |
| Engine.Engine.ReapOnce | internal/ai/asynctask/reaper.go:33-61 | a pass that cannot requeue does not go on to fail rows; one that gets through took the oldest batch at each statement and left the tables as the three make them |
| Engine.Engine.SweepExpired | internal/ai/asynctask/reaper.go:63-92 | deletes the longest expired rows with their deliveries, whatever fails on the way, and every one of them when they fit in a batch |
| TaskStore.PostgresStore.ListExpired | internal/ai/asynctask/store_postgres.go:501-520 | lists expired rows once each, none left out that expired before a listed one |
| Engine.HandlesReachEveryRun | internal/ai/asynctask/asynctask.go:337-356 | the cancel map reaches every run all along exactly when attempts of one task never overlap in the process |
| Engine.OverlapLosesHandles | internal/ai/asynctask/asynctask.go:337-347 | an overlap takes the older attempt's handle at once, and the older one's exit leaves the newer one live with none |
| TaskQueueAttempts.CancelReachesIffOneAttempt | internal/ai/asynctask/asynctask.go:337-356 | the cancel map of every process reaches each of its executions, all along every run of the queue, exactly when no submission allows more than one attempt |
| TaskModel.BackoffGrows | internal/ai/asynctask/store_postgres.go:285 | a requeued row waits five seconds after no attempt, twice as long for each one more, and five minutes from the sixth on |
| Deliveries.RetriesBackOff | internal/ai/asynctask/webhook.go:206-322 | only a 2xx without error succeeds; all but a 410 and an unsafe target are retried, up to the row's bound or the sixth attempt, each wait longer than the last |
| Deliveries.AnswerDecides | internal/ai/asynctask/webhook.go:284-322 | an answer whose process holds the row delivers it exactly for a 2xx without error, gives it up exactly for a 410, an unsafe target or no retry left, and else queues it again after 10 s, 1 min, 5 min, 30 min or 2 h; any other answer changes nothing |
| Deliveries.DeliveredIffAcknowledged | internal/ai/asynctask/webhook.go:284-322 | over every run a delivery stands as delivered exactly when a 2xx answer in it was written by the process holding the row |
| Deliveries.OtherStepsDecide | internal/ai/asynctask/store_postgres.go:537-635 | what claims, reaps and hand-backs make of a delivery, and what a send is told |
| Deliveries.SendsAreBounded | internal/ai/asynctask/store_postgres.go:537-635 | a delivery is sent at most max_attempts times plus once per hand-back |
| Deliveries.NothingIsStuck | internal/ai/asynctask/webhook.go:284-342 | when answers are written within the client and write timeouts, every queued delivery can be claimed when due and every lapsed one is exactly one of claimable and reapable |
| Deliveries.TimelyRunKeepsMoving | internal/ai/asynctask/asynctask.go:82-84 | the invariant behind it: within its lease a send's row is still the one it claimed |
| Deliveries.CanAlwaysEnd | internal/ai/asynctask/store_postgres.go:537-619 | from any such state claims and reaps alone bring a delivery to its end |
| Deliveries.OwnAttemptNeverStrands | internal/ai/asynctask/webhook.go:298-322 | classification never retries the attempt that spends the last one |
| Deliveries.StrandedExactlyBy | internal/ai/asynctask/store_postgres.go:577-595 | a step strands a delivery exactly when it is an answer to be retried arriving while its process holds the row on its last attempt |
| Deliveries.StuckIffStranded | internal/ai/asynctask/store_postgres.go:537-635 | over every run a delivery is out of reach of claims and the reaper exactly when some answer in it stranded it |
| Deliveries.StuckIsForever | internal/ai/asynctask/store_postgres.go:537-635 | no statement but deletion moves a stranded row again |
| Deliveries.LateSendStrands | internal/ai/asynctask/webhook.go:324-342 | a run that strands a row as it is inserted, with six attempts: five sends outlive their leases and the fifth answers after the sixth claim |
| Deliveries.EventIsForever | internal/ai/asynctask/store_postgres.go:253-263 | a delivery's event and URL never change |
| Admission.StepKeepsInv | internal/ai/asynctask/store_postgres.go:36-100 | every statement of every submit, and every queue step between, keeps the lock, cap, key and answer invariants |
| Admission.SameRequestIsExact | internal/ai/asynctask/submit.go:130-170 | comparing type and fingerprint compares type and input exactly |
| AdmissionTheorems.CapIsNeverExceeded | internal/ai/asynctask/store_postgres.go:36-79 | no interleaving of submits with queue steps takes a tenant's pending and running rows past the cap |
| AdmissionTheorems.EveryEligibleRowIsRanked | internal/ai/asynctask/store_postgres.go:153-169 | so the claim query's rank filter drops no eligible row in any reachable state |
| AdmissionTheorems.StagedCanCommit | internal/ai/asynctask/store_postgres.go:93-99 | an inserted row can always commit |
| AdmissionTheorems.InsertDecides | internal/ai/asynctask/store_postgres.go:48-79 | a row is staged exactly if the tenant's pending and running rows are below the cap, or there is none, and no committed row has the key |
| AdmissionTheorems.RoomySubmitIsCreated | internal/ai/asynctask/store_postgres.go:48-99 | a submit that counts with room and no rival can commit, answers with its task, and the row is as it was submitted |
| AdmissionTheorems.LookupAnswers | internal/ai/asynctask/submit.go:130-149 | the lookup gives the key's task exactly for the same type and input, a conflict for others, and a released key exactly when no row has it |
| AdmissionTheorems.SameKeySameTask | internal/ai/asynctask/submit.go:99-149 | all submits that succeed under one scope and key name one task, and had its type and input, while the row lives |
| AdmissionTheorems.ReplayFindsOriginal | internal/ai/asynctask/store_postgres.go:81-92 | a replay against a living row gets that task, or a conflict if type or input differ, even at the cap |
| AdmissionRefusals.TooManyExactly | internal/ai/asynctask/store_postgres.go:52-92 | whatever runs between a submit's insert and its check, with a key used by one tenant, it answers 429 exactly when it met no rival, and then its tenant was full, or the rival it met is gone |
| AdmissionRefusals.RefusedWithRoom | internal/ai/asynctask/store_postgres.go:52-92 | a run from the empty tables in which a submit is answered 429 under a cap of two or more, its tenant having no task in flight |
| AdmissionTheorems.TooManyHasReason | internal/ai/asynctask/store_postgres.go:81-92 | whoever uses the key, a 429 means the tenant was full when counted or the rival is gone |
| AdmissionTheorems.ScopeIsolatesCredentials | internal/ai/asynctask/submit.go:151-162 | scopes are equal exactly for one credential, given tenant ids without a colon |
| AdmissionRefusals.ScopesMeetExactly | internal/ai/asynctask/submit.go:151-162 | users of two tenants can share a scope exactly when the tenant ids are equal or one extends the other past a colon |
| AdmissionRefusals.GeneratedTenantsAreIsolated | internal/transport/admin_tenant.go:235 | tenant ids as generated hold no colon, so scopes are equal exactly for one credential |
| Paging.OwnerRulesAgree | internal/ai/asynctask/query.go:187-224 | the query's owner condition, the cursor's check and the rows a listing is about are one rule for every viewer and filter, and it shows nothing the viewer may not see |
| Paging.RefusesExactly | internal/ai/asynctask/query.go:187-209 | a filter is refused exactly for a viewer without scope, an unknown owner scope, or tenant tasks of a named user |
| Paging.StoreList | internal/ai/asynctask/store_postgres.go:422-463 | the newest of the rows the listing is about past the cursor: all of them, or the limit with every other one older |
| Paging.List | internal/ai/asynctask/query.go:130-185 | each refusal and empty answer exactly when; otherwise the newest rows of the viewer's tenant, the types, the status and the owner asked for, unexpired and past the cursor, a full page if more are left |
| Paging.PagesAreExact | internal/ai/asynctask/query.go:130-185 | following the pages while the table changes: newest first, nothing twice, nothing the listing never showed, nothing missed that it showed throughout |
| SessionFamilies.StepKeepsInv | internal/auth/session.go:39-264 | every login, rotation, revocation, purge and account change keeps every family's chain, linked in order of issue |
| SessionTheorems.OneChainOneActiveToken | internal/auth/session.go:97-210 | in every reachable state a session's tokens are one chain; exactly the newest is active unless revokeSessionTx ran on it, and then none is |
| SessionTheorems.TriggerLeavesAToken | internal/db/init.sql:170-194 | a session the account trigger revokes keeps one active token, which answers as an inactive session |
| SessionTheorems.RefusalsLeft | internal/auth/session.go:155-176 | Rotate can only refuse as expired or for its tenant |
| SessionTheorems.RevokedForGood | internal/auth/jwt.go:505-541 | once a session is revoked no access token of it validates and no refresh token rotates, for every run after |
| SessionTheorems.ReuseEndsFamily | internal/auth/session.go:143-154 | presenting a consumed token of an active session ends its family and its access tokens for good |
| SessionTheorems.CredentialChangeEndsSessions | internal/auth/activation.go:91-195 | a reset or activation raises the version by one and ends every session the user had, for good |
| SessionTheorems.OnePairPerToken | internal/auth/session.go:178-192 | a refresh token yields at most one token pair over the whole run |
| SessionTheorems.RotatesExactly | internal/auth/session.go:97-176 | in every reachable state the tokens that rotate are exactly the newest of each active session before its expiry, unless its account's tenant is suspended |
| SessionTheorems.NewestKeepsRotating | internal/auth/session.go:97-210 | whatever other sessions, accounts and tenants do, a client that presents only its newest token rotates every time until the expiry |
| SessionTheorems.LoginKeepsRotating | internal/auth/session.go:39-210 | so from a login on, its first token included |
| SessionTheorems.LiveAccessValidates | internal/auth/jwt.go:505-541 | a live session's access token validates with its account's claims, exactly if an account of a tenant's types has an active tenant row |
| SessionTheorems.ValidAccessIsCurrent | internal/auth/jwt.go:505-541 | an access token that validates is of a live session, with its account as it is now |
| SessionTheorems.LogoutEndsSession | internal/auth/session.go:212-226 | a logout leaves no active token, and nothing of the session works in any run after |
| SessionTheorems.SuspensionStops | internal/auth/session.go:155-176 | once a tenant is suspended its users' access tokens do not validate, and the next refresh of a session is refused for it and ends the session |
| SessionTheorems.PurgeDrops | internal/auth/session.go:228-247 | a purge takes the sessions it chose with their tokens, and no others |
| SessionTheorems.ExpiryNeverMoves | internal/auth/session.go:193-203 | no step moves a session's expiry |
| SessionTheorems.RotationsEndWithTheLogin | internal/auth/session.go:155-158 | no rotation happens at or after the expiry set at login |
| Activations.OneLiveToken | internal/auth/activation.go:74-89 | at most one unconsumed token per account, and only the one stored last can activate |
| Activations.ActivatesOnce | internal/auth/activation.go:127-195 | a token activates at most once |
| Activations.NewerTokenRetiresOlder | internal/auth/activation.go:74-125 | a token stored or reset later retires the earlier ones for good |
| Activations.ResetThenActivates | internal/auth/activation.go:91-195 | a reset's token activates its account until it expires, whatever other accounts do and however often weak passwords or older tokens are tried |
| Activations.VersionsRise | internal/auth/activation.go:106-185 | credential versions never fall and each reset or activation raises its account's by one |
| AuthStore.AuthTables.Login | internal/auth/session.go:39-95 | creates the session and its token exactly for an active account at the version presented whose tenant is not suspended, and tells the account's refusal from the tenant's |
| AuthStore.AuthTables.RotateToken | internal/auth/session.go:97-210 | which tables give each answer and each refusal, rotation exactly for the active unexpired token of an active unexpired session whose account is active, settled, at its version and of no suspended tenant; and what each answer leaves in the tables |
| AuthStore.AuthTables.RevokeSession | internal/auth/session.go:249-264 | afterwards neither the session nor any token of it is active, and nothing else changed |
| AuthStore.AuthTables.UpdateAccount | internal/db/init.sql:170-194 | the user's sessions are revoked exactly by a change of status, version, type or tenant, so active ones still match the account; other users' are untouched |
| AuthStore.AuthTables.StoreActivation | internal/auth/activation.go:74-89 | afterwards the account's one unconsumed token is the new one; other accounts keep theirs |
| AuthStore.AuthTables.ResetCredential | internal/auth/activation.go:91-125 | resets exactly an account not deleted: pending, a version on, its sessions revoked, the new token the only one unconsumed |
| AuthStore.AuthTables.ActivateCredential | internal/auth/activation.go:127-195 | which tables give each answer; an activation settles the account a version on, revokes its sessions and consumes its tokens, any other answer changes nothing |
| AuthStore.AuthTables.DeleteExpired | internal/auth/session.go:228-247 | drops only expired sessions with their tokens; one is left only when the limit was reached by others that expired no later |
| Mfa.VerifyTotpCounter | internal/auth/mfa.go:325-345 | finds the lowest counter in the window whose code matches, or none does |
| Mfa.ChallengeKeys.Attempt | internal/auth/mfa.go:242-253 | the attempt counted under its expiry; five pass, and the sixth deletes the challenge |
| Mfa.ChallengeKeys.RunScript | internal/auth/mfa.go:41-52 | each of the script's three answers exactly when, and its whole effect on the keys |
| Mfa.ChallengesAreOneShot | internal/auth/mfa.go:236-277 | however requests race, a challenge succeeds at most once, and at most five pass its gate while it lives |
| Mfa.RightCodeGetsIn | internal/auth/mfa.go:236-277 | a code of the window gets its user in exactly with fewer than five attempts counted and a counter past the one remembered |
| Mfa.LaterCounterIsLarger | internal/auth/mfa.go:258-270 | a code the script accepts has a larger counter than any remembered success, the counter key outliving every window |
| Mfa.OneTimeIffPrompt | internal/auth/mfa.go:41-52 | counters accepted for a user strictly increase over every run exactly when the script runs within 210 s of its check |
| SigningKeys.KeyTable.EnsureInitialKey | internal/auth/jwt.go:162-202 | inserts the first key exactly when none is active, and reports more than one |
| SigningKeys.KeyTable.RotateKey | internal/auth/jwt.go:583-646 | the new key is active, the one active before is in grace for a day from the reading, all others as they were; refused exactly without exactly one active |
| SigningKeys.KeyTable.RetireExpired | internal/auth/jwt.go:648-656 | afterwards no grace key is past its deadline, exactly those that were have changed, and the active key is the same |
| SigningKeys.ExactlyOneActive | internal/auth/jwt.go:159-202 | once any key exists exactly one is active, in every interleaving of bootstraps, rotations and retirements |
| SigningKeys.KeysMoveForward | internal/auth/jwt.go:621-653 | rows are never lost and only move active, grace, retired |
| SigningKeys.GraceIsKept | internal/auth/jwt.go:592-625 | a key is retired only after a day counted from its rotation's clock reading |
| SigningKeys.FullGraceIffNoWait | internal/auth/jwt.go:592-604 | the day counts from the demotion exactly when rotations do not wait for the lock |
| KeyCaches.CachesMoveForward | internal/auth/jwt.go:214-221 | a replica's cache is read from ever newer tables |
| KeyCaches.CachesMirrorHistory | internal/auth/jwt.go:223-304 | every cache holds just the active and grace keys of one committed table |
| KeyCaches.ReloadCatchesUp | internal/auth/jwt.go:214-304 | a reload that ends leaves the keys of the table as it was when the reload began, whatever happened meanwhile; one that fails can be tried again |
| KeyCaches.KeyCache.ReloadKeysLocked | internal/auth/jwt.go:223-304 | the cache gets the table's active and grace keys, or loses its active key when the table has not exactly one |
| KeyCaches.KeyCache.VerificationKey | internal/auth/jwt.go:430-468 | finds a key exactly when it was cached, or no refresh was within the last second and the table holds it unretired; a lookup that refreshes says when |
| KeyCaches.QueriesAreSpaced | internal/auth/jwt.go:452-459 | however many unknown keys are presented, database refreshes are an interval apart |
| BanReconciliation.ClearedIdsWereActive | internal/auth/ban_reconciler.go:177-218 | a pass clears only keys scanned before its read, of ids active at that read |
| BanReconciliation.PassAmongBans | internal/auth/ban_reconciler.go:168-218 | from a clean state and among bans only, a pass clears nothing and every id banned at its read has a key at its end |
| BanReconciliation.SafeIffScannedFirst | internal/auth/ban_reconciler.go:168-176 | among bans only, no live ban is ever cleared exactly because the scan precedes the read |
| BanReconciliation.QuietPassRepairs | internal/auth/ban_reconciler.go:177-240 | from any drift, a pass with nothing beside it makes the keys the banned ids |
| BanReconciliation.HandlersKeepKeys | internal/auth/blacklist.go:142-170 | bans and unbans alone end with an id's key as its ban is |
| BanReconciliation.StaleExactlyWhenUnbanned | internal/auth/ban_reconciler.go:220-230 | whatever runs between a pass's read and a write of it, the key that write sets is stale exactly when the id's last change since the read is an unban |
| BanReconciliation.UnbanDuringPass | internal/auth/ban_reconciler.go:220-230 | a run from the empty state in which that happens |
| BanReconciliation.BanReconciler.ReconcileSet | internal/auth/ban_reconciler.go:220-240 | sets what is missing, then deletes what is stale, and counts both; cut short, it never oversteps either |
| BanReconciliation.BanReconciler.ReconcileOnce | internal/auth/ban_reconciler.go:177-218 | a pass alone ends with the keys equal to the banned ids |
| CleanupRuns.OneActiveRun | internal/cleanup/service.go:452-512 | at most one run is queued or running, and only the process that queued it can claim or write it |
| CleanupRuns.LapsedRunsMakeRoom | internal/cleanup/service.go:452-493 | after recovery a run is queued exactly when the lease of any active one is over, or it never had one and is ten minutes old |
| CleanupRuns.OwnWritesLand | internal/cleanup/service.go:495-694 | within its lease, each write of the process that holds a run lands and says what the row is then |
| CleanupRuns.PruneDrops | internal/cleanup/service.go:710-722 | pruning takes ended runs and leaves the rest, the active one with them |
| CleanupRuns.RunTable.RecoverStaleRuns | internal/cleanup/service.go:916-928 | fails exactly the active runs whose lease is over |
| CleanupRuns.RunTable.QueueRun | internal/cleanup/service.go:452-493 | recovers, then inserts a run leased to the process, or is refused exactly while another is active |
| CleanupRuns.RunTable.ClaimRun | internal/cleanup/service.go:495-513 | starts exactly the process's own queued run within its lease, the new lease counted from its clock reading |
| CleanupRuns.RunTable.RenewLease | internal/cleanup/service.go:632-642 | renews exactly a run the process holds within its lease |
| CleanupRuns.RunTable.UpdateRunProgress | internal/cleanup/service.go:644-666 | the same with the progress written |
| CleanupRuns.RunTable.FinishRun | internal/cleanup/service.go:668-694 | ends exactly the process's own running run, lapsed or not, as it went |
| CleanupRuns.RecoveredIsFenced | internal/cleanup/service.go:916-928 | a run failed by recovery is never written again by its old owner |
| CleanupRuns.HeartbeatsKeepTheRun | internal/cleanup/service.go:632-666 | a process whose lease writes land in time keeps its run whatever the others do |
| CleanupBatches.RowTable.DeleteBatch | internal/cleanup/service.go:808-821 | removes the oldest eligible rows, a full batch unless none are left |
| CleanupBatches.DeleteInBatches | internal/cleanup/service.go:899-914 | terminates with no eligible row left and returns exactly their number, unless a statement or a progress write failed; then it has counted what it removed, oldest first |
| CleanupBatches.ClearAll | internal/cleanup/service.go:765-783 | the same for the purge that stops at a batch not full |
| CleanupBatches.DeleteModerationLogs | internal/cleanup/service.go:823-867 | both tables emptied and counted; a failure in the second can only understate |
| CleanupBatches.NormalizeTargets | internal/cleanup/service.go:996-1021 | the asked targets trimmed and once each, all for none, refused exactly for an unknown one |
| CleanupBatches.CleanupRun.Execute | internal/cleanup/service.go:515-595 | however a run goes, reported rows never fall and end as the sum of its summary; it completes exactly when it was made ready, every target went well and its lease was held |
| ChatStream.ChatAccumulator.AddChunk | internal/ai/audit/accumulator.go:117-149 | a chunk's effect on role, text and tool calls |
| ChatStream.ChatAccumulator.BuildMessage | internal/ai/audit/accumulator.go:160-214 | the message, tool calls in ascending index order |
| ChatStream.AscendingIsSorted | internal/ai/audit/accumulator.go:186-190 | that order is strictly ascending and has exactly the indices |
| ChatStream.InterleavingsAgree | internal/ai/audit/accumulator.go:117-149 | streams with the same text, last role and per-call deltas build the same message however they are cut and interleaved |
| ChatStream.ChunkingRoundTrips | internal/ai/audit/accumulator.go:117-214 | any chunking of a message gives back its last role, its text, and each tool call with its last id and name and all its arguments |
| MessagesStream.MessagesAccumulator.AddFrame | internal/ai/audit/accumulator.go:220-268 | a frame's effect on the blocks and their order |
| MessagesStream.MessagesAccumulator.BuildMessage | internal/ai/audit/accumulator.go:270-318 | the rendered blocks, or nothing |
| MessagesStream.OrderIsStartOrder | internal/ai/audit/accumulator.go:240-254 | blocks stand in the order they first started, each once |
| MessagesStream.InterleavingsAgree | internal/ai/audit/accumulator.go:220-318 | the message depends only on the start order and each block's own frames |
| MessagesStream.ChunkingRoundTrips | internal/ai/audit/accumulator.go:220-318 | any cutting and interleaving of a message's blocks gives back those that show, input that is no JSON as an empty object |
| Shutdown.ShutdownStack.Add | cmd/server/lifecycle.go:213-225 | what is added is what the next Close reaches first; once closed nothing is |
| Shutdown.ShutdownStack.Close | cmd/server/lifecycle.go:227-262 | closes from the top to the first failure, keeps that entry and the older ones, and reports nil exactly when none is left |
| Shutdown.ClosesAtMostOnce | cmd/server/lifecycle.go:227-262 | over any calls and failures each entry closes at most once |
| Shutdown.NewerClosesFirst | cmd/server/lifecycle.go:241-254 | an entry closes only after every newer one taken on has closed |
| Shutdown.NilMeansAllClosed | cmd/server/lifecycle.go:255-262 | a Close returning nil has everything closed and no later call does anything |
| Shutdown.FailureIsRetriedFirst | cmd/server/lifecycle.go:245-252 | the entry that failed is the one the next call starts with |

## Left out

- HTTP transport, the portal, configuration, build commands, logging, metrics, health snapshots: nothing here spans steps.
- Cryptography, JSON and SQL internals: hashes are injective or fresh values, statements are atomic except where submission is followed statement by statement.
- Registration and freezing of handlers: it enters as max_attempts >= 1 and the set of types a claim asks for.
- Purging of old request keys by table maintenance: billed ids stay.
- TaskQueueTheorems.StopLeavesOnlyBilledRows: a claim whose context was cancelled can still commit after the drain and the hand-back; in the model a claim belongs to a process that is still up, and such a row would wait for its lease to lapse.
- Clock skew between processes: one clock, though readings may be stale where the code reads it early.
- Hard deletion of accounts, and the tenant purge, which removes deliveries before their tasks; end-user deletion, which writes its ban key before committing.
- Refusal to start without subject resolver or signer, the redaction of failure details, and the payload and signature of a webhook.
- The OpenAI Responses and Gemini accumulators: they would repeat the two that are modelled.
- Enrollment of authenticators and codes checked outside a challenge: those checks consume no counter, so one-time use is about challenges only.
- Row order of the cached grace keys, and migration of legacy plaintext keys.
- Inserts beside a batched delete, and retention arithmetic.
- TaskQueueTheorems.BilledAtMostOnce: assumes executions bill inside their row's window, because the code documents that a zombie can bill outside it.
- Deliveries.NothingIsStuck: assumes timely answers, because fencing is by process; without that the property fails.
- Mfa.ChallengesAreOneShot: counts guesses while a challenge lives; a guess past its gate after that cannot succeed.
- SigningKeys.GraceIsKept: counts the day from the rotation's clock reading, which is where the code counts it from.
- AdmissionTheorems.ScopeIsolatesCredentials: needs tenant ids without a colon, because the code does not escape it; generated ids have none.
- AdmissionRefusals.TooManyExactly: takes a key to be used by one tenant, which is what scopes ensure.
- TaskStore.PostgresStore.ClaimDelivery: leaves deliveries due at the same time unordered, because a delivery's creation time and own id are not modelled.
- CleanupBatches.DeleteInBatches: needs a positive batch, which the policy's bounds guarantee, and no inserts beside it.
