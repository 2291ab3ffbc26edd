# go-notify: the delivery protocol

The notification service keeps one Postgres row per notification and uses Kafka as a courier that
may duplicate, lose or reorder what it carries. API requests, worker pools, the scheduler and the
reaper meet only in that row, through conditional updates, row locks and the time that has passed
since `updated_at`. This project models that protocol and the code that carries it out, and proves
what the documentation claims for it, over every interleaving, crash and partial publish.

`dafny verify dfyconfig.toml` checks the whole project.

How it is laid out:

- `Domain`, `Table`: the notification and, as functions on a table value, what each SQL statement
  does to it. The imperative layer and the protocol are both proved against these functions.
- `Protocol`: the state machine. Its state holds a clock, the table, the set of published records
  (any of which may be fetched any number of times or never), dead letters, workers by phase,
  requests by phase, open poller transactions with the rows they lock, and counters per
  notification. Its steps are the statements, publishes, Sends and commits of the services. Any
  process may stop after any step, and a failed write may still have reached the log in part.
- `Invariants`, `Preservation`, `Runs`, `Guarantees`: what every step keeps, and what follows in
  every reachable state.
- `Lease`, `Window`: runs in which claims end in time, and exactly how long the reaper's window must
  be for them. The pace of the workers is given either by the lifetime of a claim or by its parts:
  the provider's timeout, the base backoff, and an overhead for everything else.
- `Replay`, `Republishing`: what a replayed message can do after a crash, and when the reaper
  publishes a pending row twice.
- `Claims`: how claims, cancels, inserts and abandoned claims add up in every run whose claims end in
  time, whoever calls the API and whatever fails.
- `Recovery`, `Liveness`, `Resumption`: the way back from every reachable state; that every schedule
  that keeps going finishes every notification, whatever the reaper's window is; and that every
  reachable state is the beginning of such a schedule.
- `Storage`, `Polling`, `Delivery`, `WorkerPool`, `Validation`, `Handlers`: the repository, both
  ticks, the provider client and retry loop, one pool, the creation rules and the create endpoints,
  in the imperative form the program has.
- `Refinement`, `ApiRefinement`: one job, one poller batch and one create request of that
  imperative layer, errors included, are runs of the protocol from a state in which any other
  workers, requests and transactions are under way; a job's run takes the time its Sends and pauses
  take.
- `PoolModel`: the pool's dequeue with any number of senders between its three selects.

Where the code does less than its documentation says, the model follows the code. Each point has a
run that shows it and the exact condition under which the documented behaviour holds:

- `README.md:133` says every transition is guarded by the current status. MarkSent and MarkDead
  (`internal/storage/repository.go:218`, `internal/storage/repository.go:232`) are not.
  `Window.CancelledThenSent` is a run in which a cancelled row becomes sent;
  `Window.FinalStatusStandsIff` says exactly when final statuses stand all the same.
- `README.md:188-193` says the reaper can never reclaim and double-send a message in flight, because
  its window is floored at timeout x attempts + 30 s. The floor (`cmd/scheduler/main.go:62`) leaves
  out the backoffs, the limiter and the dead-letter and database writes. `Window.Reclaimed` and
  `Window.AcceptedTwice` are runs, within those bounds, in which a row is reclaimed under a live
  worker and two live workers have it accepted. `Window.LeaseHoldsIff` and
  `Window.ClaimsExcludeIff` say exactly which windows exclude this, and
  `Window.FlooredWindowSufficesIff` when the floored one does.
- `README.md:183-185` says a crash in mid-delivery replays the message instead of losing it. The
  replay finds the row in 'processing' and is skipped and committed
  (`internal/worker/pool.go:262-266`). `Replay.ReplaySkipped` is such a state, and
  `Replay.ReplayClaimsIff` and `Replay.ClaimNeedsReap` say that a replay succeeds if and only if the
  reaper has queued the row again; until then `Replay.StrandedUntilReaped` holds. The same lines say
  an offset is committed only after a terminal state or the dead letter; that skip commits it before,
  and so does an acceptance whose update failed (`internal/worker/pool.go:277-289`), as in
  `WorkerPool.AcceptanceUnwritten`. `WorkerPool.Pool.Process` and `WorkerPool.CommitAfterOutcomeIff`
  say for which rows and errors it is true.
- `internal/storage/repository.go:199-200` calls the claim the real guard against delivering a
  cancelled message. `Window.SentAfterCancel` is a run in which the provider is called after a
  successful cancel; `Window.FinalIsLeftAloneIff` says exactly when it is not.
- `internal/storage/repository.go:319-320` says a pending row never reached Kafka, so that
  re-publishing cannot duplicate it. `Republishing.LoggedByRequest` and `Republishing.LoggedByReaper`
  are runs in which the reaper selects a pending row whose message is in the log;
  `Republishing.NoDuplicatesIff` says exactly what excludes them.
- `README.md:160-162` says a dead letter carries the attempt count. It carries the configured maximum
  (`internal/worker/pool.go:301`), also when a permanent error ended the delivery early.
  `Delivery.LetterOvercounts` is such a delivery and `Delivery.LetterCountIff` says when the count is
  right.
- `internal/domain/notification.go:50` says 'sent' means that the provider accepted. With
  `RETRY_MAX_ATTEMPTS` at zero or below a row is marked sent without a Send (`Runs.SentUnearned`);
  `Guarantees.SentIsEarnedIff` has the condition.
- `internal/scheduler/scheduler.go:67` takes fewer than a full batch as the sign to stop. With a batch
  size of zero there is none and a tick never ends (`Polling.ZeroBatchNeverEnds`); with any other it
  does (`Polling.Scheduler.Tick`, `Polling.Reaper.Tick`).

Two more things a reader may not expect. The documentation promises 409 for a reused key with another
payload only for the key header of a single create (`README.md:93-95`): a batch item is answered with
the row of its key whatever it carries. `Guarantees.BatchPointsElsewhere` is such a reply, and
`Storage.ItemIsOrigin` says for every batch which row an item gets. And the provider client treats
every status other than 200, 202, 429 and 5xx as permanent, so also 3xx and other 2xx.

## Model

| member | source | states |
|---|---|---|
| Guarantees.DeliveryBound | internal/storage/repository.go:201-211 | In every reachable state, with no timing assumption: observed acceptances of a notification are at most its claims, claims equal attempt_count, and that is at most one more than its reaps from 'processing' |
| Guarantees.CancelIsFinal | internal/storage/repository.go:403-421 | After a successful Cancel the row is sent, dead or cancelled and never claimed again, in any continuation |
| Guarantees.TerminalForever | internal/storage/repository.go:201-211 | The set of sent, dead and cancelled is closed under every run, and no claim of such a row occurs in it |
| Guarantees.StepKeepsTerminal | internal/storage/repository.go:196-240 | No single step takes a row out of the final statuses, claims it or counts another attempt |
| Guarantees.CancelledBeforeDelivery | internal/storage/repository.go:403-421 | A cancelled row never reaped from 'processing' has no attempt, no provider call and no worker |
| Guarantees.CancellableIff | internal/storage/repository.go:400-421 | In every reachable state a row that no transaction has selected can be cancelled exactly when it is not in processing, sent, dead or cancelled; the cancel changes its status and stamp and nothing else |
| Guarantees.CancelledIsNotDispatched | internal/storage/repository.go:400-421 | A scheduled row that no transaction has selected can be cancelled, and then no continuation publishes it |
| Guarantees.SilentForever | internal/storage/repository.go:270-276 | A final notification that had a schedule is published in no continuation |
| Guarantees.ClaimableIff | internal/storage/repository.go:196-211 | A fetched message can claim its row exactly when the row is queued or pending and unlocked, and only its own channel's pool fetches it |
| Guarantees.StatusesMove | internal/storage/repository.go:183-240 | Which statement takes a row from which status to which, and that it changes the columns that statement names and no others |
| Guarantees.CountersCount | internal/storage/repository.go:201-211 | The counters in these theorems go up by one for a claim, a Send, an accepted Send, an abandoned claim and a reap from 'processing' of that notification, and for nothing else |
| Guarantees.LocksMakeCommitSafe | internal/storage/repository.go:258-314 | With any number of open poller transactions, lock sets are disjoint, every locked row is still as it was selected, and the commit by id alone equals the same update guarded by status; no final row is revived |
| Guarantees.HeldRowsNeedNoGuard | internal/storage/repository.go:380-383 | An update of rows that are still as they were selected equals its guarded form and spares final rows |
| Guarantees.StatusProvenance | internal/worker/pool.go:274-316 | Queued, processing, sent and dead rows have had their message published; a sent row was accepted; a dead row's payload is in the dead-letter log |
| Guarantees.SentIsEarnedIff | internal/worker/pool.go:325-352 | 'sent' implies an acceptance in all reachable states if and only if at least one attempt is configured |
| Guarantees.ScheduleRespected | internal/storage/repository.go:270-276 | No step publishes, claims or sends a notification before its scheduled time |
| Guarantees.PublishedOnTime | internal/api/handlers.go:49-57 | Every newly published record, from the API or a poller, is due at that moment |
| Guarantees.Idempotent | migrations/000001_create_notifications.up.sql:32-34 | For any mix of creates: no two rows share a key, all replies for a key name one row, at most one says created, and a single create is answered with a replay exactly when recipient, channel and content are those of the key's row, and as a mismatch otherwise |
| Guarantees.PublishedByItsInserter | internal/api/handlers.go:108-128 | Through the API only the request that inserted a notification publishes it, and once |
| Guarantees.PayloadIntegrity | internal/queue/kafka.go:119-138 | In every reachable state each published record and dead letter, and each message a worker holds, has its row's recipient, channel, content, priority, creation time and id; a record is on the topic named "channel.priority" of its row, a dead letter on "channel.dlq", a worker is of its row's channel |
| Lease.LeaseIsExclusive | internal/storage/repository.go:316-331 | If every claim ends within inflightAfter of the updated_at it wrote, two workers never hold one row, a held row is in 'processing' with the updated_at of its claim, so the unguarded final writes hit nothing else, and no open transaction has selected it |
| Lease.StepKeepsLease | internal/storage/repository.go:346-353 | Each step keeps that exclusivity while all live claims are within the window |
| Lease.RunKeepsLease | internal/storage/repository.go:346-353 | And so does every run whose claims all end in time |
| Lease.SelectSparesHolders | internal/storage/repository.go:346-353 | What the reaper selects, no worker still within its time holds |
| Lease.FinalRowsStand | internal/storage/repository.go:213-240 | Under the lease a sent, dead or cancelled row is not changed at all by any step |
| Window.LeaseHoldsIff | internal/storage/repository.go:320-329 | In all runs at a pace, no reaper touches a row a live worker holds and no two live workers hold one row, if and only if the in-flight window covers the longest claim at that pace |
| Window.ClaimsExcludeIff | internal/storage/repository.go:320-329 | At most one live worker holds any row in all those runs, if and only if the window covers the longest claim |
| Window.FinalStatusStandsIff | internal/storage/repository.go:213-240 | No step changes a sent, dead or cancelled status in all those runs, if and only if the window covers the longest claim |
| Window.FlooredWindowSufficesIff | cmd/scheduler/main.go:58-68 | With the window as the service floors it (timeout x attempts + 30 s or the configured one), and Sends, pauses and overhead within their bounds, each of these guarantees holds if and only if the backoffs and the overhead fit into 30 s or the configured window is at least timeout x attempts + backoffs + overhead |
| Window.PartsBoundLifetime | internal/worker/pool.go:320-353 | In every run whose Sends last at most the timeout and whose pauses last at most their backoff, no claim outlives the worst case plus the overhead |
| Window.Overdue | internal/worker/pool.go:325-352 | The bound is reached: all Sends but the last time out, all pauses last their backoff, and a worker still holds its claim after the whole overhead |
| Window.Reclaimed | internal/storage/repository.go:346-353 | Whenever a claim can outlive the window, a run at that pace has the reaper queue a row under the live worker that holds it |
| Window.CancelledThenSent | internal/storage/repository.go:213-229 | Then the client can cancel the row and the worker overwrites it as sent |
| Window.AcceptedTwice | internal/storage/repository.go:320-329 | Or a second worker claims it, and two live workers have the provider accept one notification twice |
| Window.FinalIsLeftAloneIff | internal/storage/repository.go:196-200 | In all runs at a pace no delivery goes on for a final row, so none after a successful cancel, if and only if the window covers the longest claim |
| Window.SentAfterCancel | internal/storage/repository.go:403-421 | Otherwise a run at that pace cancels a row and has a Send for it accepted afterwards |
| Recovery.Recovers | internal/storage/repository.go:316-331 | From every reachable state, with every Kafka message lost and every live worker and request hung, and for all answers the provider may give, a run without failures and API calls leaves finished rows as they were and makes every other row sent exactly when the first answer that is not a retry comes within the attempts and accepts, and dead otherwise |
| Claims.AttemptsAreAbandonmentsIff | internal/storage/repository.go:201-211 | In every state that runs at a pace reach, attempt_count is the number of abandoned claims for a row that is cancelled, or unfinished and under no worker, and one more otherwise, if and only if the window covers the longest claim |
| Claims.BusyUntilAbandoned | internal/storage/repository.go:201-211 | In every run in time, with any requests, cancels, failed publishes, rollbacks and crashes, a notification that is held or final is not claimed again, nor even idle, unless a claim of it is abandoned |
| Claims.FinishedIff | internal/storage/repository.go:316-331 | Every run in time has finished all notifications if and only if its claims and cancels used up those that were idle, inserted or abandoned and its workers are done; there are never more |
| Claims.RunCounts | internal/storage/repository.go:316-331 | In every run in time claims, cancels and what is still idle add up to what was idle, inserted and abandoned |
| Claims.StepAccounts | internal/storage/repository.go:201-211 | Each step of any process takes exactly the claimed or cancelled notification out of the idle ones and adds exactly the inserted or abandoned ones |
| Liveness.EverythingFinishes | internal/storage/repository.go:316-331 | On every infinite schedule from a reachable state, whatever the reaper's window and with any requests, cancels, crashes, failed publishes and rollbacks, in which time passes, claims end and are not abandoned for ever, no row stays due for a poller for ever and what a poller queued is fetched again, everything there is at one time is final from some later time on |
| Liveness.EveryOneFinishes | internal/storage/repository.go:316-331 | On such a schedule each notification is final at some time after any at which it exists |
| Liveness.LimitedClaimsEnd | internal/worker/pool.go:320-353 | Where no claim outlives some fixed lifetime, of any length, every claim ends |
| Liveness.StuckIff | internal/storage/repository.go:346-353 | What fairness does not allow to last: a row under no worker that is scheduled and due, pending for longer than pendingAfter, or queued or in processing for longer than inflightAfter |
| Liveness.HeldFinishes | internal/worker/pool.go:228-316 | A notification under a worker is final once the claim has ended, also where a second worker or the reaper has taken the row meanwhile |
| Liveness.FinishedRunIsFair | internal/scheduler/reaper.go:52-70 | Every finite run that finishes everything, whatever crashes in it, is the beginning of such a schedule |
| Resumption.FairFromAnywhere | internal/storage/repository.go:316-331 | Every reachable state is the beginning of such a schedule |
| Resumption.AllEnds | internal/storage/repository.go:316-331 | From every reachable state, with its messages, live workers and open transactions, a run without failures finishes every notification, worker and transaction |
| Replay.ReplayClaimsIff | internal/worker/pool.go:252-266 | After any step, the replayed message of a row left in 'processing' by a crash can be claimed if and only if that step was the reaper's commit on the row |
| Replay.ClaimNeedsReap | internal/worker/pool.go:252-266 | In every run, each later claim of such a row comes after a reap of it |
| Replay.StrandedUntilReaped | internal/storage/repository.go:316-331 | Until reaped the row stays as the crash left it in every run, with no claim and no Send, whatever Kafka replays |
| Replay.StepSparesStranded | internal/storage/repository.go:201-211 | No step but the reaper's commit changes such a row |
| Replay.ReplaySkipped | internal/worker/pool.go:262-266 | There is a reachable state after a crash in which no fetch of the replayed message can claim the row |
| Republishing.NoDuplicatesIff | internal/storage/repository.go:316-329 | In all runs of a discipline the reaper selects no pending row whose message is in the log, if and only if failed writes leave nothing there, no process dies between its publish and its update, and requests mark their rows within pendingAfter |
| Republishing.LoggedByRequest | internal/api/handlers.go:59-77 | A failed write that reached the log, or a slow request, leaves a pending row in the log past the grace period |
| Republishing.LoggedByReaper | internal/storage/repository.go:373-391 | So does a reaper that publishes and then loses its transaction |
| Recovery.FinishAll | internal/scheduler/reaper.go:74-104 | Rounds of waiting, dispatching and reaping finish every row, by a decreasing count of unfinished and scheduled rows |
| Recovery.OneRound | internal/scheduler/reaper.go:74-104 | One such round finishes or dispatches at least one row and undoes none |
| Recovery.PollRound | internal/storage/repository.go:258-314 | A poller's batch, when something is eligible, republishes and queues a non-empty set of eligible rows and touches no other |
| Recovery.CompleteAll | internal/storage/repository.go:333-392 | All open transactions can commit, one after the other, without changing a finished row |
| Recovery.DeliverOne | internal/worker/pool.go:228-316 | A queued row with a message in the log ends as the provider's answers lead, retries included |
| Recovery.DeliverAll | internal/worker/pool.go:228-316 | And so does every republished row, independently of the others |
| Preservation.ReachableInv | internal/domain/notification.go:36-54 | The whole invariant holds in every reachable state |
| Preservation.RunKeeps | internal/domain/notification.go:36-54 | It is kept by every run |
| Preservation.StepKeeps | internal/domain/notification.go:36-54 | It is kept by every step of every process |
| Preservation.InsertKeeps | internal/storage/repository.go:52-57 | Inserting a list of drafts keeps keys unique, history and locks in agreement, and gives each new row to one request only |
| Preservation.LookupKeeps | internal/storage/repository.go:156-181 | Answering a conflict with the key's holder keeps all replies true |
| Preservation.PublishKeeps | internal/api/handlers.go:46-78 | A publish, complete or partial, keeps every record genuine and due |
| Preservation.MarkQueuedKeeps | internal/storage/repository.go:186-194 | Queueing published rows keeps the invariant whatever happened to them in between |
| Preservation.ClaimKeeps | internal/storage/repository.go:201-211 | A claim keeps the count of claims within reaps plus one |
| Preservation.DeliverKeeps | internal/worker/pool.go:320-353 | A Send, a retry or an interrupted backoff spends at most the claim it is made under |
| Preservation.DeadLetterKeeps | internal/queue/dlq.go:48-70 | A dead letter, acknowledged or not, keeps payloads and provenance |
| Preservation.FinishKeeps | internal/storage/repository.go:213-240 | The unguarded final writes keep the invariant, on whatever status they find |
| Preservation.SelectKeeps | internal/storage/repository.go:270-276 | Selecting with skipped locks keeps lock sets disjoint and picks only what is due |
| Preservation.RepublishKeeps | internal/storage/repository.go:298-300 | A poller's publish, also one that fails in part, publishes nothing before its time |
| Preservation.CommitKeeps | internal/storage/repository.go:302-313 | The commit keeps the invariant and the other transactions' rows |
| Preservation.CancelKeeps | internal/storage/repository.go:403-421 | So does a cancel |
| Preservation.FetchedIsGenuine | internal/queue/kafka.go:28-46 | A message on one of a pool's topics carries its row's columns, belongs to that channel and is due |
| Refinement.ProcessRefinesProtocol | internal/worker/pool.go:228-316 | Every outcome of one job, errors and shutdown included, from any state of the others, is a run of the protocol that takes as long and leaves the same table, the same dead letters and counters moved by its claim, its Sends and its acceptance; nothing else changes, and no claim outlives a limit on the way that it does not outlive at the end |
| Refinement.JobCarriesRow | internal/worker/pool.go:320-321 | In every reachable state the provider request built from a fetched message has the stored row's recipient, content and channel, and the channel is the pool's own |
| Refinement.JobFits | internal/worker/pool.go:320-353 | A job within the bounds of its parts is done within the worst case plus the overhead of its claim |
| Refinement.DeliverRuns | internal/worker/pool.go:320-353 | Every course of the retry loop is a run of the protocol's delivery steps with the same Sends and acceptances that advances the clock by the time the loop takes |
| Refinement.PollRefinesProtocol | internal/storage/repository.go:258-314 | One batch of either poller, beside any other transactions, is a select, publish and commit or rollback with the same table and records |
| ApiRefinement.CreateRefinesProtocol | internal/api/handlers.go:81-195 | A whole create request, single or batch, database errors included and from any state of the others, is a run of the protocol with the same table and the same published records; item by item its reply says created with the item's own row, or names the row shown: for a batch as a duplicate, for a single create as a replay if it has the payload and as a mismatch if not |
| Storage.FoldSorts | internal/storage/repository.go:112-125 | A result is marked duplicate exactly when its draft is not in the table, and otherwise holds its new row |
| Storage.ItemIsSettled | internal/storage/repository.go:95-142 | An item is a duplicate exactly when a stored row or an earlier item has its key, and is answered with that row or the row of the first such item; otherwise with its own row, pending or scheduled, with no attempt |
| Storage.TableIsSettled | internal/storage/repository.go:95-142 | After the batch the table holds every row it held, unchanged, and the rows of the items that are no duplicates, and no other |
| Storage.ItemIsOrigin | internal/storage/repository.go:130-139 | Each item of any batch is answered with its own row, the row that held its key before, or the row of the first item with its key; it is shown its own payload exactly when that one carries it |
| Guarantees.BatchPointsElsewhere | internal/api/handlers.go:179-192 | A batch item can be answered with a row of another payload |
| ApiRefinement.LookupAll | internal/storage/repository.go:130-139 | All conflicts of a request are answered with the rows that hold their keys |
| Storage.LateLookup | internal/storage/repository.go:130-139 | Looking duplicates up after all inserts finds the row that looking each up at once would have found, also for keys repeated in the batch |
| Storage.FoldIsInsertAll | internal/storage/repository.go:52-57 | Creating one by one leaves the table that the inserts alone leave |
| Storage.Repository.Create | internal/storage/repository.go:76-90 | Inserts a fresh row, pending or scheduled, exactly when no row has the key; returns the key's row otherwise; an error changes nothing |
| Storage.Repository.CreateBatch | internal/storage/repository.go:95-142 | Same table and results as folding Create; an insert or commit error leaves the table alone, a failed lookup leaves the rows inserted and fails only if there were duplicates |
| Storage.Repository.InsertPass | internal/storage/repository.go:102-125 | The first pass yields the fold's table, its results without the stored rows, and the keys to look up |
| Storage.Repository.Resolve | internal/storage/repository.go:130-139 | The second pass completes them to the fold's results |
| Storage.Repository.GetByKeys | internal/storage/repository.go:165-181 | Finds exactly the given keys that are in use, each with its holder |
| Storage.Repository.MarkQueued | internal/storage/repository.go:183-194 | Queues and stamps exactly the pending ones among the given rows and leaves every other row alone |
| Storage.Repository.MarkProcessing | internal/storage/repository.go:196-211 | Claims, with one more attempt, exactly a queued or pending row; otherwise changes nothing |
| Storage.Repository.MarkSent | internal/storage/repository.go:213-229 | Overwrites the row as sent whatever its status, with the time, the provider's id if it is not empty, and no error; draft, attempts and every other row stand |
| Storage.Repository.MarkDead | internal/storage/repository.go:231-240 | Overwrites the row as dead whatever its status, with the error; every other column and row stands |
| Storage.Repository.Cancel | internal/storage/repository.go:400-421 | Cancels exactly pending, queued and scheduled rows; answers too late exactly for processing, sent, dead and cancelled ones, and not found for a missing one; only status and stamp of that row change |
| Storage.Repository.SelectForUpdate | internal/storage/repository.go:270-276 | Returns eligible unlocked rows in order, without repetition, and leaves one out only when the limit is spent on rows no later |
| Table.DispatchBatchIff | internal/storage/repository.go:270-276 | The scheduler's query returns exactly this: distinct unlocked rows, scheduled and due, by ascending scheduled time, with another such row left out only when the limit is spent on rows due no later |
| Table.ReapBatchIff | internal/storage/repository.go:346-353 | The reaper's query returns exactly this: distinct unlocked rows, pending for longer than pendingAfter or queued or processing for longer than inflightAfter, by ascending updated_at, with another such row left out only when the limit is spent on rows no younger |
| Storage.Repository.DispatchDue | internal/storage/repository.go:258-314 | Queues exactly the batch it selected and published; on any error the table is unchanged |
| Storage.Repository.ReapStuck | internal/storage/repository.go:333-392 | The same for stuck rows, returned with the status they had |
| Table.InsertAllEffect | internal/storage/repository.go:52-57 | After any list of inserts each draft is there as a fresh row or lost to a holder of its key, nothing else was added and nothing changed |
| Table.BatchExists | internal/storage/repository.go:346-353 | The poller's query always has an answer, a non-empty one when anything is eligible |
| Polling.Scheduler.Tick | internal/scheduler/scheduler.go:56-70 | For every non-zero batch size the tick ends; what it dispatched over all batches was scheduled and due, without repetition and by ascending scheduled time though the clock moves between batches; those rows are queued and stamped, every other row is as before, and without a failure nothing scheduled is due at its last reading |
| Polling.DueOrderGrows | internal/scheduler/scheduler.go:53-70 | A batch taken at a later reading continues the due order of all earlier ones |
| Polling.Reaper.Tick | internal/scheduler/reaper.go:72-104 | A tick shorter than the window ends, reaps no row twice and only rows pending or in flight for too long; those are queued and stamped, every other row is as before; without a failure every row stuck at its start was reaped and none is stuck at its last reading |
| Polling.ReapedAgainIff | internal/storage/repository.go:316-331 | A reaped row is eligible again exactly when its stamp is more than the window ago |
| Polling.LongTickNeverEnds | internal/scheduler/reaper.go:72-104 | When each round outlasts the window, one stuck row is reaped in every round and the tick never ends |
| Polling.ReapRound | internal/storage/repository.go:346-385 | One batch takes only rows not yet reaped, and a short one leaves nothing stuck |
| Polling.Round | internal/scheduler/reaper.go:74-104 | A non-empty batch of either poller leaves strictly fewer rows to take |
| Polling.ZeroBatchNeverEnds | internal/scheduler/scheduler.go:66-68 | With a batch size of zero a round changes nothing and the exit test fails |
| Delivery.Deliver | internal/worker/pool.go:320-353 | At most maxAttempts Sends; each but the last failed to be built or sent, or was answered 429 or 5xx, and its pause was not cut short; a last answer of 200 or 202 is a success with its id, any other status a rejection, and otherwise the attempts are used up or the pause was cut short; it lasts no longer than the worst case |
| Delivery.EndsByAnswers | internal/provider/client.go:75-115 | The same of every possible count of Sends: the answers and the interruptions alone decide how a delivery ends, for every status code |
| Delivery.RetriesToTheEnd | internal/worker/pool.go:325-352 | While each Send fails without a response or is answered 429 or 5xx and no pause is cut short, exactly maxAttempts Sends are made and the delivery fails as exhausted |
| Delivery.DeliveryFits | internal/worker/pool.go:325-352 | However it ends, a delivery lasts at most attempts x timeout plus the backoffs |
| Delivery.BackoffSumClosed | internal/worker/pool.go:342-349 | The linear backoffs of n attempts add up to base x n(n-1)/2 |
| Delivery.WorstCaseHappens | internal/worker/pool.go:325-352 | The bound is reached by a provider that times out on every attempt |
| Delivery.FloorInflight | cmd/scheduler/main.go:62-68 | Yields the configured window or timeout x attempts + 30 s, whichever is longer |
| Delivery.FloorCoversIff | cmd/scheduler/main.go:58-68 | The floored window covers every delivery plus an overhead, for every configured value, if and only if backoffs and overhead fit into the 30 s |
| Delivery.DefaultBackoffFitsIff | cmd/scheduler/main.go:58-68 | With the default base backoff the pauses fit into the 30 s for at most eleven attempts, and for no more |
| Delivery.LetterCountIff | internal/worker/pool.go:298-304 | The attempt count of a dead letter is the number of Sends made if and only if no Send before the maximum ended the delivery |
| Delivery.LetterOvercounts | internal/worker/pool.go:298-304 | A message rejected at once is sent once while its letter counts the maximum |
| WorkerPool.Pool.Process | internal/worker/pool.go:224-316 | A row is claimed exactly when it is queued or pending; each provider call has the message's recipient, channel and content; the offset is offered for commit when the claim was lost, the delivery ended without an error or the dead letter was written, and in no other case; the row ends sent with the provider's id and time, dead with the error, or in processing, by the delivery and the errors; a dead letter carries the message, the error, the configured maximum and the time; a commit stands for a final row or a dead letter exactly when they earn it |
| WorkerPool.CommitAfterOutcomeIff | internal/worker/pool.go:257-316 | A committed offset stands for a final row or a dead letter if and only if the row was claimable and its delivery failed or the update that records it did not, or the row was final already |
| WorkerPool.AcceptanceUnwritten | internal/worker/pool.go:277-289 | A queued row, a 202 and a failed update: the offset is committed and the row stays in 'processing' |
| WorkerPool.Pool.Next | internal/worker/pool.go:194-222 | Without interference takes the head of the first non-empty buffer, and gives up only on shutdown with high and normal empty |
| WorkerPool.Pool.Drain | internal/worker/pool.go:184-222 | With no arrivals, repeated next returns the high, then the normal, then the low jobs, each in order |
| WorkerPool.Pool.Enqueue | internal/worker/pool.go:387-396 | A fetched job joins the end of its own priority's buffer only |
| PoolModel.BoundedInversion | internal/worker/pool.go:194-222 | While the high buffer is never empty, however jobs arrive and senders interleave, no more normal and low jobs are taken than senders were past their first select at the start |
| PoolModel.InversionsReached | internal/worker/pool.go:194-222 | The bound is reached from every state: each sender past its fast path can take a lower job while high stays ready |
| PoolModel.StrictIff | internal/worker/pool.go:194-222 | Strict priority is never broken from a state while high stays ready if and only if no sender is past its fast path |
| PoolModel.NextIsRun | internal/worker/pool.go:196-222 | The sequential next is one of these runs: same selects, same job, same buffers |
| PoolModel.InversionsSpendExposure | internal/worker/pool.go:196-214 | Each inversion uses up one sender past its fast path, and none joins them |
| PoolModel.LowerLanesWait | internal/worker/pool.go:196-222 | A normal job is handed out only if high was seen empty during that call, a low one only if high and normal were seen empty together |
| PoolModel.RunConserves | internal/worker/pool.go:149-222 | Fetched jobs are exactly those taken, buffered, held by a fetcher or dropped at shutdown |
| Validation.NewNotification | internal/domain/validate.go:52-110 | Reports exactly the rules a request breaks, once each, in order and with their messages, and otherwise builds the draft with the request's own fields: the channel its text names, High for "high", Low for "low", Normal for "normal" or nothing, and a schedule later than its creation |
| Validation.ReportNames | internal/domain/validate.go:52-110 | A field is named exactly when: the recipient is blank or over 320 bytes; the channel is not sms, email or push; the content is blank or over 160, 10000 or 512 characters for these; the priority is none of the three nor empty; the key is blank; the schedule is not in the future |
| Validation.ReportSays | internal/domain/validate.go:52-110 | Each named field has its message, with the limit of the channel that was exceeded |
| Validation.ReportOrder | internal/domain/validate.go:52-110 | The fields are named in the order of the rules, none twice |
| Validation.TrimmedAwayIff | internal/domain/validate.go:55-56 | A field is blank exactly when trimming white space from both ends leaves nothing |
| Validation.BytesOfCharacters | internal/domain/validate.go:55-59 | The recipient's limit counts bytes: one to four a character by its code point, and as many as characters exactly for ASCII |
| Handlers.Handler.PublishAndQueue | internal/api/handlers.go:46-78 | Publishes exactly the pending rows, each record with its row's recipient, content, channel, priority and creation time on the topic these name, and queues them if that succeeded; a failed publish leaves them pending and the caller unaffected |
| Handlers.WrittenAre | internal/queue/kafka.go:119-138 | Whatever part of a write reaches the log tells of pending rows, field by field |
| Handlers.PublishedRows | internal/api/handlers.go:46-78 | After publish-and-queue a row is queued and stamped exactly when it was pending, is among the published ones, and publish and update went through; every other row stands |
| Handlers.RecordIsAsked | internal/queue/kafka.go:28-46 | The record of a request has its recipient and content and goes to the topic its own text names, "channel.priority" with "normal" for an empty priority |
| Handlers.Handler.CreateNotification | internal/api/handlers.go:81-129 | Each response code occurs exactly under its condition; a stored row is replayed exactly to a request with its recipient, channel and content, and conflicts otherwise; a new row has the request's fields, is stored and shown, nothing else in the table changes, and its record, if it is due and got through, has the request's fields on the topic its text names |
| Handlers.Handler.CreateBatch | internal/api/handlers.go:132-195 | 0 or more than 1000 items are refused; any invalid item rejects the batch, with the report of the first one, before anything is written; a server error leaves the table alone, or with the rows inserted if only the lookup failed, and publishes nothing; otherwise an item is a duplicate exactly when a stored row or an earlier item has its key and shows the row of its origin, a new one shows its own draft as scheduled, queued or pending, created and duplicates add up, and table and log are those of single creates |
| Handlers.ItemIsShown | internal/api/handlers.go:170-195 | What the response shows for each item: the stored row of its key, the row of the first item with its key as inserted, or its own row as scheduled, queued or pending |
| Handlers.BatchIsStored | internal/api/handlers.go:170-195 | After the whole request every row that was there is unchanged, and the only new ones are those of new items |
| Handlers.ItemIsStored | internal/api/handlers.go:170-195 | Each new item's row is there, scheduled, queued or pending by its schedule and the publish |
| Handlers.BatchIsWritten | internal/api/handlers.go:170-195 | The records a batch adds are those of its new items that are due, and all of them when the write is acknowledged |
| Handlers.Handler.Items | internal/api/handlers.go:179-195 | Each new item shows its own row after publish-and-queue, each duplicate the row as looked up |
| Handlers.Handler.Account | internal/api/handlers.go:179-192 | Counts the duplicates, collects exactly the new rows, and the two add up to the batch |
| Domain.TopicsAreDistinct | internal/queue/kafka.go:21-46 | A work topic determines its channel and priority, and no work topic is a dead-letter topic |
| Runs.SentUnearned | internal/worker/pool.go:325-352 | With no attempts configured there is a run that marks a row sent without a provider call |

## Left out

- Recovery.Recovers: the way back is one that nobody calls the API on; Liveness.EverythingFinishes is about all schedules.
- Liveness.EverythingFinishes: that tickers fire, consumers poll and claims end is assumed as fairness, not derived from the service loops.
- Refinement.ProcessRefinesProtocol: the others stand still while the job runs; how their steps mix with it is in the protocol, not in the method.
- ApiRefinement.CreateRefinesProtocol: the others stand still while the request runs; the replies of the protocol include those of a request that was answered with an error.
- WorkerPool.Pool.Process: a database or broker error that was reported although the write took effect is a crash or a partial write in the protocol, not in this method; the letter's correlation id is left out.
- WorkerPool.Pool.Next: one goroutine at a time; PoolModel has the interleavings.
- Handlers.Handler.CreateNotification: a database error that was reported although the insert took effect is an abandoned request in the protocol.
- Delivery.Deliver: a Send the provider accepted but whose answer was lost counts as retryable and not as an observed acceptance; a pause lasts at most its backoff, without timer overshoot.
- Delivery.FloorInflight: does not model the overflow of 64-bit durations.
- Polling.Reaper.Tick: no concurrent writers during the tick, and the per-status counts it logs are left out; with writers the protocol applies.
- Polling.Scheduler.Tick: no concurrent writers during the tick; with writers the protocol applies.
- Postgres itself: each statement is an atomic guarded update, not enabled while another transaction holds a row it would change; a poller's update and commit are one step; deadlocks and isolation beyond that are left out.
- Kafka partitions, consumer groups and stored offsets: any published record may be fetched any number of times or never.
- The rate limiter's body: its wait either lets the job pass or is cancelled.
- JSON, headers, tracing, metrics, logging, correlation ids, configuration parsing and HTTP routing.
- UUID generation: ids are fresh by assumption.
- GetNotification, listing with pagination, GetBatch with BatchSummary, and topic enumeration: reads that change nothing.
- Clock skew: one clock; leases are timed from the updated_at a statement wrote.
