# Incident management backend: a verified model

The project models the stateful core of the backend and proves what survives its concurrency, its
retries and its caches.

| file | what it holds |
|---|---|
| `Models.dfy` | the records, RCA validation, the four workflow states |
| `Retries.dfy`, `Stores.dfy`, `Redis.dfy` | the three-attempt loops; the Postgres tables, the Mongo collection and the Redis keys as classes |
| `TokenBuckets.dfy`, `RateLimiting.dfy` | one bucket's arithmetic; the limiter as objects, and its sweep |
| `Debounce.dfy`, `IngestionRaces.dfy`, `IngestionRefinement.dfy`, `Ingestion.dfy` | `Resolve` as one step across processes; ingestion as separate steps; how the two fit; the two handlers |
| `WorkflowRaces.dfy`, `Machine.dfy`, `WorkflowRefinement.dfy` | `Transition` and `SubmitRCA` as interleaved steps; as whole operations; and how the two fit |
| `Pools.dfy`, `PoolRaces.dfy`, `PoolRefinement.dfy`, `PoolAccounting.dfy` | queue and pool as objects; goroutine steps and conservation; how the two fit; accounting, shutdown |
| `Listings.dfy`, `Dashboard.dfy`, `DashboardRaces.dfy` | the list and count queries; the dashboard handlers and their cache; interleaved builds |
| `Escalation.dfy`, `EscalationRaces.dfy`, `EscalationRefinement.dfy` | one pass over the active items, and passes over time; passes of several instances, write by write; how the two fit |

Files whose source changes state step by step hold classes whose methods are proved against
specification functions; lemmas then say what those functions guarantee. Concurrency is modelled by
runs: a run is any sequence of actions, `Apply` says what one action does, an action that does not
fit the state changes nothing, and each main result holds after every run. A store's behaviour is an
input: every attempt of a retried call is acknowledged, applied with its acknowledgement lost, or
failed, and a list of attempts shorter than three stands for a context that is done.

## What the proofs say about the code

- The sweep of idle rate-limit buckets is invisible exactly when a bucket refills within the ten
  minutes that make it stale, or can never serve a request (`SweepInvisibleIff`), and exactly then
  capacity + rate * elapsed bounds every window (`RateBoundedIff`). The limits in use, 200 and 100 per
  second, satisfy this; for others `SweepSeen` gives a run that shows it. Optimality and the waiting
  rule hold for all limits (`KeyGreedyOptimal`, `SpacedKeyNeverRefused`).
- The reset time is cut to whole nanoseconds. A key that waits it is never refused exactly when nothing
  was cut (`ResetHonestIff`): true at 100 per second, not at 3.
- `CLOSED` is called terminal in `state.go`. With whole operations in sequence it is
  (`ClosedIsTerminal`): signals may still be counted on the row, and nothing else about it changes but
  its update time and severity. With concurrent requests it is final exactly when no request already past its
  checks still has to write another state (`ClosedFinalIff`), and such a request does occur
  (`ClosedCanReopen`). The RCA, its MTTR and the resolved time survive either way (`ClosedHasRCA`).
- A `Transition` reported as failed has changed nothing exactly when it failed its checks or every
  attempt of its write failed (`FailureChangesNothingIff`; `SubmitFailureChangesNothingIff` for an RCA).
  A write applied without being acknowledged moves the item and is reported as an error
  (`ReportedFailureMayMove`, `ReportedFailureMayStore`). A present dashboard entry stays right exactly
  when a write that takes effect is also reported and the entry deleted (`TransitionKeepsEntryIff`);
  otherwise it shows the old totals (`UnreportedMoveIsNotShown`).
- Deleting the dashboard entry after each change does not keep it right when builds interleave: a build
  that read the table before may save after (`LateSaveIsStale`). A present entry is right if each change
  after a saved build's first read is followed by a deletion after that save (`PresentEntryIsCurrent`).
- The chart runs two replicas, each with its own escalator, and their updates carry no guard. A severity
  can fall exactly while one of them still has a lower one to write (`NeverBelowIff`), which does occur
  (`SeverityMayFall`); with one instance it never falls (`OneInstanceNeverFalls`).
- `main.go` waits for the workers "to drain the queue". Workers may exit on cancellation with signals
  still queued: the wait is sure to end with an empty queue exactly when the queue is empty by the time
  the workers are cancelled and the producers have stopped (`DrainsIff`), which need not be so
  (`QueueMayNotDrain`). What is guaranteed is that every signal sent was processed, failed, or is still
  in the channel (`ShutdownTerminates`).

Where the documentation and the code differ, the model follows the code:

- The debounce window is documented as 10 seconds. The Redis entry lasts 15, and the in-process entry
  has no expiry: `Expire` has no caller, so within one process a component keeps its first work item
  (`IngestionRaces.SettledForGood`).
- Escalation is documented as time spent in INVESTIGATING. The code measures from the item's creation.
- `SubmitRCA`'s comment asks for RESOLVED. The code also accepts INVESTIGATING.
- `docs/architecture.md` gives the dashboard entry 30 seconds. The code gives it 3.
- `GetSignalsPerSecond` is described as an average over five seconds. The code divides by the number of
  buckets present.
- A signal that opens a work item is counted in the initial 1 and again by a worker, so counts are one
  ahead of documents.

## Model

| member | source | states |
|---|---|---|
| RateLimiting.SweepInvisibleIff | backend/internal/ingestion/ratelimiter.go:73-114 | for every run of requests and sweeps on any keys, each key's answers and remaining tokens equal those of its own never-deleted bucket, if and only if capacity < 1 or capacity <= 600 * rate |
| RateLimiting.SweepSeen | backend/internal/ingestion/ratelimiter.go:96-114 | otherwise some ordered run lets through a request the key's own bucket refuses |
| RateLimiting.RateBoundedIff | backend/internal/ingestion/ratelimiter.go:29-114 | requests i to j-1 of a key let through at most capacity + rate * elapsed, for every run, key and window, if and only if capacity < 1 or capacity <= 600 * rate |
| RateLimiting.KeyGreedyOptimal | backend/internal/ingestion/ratelimiter.go:29-114 | for all limits and wherever the key's bucket is swept: after every prefix the limiter has let through at least as many as any rule that never overdraws one bucket of the same limits |
| RateLimiting.SpacedKeyNeverRefused | backend/internal/ingestion/ratelimiter.go:29-114 | for all limits with room for a token, swept or not: a key that waits a token's time between requests is never refused |
| RateLimiting.ResetHonestIff | backend/internal/ingestion/ratelimiter.go:91-92 | every key that waits the advertised reset time is never refused, if and only if the bucket has room for a token and a token's time is a whole number of nanoseconds |
| RateLimiting.ResetMeans | backend/internal/ingestion/ratelimiter.go:91-92 | the reset time is the largest whole number of nanoseconds in which at most a token accrues |
| RateLimiting.FirstRequestsAllowed | backend/internal/ingestion/ratelimiter.go:19-43 | in every run as many of a key's first requests as a full bucket has whole tokens are let through |
| TokenBuckets.AnswerMeans | backend/internal/ingestion/ratelimiter.go:29-48 | verdict, tokens kept and tokens told of any bucket at any time: filled at its rate up to its capacity, one token taken if there is one, the rest told cut to a whole number |
| TokenBuckets.SpendingBound | backend/internal/ingestion/ratelimiter.go:29-43 | admitted requests plus tokens left never exceed initial tokens plus what the clock put in |
| TokenBuckets.GreedyOptimal | backend/internal/ingestion/ratelimiter.go:29-43 | optimality for one bucket from any starting level |
| RateLimiting.TokenBucket.constructor | backend/internal/ingestion/ratelimiter.go:19-26 | a new bucket is full and dated now |
| RateLimiting.TokenBucket.Allow | backend/internal/ingestion/ratelimiter.go:29-43 | new tokens, refill time and verdict as the bucket specification gives them |
| RateLimiting.RateLimiter.constructor | backend/internal/ingestion/ratelimiter.go:61-69 | no buckets, the given limits, whatever they are |
| RateLimiting.RateLimiter.Allow | backend/internal/ingestion/ratelimiter.go:73-94 | the table of buckets after a request, its answer, and the reset time cut to nanoseconds; other keys untouched, no two keys share a bucket object |
| RateLimiting.RateLimiter.Cleanup | backend/internal/ingestion/ratelimiter.go:98-114 | exactly the buckets unused for over 600 seconds are gone, and the others are untouched |
| Debounce.Debouncer.Resolve | backend/internal/ingestion/debounce.go:42-93 | outcome, local map, Redis windows, work items and dashboard entry after one call, for every behaviour of the stores |
| Debounce.Debouncer.Expire | backend/internal/ingestion/debounce.go:98-100 | exactly that component leaves the local map |
| Debounce.EndedWindowCreates | backend/internal/ingestion/debounce.go:55-92 | in every run: a call whose process does not know the component and that finds no row inserted for it in the last 15 s, or no answer, opens a new work item unless every attempt fails, and is linked to it if the first answer is an acknowledgement |
| Debounce.LiveWindowLinks | backend/internal/store/redis.go:103-119 | within 15 s of a registered opening with no other since, a call of any process that does not know the component is linked to that work item and inserts nothing |
| Debounce.NeighboursApart | backend/internal/ingestion/debounce.go:55-84 | two successive work items of a component: the first window was not registered, or the second lookup failed, or they are 15 s apart |
| Debounce.WindowBound | backend/internal/ingestion/debounce.go:42-93 | across instances, restarts and expiries, the work items of one component within less than 15 s number at most 1 plus the failed lookups and registrations of their own calls |
| Debounce.FaultFreeApart | backend/internal/store/redis.go:101-119 | with no failures work items of one component are at least 15 s apart |
| Debounce.OneItemPerProcess | backend/internal/ingestion/debounce.go:46-53 | in one process, until it restarts or the component is expired, every later signal of a linked component is linked to the same item and inserts nothing, however late and whatever Redis answers |
| IngestionRaces.CreationsBounded | backend/internal/ingestion/debounce.go:46-84 | once a component is in a process's local map, the rows that process still inserts for it come from, and number at most, the calls already past their local lookup |
| IngestionRaces.SettledForGood | backend/internal/ingestion/debounce.go:46-53 | with no such call left, nothing more is inserted and every later call returns one and the same id |
| IngestionRaces.EveryReferenceHasItsRow | backend/internal/ingestion/handler.go:109-141 | in every interleaving with failures, retries and restarts, ids returned, held in either layer, queued, in hand or stored in documents name inserted rows |
| Ingestion.Handler.IngestSignal | backend/internal/ingestion/handler.go:54-168 | the limiter's table; if it refuses, nothing else changes; else both debounce layers, work items, dashboard entry, queue, counters, throughput buckets and response, the new item having the severity of its component type |
| Ingestion.Handler.IngestBatch | backend/internal/ingestion/handler.go:172-245 | the limiter's table, once; if it refuses or the batch is oversized nothing else changes; else state and responses are those of the requests one after the other |
| Ingestion.BatchLinksAndEnqueues | backend/internal/ingestion/handler.go:209-245 | one response per request, the queue gains exactly the accepted signals in order and linked to existing items, within capacity, and refusals are counted |
| Ingestion.IngestAnswers | backend/internal/ingestion/handler.go:118-141 | each answer, and what it does to the queue and its counters |
| Ingestion.AcceptedMeans | backend/internal/ingestion/handler.go:109-166 | an accepted signal is reported as debounced exactly when no row was inserted; an item it opens is OPEN, counts one signal, has the request's severity, and takes the dashboard entry with it |
| Ingestion.AcceptedLinks | backend/internal/ingestion/debounce.go:46-92 | it is linked to what its process remembers, failing that to a window that has not ended, and only failing both to a new item |
| Ingestion.ThroughputCounts | backend/internal/ingestion/handler.go:146-150 | an accepted signal adds one to its second's live count unless the pipeline is lost; no other request does |
| Ingestion.SeverityTable | backend/internal/alerting/dispatcher.go:14-21 | P0 for databases and queues, P1 for NoSQL, API and MCP hosts, P2 for anything else |
| IngestionRefinement.ResolveIsUndisturbed | backend/internal/ingestion/debounce.go:42-93 | one call's separate steps, with nothing between and however the stores answer, return and leave what Resolve as one step does |
| Models.ValidateMeans | backend/internal/models/models.go:138-164 | an RCA is valid exactly when its fields are filled in, in order and long enough, and otherwise the first complaint is reported |
| WorkflowRaces.ClosedHasRCA | backend/internal/workflow/machine.go:36-155 | in every interleaving a CLOSED item has its one RCA row with every field complete; its MTTR times 60 is that incident's seconds, and positive; its resolved time is set |
| WorkflowRaces.SettledForGood | backend/internal/store/postgres.go:104-125 | an MTTR once set never changes, nor does an RCA row |
| WorkflowRaces.NoStateSkipped | backend/internal/workflow/machine.go:48-87 | a state not held before is entered only after the state that leads to it was held |
| WorkflowRaces.RCAAfterInvestigating | backend/internal/workflow/machine.go:115-144 | an RCA row exists only for an item that has been INVESTIGATING |
| WorkflowRaces.HeldMeans | backend/internal/workflow/machine.go:36-111 | the recorded history of an item is exactly the states it had after some prefix of the run |
| WorkflowRaces.ClosedFinalIff | backend/internal/workflow/state.go:67-75 | a CLOSED item stays CLOSED in every continuation if and only if no request past its checks is about to write another state to it |
| WorkflowRaces.ClosedCanReopen | backend/internal/workflow/machine.go:40-87 | a run that closes an item while such a request is pending |
| Machine.Machine.Transition | backend/internal/workflow/machine.go:36-111 | result, tables and dashboard entry for every behaviour of the stores |
| Machine.Machine.SubmitRCA | backend/internal/workflow/machine.go:115-155 | result and tables for every behaviour of the stores |
| Machine.TransitionSucceedsIff | backend/internal/workflow/machine.go:48-111 | in every reachable database, with the stores up, a transition succeeds if and only if it is a step of the workflow and, for CLOSED, an RCA row exists; the row then has its new state, update time and stamp, when closing the incident's length in minutes, and nothing else changes; a failure changes nothing |
| Machine.TransitionAnswers | backend/internal/workflow/machine.go:36-111 | which error each database and each behaviour of the stores gives, and when it succeeds |
| Machine.SubmitSucceedsIff | backend/internal/workflow/machine.go:115-155 | in every reachable database, with the stores up, a submission succeeds if and only if the RCA is complete field by field, its id unused and its item INVESTIGATING or RESOLVED without one; a failure changes nothing |
| Machine.SubmitAnswers | backend/internal/workflow/machine.go:115-155 | which error each database and each behaviour of the stores gives, the first complaint included, and when it succeeds |
| Machine.FailureChangesNothingIff | backend/internal/workflow/machine.go:36-111 | however the stores answer, a transition reported as failed changed nothing if and only if it failed its checks or every attempt of its write failed |
| Machine.SubmitFailureChangesNothingIff | backend/internal/workflow/machine.go:115-155 | a submission reported as failed changed nothing if and only if it failed its checks, the table refused the row, or every attempt failed |
| Machine.ReportedFailureMayMove | backend/internal/store/postgres.go:280-302 | from a reachable database, a transition that reports an error and has moved its item |
| Machine.ReportedFailureMayStore | backend/internal/store/postgres.go:280-302 | and a submission that reports an error and has stored its RCA |
| Machine.ClosedIsTerminal | backend/internal/workflow/state.go:67-75 | with operations in sequence, signal counting and escalation among them, a CLOSED row keeps its state, stamps and MTTR; only its severity, count and update time may change |
| WorkflowRefinement.TransitionIsUndisturbed | backend/internal/workflow/machine.go:36-111 | for every behaviour of the stores, the whole operation does to the tables what its separate steps do when nothing comes between |
| WorkflowRefinement.SubmitIsUndisturbed | backend/internal/workflow/machine.go:115-155 | the same of SubmitRCA |
| Machine.EveryItemCanBeClosed | backend/internal/workflow/machine.go:48-87 | from every reachable database an item with k states left is closed by k transitions and at most one SubmitRCA |
| Retries.AtLeastOnce | backend/internal/store/postgres.go:280-302 | a reported success took effect one to three times, a reported failure at most three, exactly once or never if no acknowledgement is lost |
| Retries.AppliedWhen | backend/internal/store/postgres.go:280-302 | an update takes effect at exactly the attempts that are reached and do not fail |
| Retries.AckedIff | backend/internal/store/postgres.go:280-302 | a call reports success if and only if some attempt was acknowledged |
| Retries.InsertedIff | backend/internal/store/mongo.go:173-195 | an insert reports success if and only if it was not refused and its first answer was an acknowledgement |
| Retries.StoredIff | backend/internal/store/mongo.go:173-195 | it is stored if and only if it was not refused and some attempt did not fail |
| Retries.InsertOnce | backend/internal/store/mongo.go:173-195 | a keyed insert is stored at most once, a reported success stored it, and an unreported one had its acknowledgement lost |
| Stores.PostgresStore.WithRetry | backend/internal/store/postgres.go:280-302 | the row after every attempt that took effect, and the verdict |
| Stores.PostgresStore.CreateWorkItem | backend/internal/store/postgres.go:69-81 | the table after the retried insert, under its primary key |
| Stores.PostgresStore.CreateRCA | backend/internal/store/postgres.go:241-255 | the table after the retried insert, under its keys and checks |
| Stores.PostgresStore.UpdateWorkItemState | backend/internal/store/postgres.go:104-125 | state, stamps and MTTR after the retried update |
| Stores.PostgresStore.UpdateWorkItemSeverity | backend/internal/store/postgres.go:129-136 | severity after the retried update |
| Stores.PostgresStore.IncrementSignalCount | backend/internal/store/postgres.go:138-145 | one increment per attempt that took effect |
| Stores.CountedTimes | backend/internal/store/postgres.go:138-145 | n effects add n to the count and touch nothing else but the update time |
| Stores.StateWrittenOnce | backend/internal/store/postgres.go:104-125 | repeating a state update leaves what its last effect wrote |
| Stores.MongoStore.InsertSignal | backend/internal/store/mongo.go:99-104 | the collection after the retried insert, under its id |
| Redis.RedisStore.SetDebounceEntry | backend/internal/store/redis.go:103-106 | the window set for 15 s unless the call failed |
| Redis.RedisStore.GetDebounceEntry | backend/internal/store/redis.go:109-119 | the live window's work item, or none |
| Redis.RedisStore.SetDashboardState | backend/internal/store/redis.go:66-72 | the entry set for 3 s unless the call failed |
| Redis.RedisStore.GetDashboardState | backend/internal/store/redis.go:76-89 | the live entry, or a miss |
| Redis.RedisStore.InvalidateDashboard | backend/internal/store/redis.go:92-94 | the entry gone unless the call failed |
| Redis.RedisStore.IncrementSignalCounter | backend/internal/store/redis.go:126-133 | the buckets after a pipeline that was lost, stopped after INCR, or completed |
| Redis.RedisStore.GetSignalsPerSecond | backend/internal/store/redis.go:136-161 | the result times the buckets present is the window's total; 0 when there are none or the read fails |
| Redis.WindowIsLog | backend/internal/store/redis.go:126-161 | at any time the buckets read sum to the increments logged in the current and four previous clock seconds |
| Redis.RateOfLog | backend/internal/store/redis.go:136-161 | the rate times the seconds of the five that counted anything is the increments logged in them, and 0 if there were none |
| Redis.BucketLastsTenSeconds | backend/internal/store/redis.go:126-133 | a second's bucket goes ten seconds after the last pipeline completed in it, whatever was lost or stopped after INCR since |
| Redis.FewBucketsAlive | backend/internal/store/redis.go:126-133 | if no EXPIRE is lost at most 11 buckets are alive |
| Pools.SignalQueue.constructor | backend/internal/queue/queue.go:28-36 | empty, with the given or the default capacity |
| Pools.SignalQueue.TryEnqueue | backend/internal/queue/queue.go:40-58 | accepted exactly when there is room, appended last, and counted on the branch taken |
| Pools.SignalQueue.Consume | backend/internal/queue/queue.go:61-63 | the oldest signal leaves |
| Pools.Pool.ProcessSignal | backend/internal/worker/pool.go:90-147 | both stores and both counters after one signal |
| Pools.Pool.RunWorker | backend/internal/worker/pool.go:69-86 | stores, counters and queue after a worker's turns |
| Pools.ProcessedMeans | backend/internal/worker/pool.go:90-147 | a signal is counted as processed if and only if both writes were acknowledged, and as an error otherwise; its document is stored if and only if new and applied; its item's count grows by the attempts that took effect |
| Pools.ProcessedMeansWritten | backend/internal/worker/pool.go:90-147 | one counted as processed has its document stored and its work item's count raised |
| Pools.EachTakenCountedOnce | backend/internal/worker/pool.go:69-147 | each signal taken is counted exactly once; as many are taken as there were turns, or all |
| Pools.AllWorked | backend/internal/worker/pool.go:69-147 | where every write is acknowledged, a worker with a turn for each signal stores and counts them all, and nothing else |
| Pools.DoneStops | backend/internal/worker/pool.go:73-76 | once the context is done a worker takes nothing more |
| PoolRaces.RunsConserve | backend/internal/queue/queue.go:40-58 | in every interleaving: length within capacity, taken is a FIFO prefix of sent, sent = queued + in hand + processed + errors, attempts over = enqueued + dropped, and enqueued lags by the producers before their counter |
| PoolRefinement.SignalIsUndisturbed | backend/internal/worker/pool.go:90-147 | a worker's separate steps for one signal, with nothing between and however the stores answer, leave the documents, counts and counters of processing it as a whole |
| PoolRefinement.SendIsUndisturbed | backend/internal/queue/queue.go:40-58 | a producer's separate steps send exactly when there is room and count the branch taken |
| PoolAccounting.AtLeastOnce | backend/internal/worker/pool.go:90-147 | with lost acknowledgements and no signal in hand, per work item: processed <= documents <= finished and processed <= signal_count - 1 <= 3 * finished |
| PoolAccounting.AtLeastOnceOverall | backend/internal/worker/pool.go:90-147 | the same over all items: processed <= documents <= processed + errors, and processed <= the sum of (signal_count - 1) <= 3 * (processed + errors) |
| PoolAccounting.ExactWhenFlawless | backend/internal/worker/pool.go:101-146 | when every write succeeds first time signal_count = 1 + documents, and nothing is counted as an error |
| PoolAccounting.WorkerStepDecreases | backend/internal/worker/pool.go:69-147 | every worker step lowers the measure of steps left |
| PoolAccounting.WorkersNeverStuck | backend/internal/worker/pool.go:73-86 | after cancellation a live worker always has a step |
| PoolAccounting.ShutdownTerminates | backend/internal/worker/pool.go:63-86 | after cancellation every schedule of workers is bounded, is stuck exactly when all have exited, and then sent = processed + errors + queued |
| PoolAccounting.DrainsIff | backend/cmd/server/main.go:101-113 | once cancelled and with producers stopped, every way the workers can exit leaves the queue empty if and only if it is empty already |
| PoolAccounting.QueueMayNotDrain | backend/cmd/server/main.go:112-113 | for any capacity and number of workers a run that ends with all workers gone and a signal queued |
| Listings.ListingOrder | backend/internal/store/postgres.go:148-206 | P0 before P1 before P2, and the newest first among equals |
| Listings.ListingsAgree | backend/internal/store/postgres.go:148-206 | any two answers to one query have the same rows and the same sequence of sort keys |
| Listings.ListingUnique | backend/internal/store/postgres.go:148-206 | and are the same list when no two rows tie |
| Listings.FilterActive | backend/internal/api/workitems.go:286-292 | the loop keeps exactly the OPEN and INVESTIGATING rows in order |
| Listings.BuildersAgree | backend/internal/api/workitems.go:286-302 | filtering the full list and querying the active one agree on rows and sort keys, and on the list when no two rows tie |
| Listings.GetDashboardCounts | backend/internal/store/postgres.go:209-234 | each of the four totals is the number of rows in its own state |
| Listings.ActiveLength | backend/internal/api/workitems.go:222-241 | on one table the active list is as long as open + investigating |
| Dashboard.WorkItemHandler.GetDashboard | backend/internal/api/workitems.go:212-249 | an entry whose time has not come is served unchanged; with none, an ended one or no answer, list and totals are those of the table at each of the two reads, and are cached for 3 s |
| Dashboard.BuiltMeans | backend/internal/api/workitems.go:222-243 | each total counts the rows of its own state, and the list is the OPEN and INVESTIGATING rows |
| Dashboard.WorkItemHandler.RebuildDashboardCache | backend/internal/api/workitems.go:275-305 | the other route caches a list and totals of the table at each of its two reads |
| Dashboard.PresentEntryAgrees | backend/internal/workflow/machine.go:92-94 | with handlers in sequence and every change announced, a present entry agrees on totals, ids, states and severities |
| Dashboard.TransitionKeepsEntryIff | backend/internal/workflow/machine.go:85-94 | after a transition past its checks a present entry is right or gone if and only if no attempt of the write took effect, or it was reported and the entry deleted |
| Dashboard.UnreportedMoveIsNotShown | backend/internal/workflow/machine.go:85-94 | a run in which an item is moved by a write reported as failed and the cached totals are wrong |
| DashboardRaces.ServedIsRecent | backend/internal/api/workitems.go:212-305 | in every interleaving a request is served from the cache exactly while its entry's 3 s last and Redis answers, and then list and totals were each the table's at an instant no older than 3 s plus the build's duration |
| DashboardRaces.BuildIsUndisturbed | backend/internal/api/workitems.go:222-248 | a build with nothing in between, by either route, caches the table as it is and is served for 3 s |
| DashboardRaces.BuiltIsRecent | backend/internal/api/workitems.go:222-248 | a state served from its own build was so within that build |
| DashboardRaces.PresentEntryIsCurrent | backend/internal/workflow/machine.go:85-94 | in every interleaving: if every change after a saved build's first read is followed by an applied invalidation after that save, a present entry shows the table as it is |
| DashboardRaces.CurrentFromNowIff | backend/internal/api/workitems.go:212-305 | once the table stops changing, whatever is read, saved or deleted, only its present state is cached from then on if and only if neither the entry nor a build in flight holds anything out of date |
| DashboardRaces.LateSaveIsStale | backend/internal/api/workitems.go:222-248 | a run in which every change is followed at once by an applied invalidation and a stale entry is saved after it |
| Escalation.Escalator.EscalateItem | backend/internal/workflow/escalator.go:67-88 | one item's row and the dashboard entry after its turn |
| Escalation.Escalator.RunEscalationCheck | backend/internal/workflow/escalator.go:57-106 | the table after a pass is the rule applied to every row, and the entry is deleted exactly when a reported update asked for it |
| Escalation.PassIsPointwise | backend/internal/workflow/escalator.go:67-88 | a pass changes only the severity of due items whose own update took effect |
| Escalation.SeverityStep | backend/internal/workflow/escalator.go:109-121 | severity moves only in a pass, one step up, to P1 not before 30 min and to P0 not before 60 min of age |
| Escalation.SeverityNeverFalls | backend/internal/workflow/escalator.go:109-121 | over every run severity never falls |
| Escalation.TwoPassesReachP0 | backend/internal/workflow/escalator.go:57-121 | an item INVESTIGATING and at least 60 min old in two effective passes is P0 and stays so |
| Escalation.PassOutcome | backend/internal/workflow/escalator.go:57-121 | in every run, what a pass makes of an item: if listed INVESTIGATING and its update applied, P2 becomes P1 exactly from 1800 s of age and P1 becomes P0 exactly from 3600 s; otherwise nothing changes |
| Escalation.PassRaises | backend/internal/workflow/escalator.go:57-121 | an effective pass over an item at least 60 min old raises it by exactly one step, so a P2 item needs two |
| EscalationRefinement.PassIsUndisturbed | backend/internal/workflow/escalator.go:57-106 | a snapshot and its separate writes, with nothing between and however the updates are answered, leave the table as the whole pass does |
| EscalationRaces.NeverEarlyNorBelowBirth | backend/internal/workflow/escalator.go:57-121 | however many escalators interleave with all other writers, fail and retry: no item is less severe than created, P1 before 30 min or P0 before 60 |
| EscalationRaces.NeverBelowIff | backend/internal/workflow/escalator.go:57-106 | an item never becomes less severe than it is now, in any continuation, if and only if no escalator still has a lower severity to write to it |
| EscalationRaces.OneInstanceNeverFalls | backend/internal/workflow/escalator.go:57-106 | with one escalator, its writes interleaved with all other writers, severity never falls |
| EscalationRaces.SeverityMayFall | backend/internal/workflow/escalator.go:57-106 | with two, a run that makes an item P0 while the other's write of P1 is still to come |

## Left out

- Floating point rounding: tokens, rates and minutes are reals; a duration still saturates at 2^63 - 1 nanoseconds.
- Clock skew between hosts, database timestamp rounding and Redis eviction: clocks agree, and keys leave Redis only by expiry or deletion.
- The limiter's finer interleavings: `Allow` and a sweep are single steps, so a goroutine still holding a bucket just deleted, and `remaining` read without the lock, are not modelled.
- Debounce.Debouncer.Resolve: does not take the caller's callback as a value; the insert and the invalidation that both callers pass in are part of the method, alert dispatch is not.
- RateLimiting.RateLimiter.Allow: says nothing of the reset time at a rate of 0 or one too small for a 64-bit duration, where the conversion is the platform's; the limiter's theorems are for positive rates and capacities not below 0.
- Ingestion.Handler.IngestSignal: takes the detached throughput increment to have run by the end of the call, at a time of its own; which requests pass validation is an input.
- Ingestion.Handler.IngestBatch: the same.
- Listings.GetDashboardCounts: does not model SQL; the rows of GROUP BY are an input described by their contract, and so are the rows of ORDER BY for the list queries.
- Pools.Pool.RunWorker: does not interleave workers; that is the subject of `PoolRaces`.
- The pool's runs start from signals that are already linked: a signal is sent with a fresh id and the id of an inserted work item. That ingestion keeps this is `IngestionRaces.EveryReferenceHasItsRow`.
- Escalation.Escalator.RunEscalationCheck: does not interleave with other writers between its snapshot and its updates; that is the subject of `EscalationRaces`.
- Counters are unbounded integers, not 64-bit ones.
- The per-minute time series write: only its end is modelled, since nothing depends on its content.
- HTTP, JSON, authentication, logging, metrics, connection set-up, the WebSocket hub, alert strategies, the frontend and deployment files: plumbing with no state that these properties depend on.
