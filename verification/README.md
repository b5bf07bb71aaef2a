# Verified models of the framework's stateful core

Five parts of the framework keep state that is driven by time or by concurrent callers. This project
models them in Dafny 4.11 and proves what they promise over whole runs, for all inputs and all
interleavings:

- **Rate limiters** (`rate_limit`, `sliding_window`, `token_bucket`, `token_ledger`): a sliding window and
  a token bucket per key. A run is a sequence of calls, cleanup ticks and resets with a clock that never
  goes back. Every answer is computed a second time from the answers before it and shown to be that; the
  window's pruned lists and the bucket's counts do not occur there. The bucket's cleanup is shown
  invisible exactly when a deleted bucket would have been full again.
- **IP throttler** (`continuous_bucket`, `throttle`, `throttle_runs`, `throttle_service`, `throttler`): a
  bucket per address inside a bucket per subnet, with a refill rate that failures slow down. Callers look
  entries up and lock them in separate steps, so that cleanup can delete an entry in between; requests of
  any number of addresses interleave so with failures and cleanup. What can be allowed is bounded from
  above, and what is turned away from below. The objects do the steps of that machine.
- **Query builder** (`sql*`, `model`): the mutable builder prints typed tokens and parameters. The language
  they are read in is defined beside it: each operator, in whatever spelling, with the operands it takes. A
  parser reads exactly the texts of that language; a tree semantics with three truth values says which
  rows the conditions pick; `Chunk` reads a fixed result page by page.
- **WebSocket hub** (`hub_steps`, `hub_delivery`, `hub`): the event loop, the hub's broadcast channel, the clients' send
  channels, and the goroutines around them as a step machine, and the hub as objects whose methods do
  exactly those steps.
- **Jobs** (`jobs*`): the priority queue, the promotion of scheduled jobs, the custody of every job under
  any number of workers, a worker's turn on the objects as a run of that, the processor's counters, the
  bounded `Enqueue`, retries and backoff.

Each part has a specification on values (functions, step machines, runs) and classes in the source's
form whose methods change fields in place and are proved against that specification. `basics` holds
what several parts share. Times are integers in nanoseconds (real seconds in the throttler) that come
in as arguments; handlers, jitter, the database, the readiness of channel receivers and the regular
expressions come in as arguments too.

What the proofs found out about the code:

- The announced retry delay is cut off to whole seconds: waiting exactly that long suffices only when
  the true wait is at most one second or a whole number of them (`RetryAfterExact`, both limiters), and in
  every run only when window or interval are at most one second (`RetryAfterSufficesIff`).
- Token bucket cleanup changes answers, and breaks the bound on accepted calls, when ten missed refills
  (eleven for an interval of one nanosecond) do not fill the bucket; throttle cleanup breaks the
  per-address bound when the burst is more than half an hour of refilling. All as if-and-only-if.
- A throttled request can take its token from an entry that cleanup deleted after the request had looked
  it up, while others already use the new one. Each such request may exceed the bound by one; two runs do.
  The subnet's entry can be overtaken so only in a request whose address entry was overtaken before.
- Operators are checked after upper-casing, but the printers compare them as they were given, and print
  one placeholder for most. So `Where` accepts and prints `a is null ?`, `a between ?` or `a NOT IN ?`, and
  `Having` prints `n IS NULL ?`; a dotless i in `LIKE` passes the check as well. IN and BETWEEN given to
  `Where` splice the value into the text. Printed queries can be read back exactly when none of that
  happened: every operator was given the operands it takes (`PrintedComesBackIff`, `NotRead`).
- One `OrWhere` on a soft-deleting model lets deleted rows through. `WithTrashed` sets a flag that the
  printing never looks at, although its comment says it includes deleted records: the same text and
  parameters are printed, and deleted rows stay hidden (`SameWhateverTrashed`, `QueryWithTrashed`).
  `Chunk` ignores a pending error and a union of its builder.
- The pass that makes scheduled jobs pending tests and writes without a lock. When the write comes after
  its job was popped and failed for good, the dead-lettered job is ready again and can be run a second time.
  A Pop returns a job for the second time exactly in this case (`PoppedAgainIff`), so it never happens
  exactly when no dead-letter queue is set (`NoJobRunsTwiceIff`). Retries are no second time: a job marked for
  one is put in no queue and never picked up again, although the event it emits announces a next attempt.
  The worker counts a scheduled retry as completed.
- Drawing the jitter panics when the delay is below ten nanoseconds: with a `retry_delay` of zero in the
  payload, and with the default delays at the 32nd attempt, where the doubled delay leaves 64 bits and
  becomes negative on machines that convert it to the least integer.
- Unregistering a client that is in a room makes the event loop wait for its own lock. A call of
  `BroadcastToAll` or `BroadcastToRoom` after the shutdown sends on a closed channel and panics, and so does
  a room message to a client that was evicted for a full buffer: it stays in its rooms.
- The queue's comparison is a strict weak order exactly on priorities of pairwise different weights.

## Model

| member | source | states |
|---|---|---|
| SlidingWindows.RecentIsWindow | api/ratelimit.go:188-216 | the calls a decision counts are exactly the accepted ones in (now - duration, now] |
| SlidingWindows.AnswerIsExact | api/ratelimit.go:188-238 | the whole answer from the answers before: accepted exactly with fewer than limit accepted calls in the window, Remaining the rest of the limit, the oldest of them setting reset and retry seconds of a denial |
| SlidingWindows.AcceptedAreSpaced | api/ratelimit.go:202-216 | accepted[i + limit] - accepted[i] >= duration for every i, in every run |
| SlidingWindows.BurstBound | api/ratelimit.go:202-216 | no span shorter than the duration holds more than limit accepted calls |
| SlidingWindows.ResetIsExact | api/ratelimit.go:218-238 | after a denial every call before the announced reset is denied with the same reset, the first from then on is allowed |
| SlidingWindows.RetryAfterExact | api/ratelimit.go:218-238 | waiting the announced seconds is enough exactly when the wait is at most one second or whole seconds |
| SlidingWindows.RetryAfterSufficesIff | api/ratelimit.go:218-238 | waiting the announced seconds is enough in every run exactly when the window is at most one second; otherwise a concrete run is denied again |
| SlidingWindows.HistoryFrozen | api/ratelimit.go:202-238 | denied calls leave the accepted calls as they are |
| SlidingWindows.PrunedCall | api/ratelimit.go:200-216 | pruning on the list kept so far decides as the complete history does, and keeps a list it can go on from |
| SlidingWindows.KeptForgotten | api/ratelimit.go:248-272 | an entry that cleanup deletes holds nothing that a later decision could count |
| SlidingWindows.KeepAfter | api/ratelimit.go:202-210 | the loop keeps exactly the requests after the cutoff, in order |
| SlidingWindows.Window.Admit | api/ratelimit.go:200-238 | one window's part of Allow: new contents and full answer |
| SlidingWindows.SlidingWindow.Allow | api/ratelimit.go:188-238 | the answer equals that of the complete history, whatever calls pruned and cleanup deleted before |
| SlidingWindows.SlidingWindow.Reset | api/ratelimit.go:241-245 | forgets the key, keeps all others |
| SlidingWindows.SlidingWindow.Cleanup | api/ratelimit.go:248-272 | deletes exactly the idle windows; later answers do not depend on it |
| TokenBuckets.CleanupInvisibleIff | api/ratelimit.go:44-143 | cleanup ticks anywhere never change an answer exactly when rate >= 1 and the missed refills cover the capacity |
| TokenBuckets.RunsAgree | api/ratelimit.go:62-143 | the runs with and without ticks give the same answers, step by step |
| TokenBuckets.CleanupShows | api/ratelimit.go:120-143 | otherwise a concrete run answers differently |
| TokenBuckets.AcceptedBound | api/ratelimit.go:78-100 | a key not reset in [s, e] gets at most capacity + rate * whole intervals there, and one refill more only if called before s |
| TokenBuckets.CleanupKeepsBoundIff | api/ratelimit.go:44-143 | with cleanup anywhere that holds in all runs exactly when the missed refills cover the capacity |
| TokenBuckets.ResetIsExact | api/ratelimit.go:78-110 | after a denial calls before the reset are denied, however many, and the first from then on is allowed |
| TokenBuckets.RetryAfterExact | api/ratelimit.go:92-110 | waiting the announced seconds is enough exactly when nothing was cut off |
| TokenBuckets.RetryAfterSufficesIff | api/ratelimit.go:92-110 | the same for the interval |
| TokenBuckets.DeniedBucket | api/ratelimit.go:78-110 | a denial leaves an empty bucket within its interval |
| TokenBuckets.BucketWellFormed | api/ratelimit.go:62-110 | tokens stay between zero and the capacity over every run |
| TokenLedger.AnswerIsExact | api/ratelimit.go:62-110 | the whole answer from the events alone: Remaining is the least, over all stretches of calls since the bucket was made, of capacity plus credited refills less accepted calls; reset and retry seconds from the last credit |
| TokenLedger.DeniedIff | api/ratelimit.go:78-100 | a call is denied exactly when in some stretch up to it a whole bucket and all refills credited since were used up |
| TokenBuckets.IntervalsAdd | api/ratelimit.go:78-90 | dropping fractions of intervals never gains one |
| TokenBuckets.Bucket.Take | api/ratelimit.go:78-110 | refill and take on one bucket |
| TokenBuckets.TokenBucket.Allow | api/ratelimit.go:62-110 | answers as the run so far determines |
| TokenBuckets.TokenBucket.Reset | api/ratelimit.go:113-117 | forgets the key, keeps all others |
| TokenBuckets.TokenBucket.Cleanup | api/ratelimit.go:120-143 | deletes exactly the buckets idle for more than ten intervals |
| Throttle.SubnetBound | security/throttle.go:258-303 | requests allowed from one subnet in [s, e] are at most SubnetRPM * (1 + (e - s) / 60) and those overtaken by the deletion of their subnet entry, in every interleaving of lookups, locks, failures and cleanup |
| Throttle.SubnetBoundFresh | security/throttle.go:258-303 | without the addition in runs where no address entry is overtaken |
| Throttle.OvertakenTwice | security/throttle.go:125-167 | a request overtaken at its subnet's entry was overtaken at its address's entry |
| Throttle.IpBound | security/throttle.go:105-167 | those from one address at most BurstSize + RPM * (e - s) / 60 and those overtaken by the deletion of their entry, with cleanup if the burst is at most 30 * RPM |
| Throttle.IpBoundFresh | security/throttle.go:105-167 | without the addition in runs where none is overtaken |
| Throttle.LimitBounds | security/throttle.go:196-214 | failures only slow the refill down, never below zero |
| ThrottleService.LimitByShare | security/throttle.go:196-214 | a share of failed requests above a half leaves a quarter of the limit, above a fifth a half, otherwise all of it |
| ThrottleService.CountersMove | security/throttle.go:160-182 | the two counts of that share: failures recorded and requests allowed, nothing else moves them |
| ThrottleService.IpDeniedSpent | security/throttle.go:105-167 | in every interleaving an address is denied only after it got, since some time its bucket was full, the burst and all refills at the slowest rate, less than one request short of that |
| ThrottleService.IpDeniedServed | security/throttle.go:105-167 | over any stretch before the denial it got the refills of the slowest rate there, or a burst if that is less |
| ThrottleService.WaitIsEnough | security/throttle.go:125-148 | who waited for one token at the full rate without failures, at the slowest with some, finds one |
| ThrottleService.SubnetDeniedSpent | security/throttle.go:258-303 | a subnet is denied only after its requests took, since some time its bucket was full, a minute's tokens and all refills |
| ThrottleService.SubnetDeniedServed | security/throttle.go:258-303 | over any stretch before they took what was refilled there, or a minute's tokens if that is less |
| ThrottleService.ChargedAre | security/throttle.go:150-167 | those tokens went to the requests allowed and to those the address turned away afterwards |
| ThrottleService.DeniedByOne | security/throttle.go:150-167 | a request with current entries is turned away exactly by one of the two buckets |
| Throttle.SubnetMoves | security/throttle.go:258-303 | all that one step can do to a subnet's bucket and count; a request with a deleted entry moves neither |
| Throttle.IpMoves | security/throttle.go:105-167 | the same for an address |
| Throttle.HeldStays | security/throttle.go:425-453 | an entry whose lock is held neither leaves the map nor comes back |
| ThrottleRuns.CleanupKeepsIpBoundIff | security/throttle.go:425-453 | the address bound holds with cleanup in all runs exactly when BurstSize <= 30 * RPM |
| ThrottleRuns.IpBoundIsReached | security/throttle.go:330-348 | a run in which one overtaken request takes the address to its burst and one more at one instant |
| ThrottleRuns.SubnetBoundIsReached | security/throttle.go:258-303 | a run that does so to a subnet |
| IPThrottlers.IpStatistics.GetCurrentLimit | security/throttle.go:196-214 | the limit after failures |
| IPThrottlers.IPThrottler.FindIp | security/throttle.go:330-348 | finds or makes the statistics of an address, changes no other |
| IPThrottlers.IPThrottler.GetIPStats | security/throttle.go:330-348 | is the machine's lookup |
| IPThrottlers.IPThrottler.LockStats | security/throttle.go:125-148 | is the machine's lock with the refill, or the refusal |
| IPThrottlers.IPThrottler.GetSubnetStats | security/throttle.go:264-281 | is the machine's lookup of the subnet |
| IPThrottlers.IPThrottler.Charge | security/throttle.go:150-167 | is the machine's settling: the subnet's token first, then the address's, allowed and logged exactly with both |
| IPThrottlers.IPThrottler.Allow | security/throttle.go:105-167 | an uninterrupted request does these steps in this order, and is in the log the bounds speak of exactly when allowed by its buckets |
| IPThrottlers.IPThrottler.RecordFailure | security/throttle.go:170-182 | counts a failure and nothing else |
| IPThrottlers.IPThrottler.CleanupTick | security/throttle.go:425-453 | forgets exactly the idle entries, in the machine's two steps |
| SqlReading.ParseIff | database/query_builder.go:452-553 | the parser reads tokens and parameters as a statement exactly when they are its text, each operator with the operands it takes |
| SqlReading.CondParses | database/query_builder.go:484-504 | each form of condition is read with its own parameters |
| SqlReading.ClauseExact | database/query_builder.go:481-517 | what is read after WHERE or HAVING is the text of the conditions it gives |
| SqlRoundTrip.RoundTrip | database/query_builder.go:452-553 | parsing the tokens and parameters gives back the normalised query, at every union depth, the k-th placeholder taking the k-th parameter |
| SqlRoundTrip.RoundTripIff | database/query_builder.go:452-553 | that holds exactly for queries in which every operator of WHERE and HAVING was given the operands it takes, in its own spelling where the printers look at that |
| SqlPlaceholders.PlaceholdersMatchParams | database/query_builder.go:452-553 | as many parameters as placeholders, less those inside raw values |
| SqlPlaceholders.RawInLosesParameter | database/query_builder.go:491-496 | Where(column, "IN", "(?)") prints a placeholder and passes no parameter |
| SqlStatements.StatementRoundTrip | database/query_builder.go:644-727 | UPDATE and DELETE lose nothing; SET's parameters come before WHERE's |
| SqlStatements.StatementRoundTripIff | database/query_builder.go:644-727 | exactly under the same condition on the operators |
| SqlBuilder.QueryBuilder.Table | database/query_builder.go:170-177 | sets a checked name or the error |
| SqlBuilder.QueryBuilder.Select | database/query_builder.go:180-193 | takes all columns, or none and reports the first bad one |
| SqlBuilder.QueryBuilder.Where | database/query_builder.go:207-223 | appends the condition with AND, or sets the error and appends nothing |
| SqlBuilder.QueryBuilder.OrWhere | database/query_builder.go:226-242 | the same with OR |
| SqlBuilder.QueryBuilder.WhereIn | database/query_builder.go:245-264 | one placeholder for each value, which become the parameters |
| SqlBuilder.QueryBuilder.WhereBetween | database/query_builder.go:267-280 | two placeholders for start and end, in this order |
| SqlBuilder.QueryBuilder.WhereNull | database/query_builder.go:283-295 | appends the null test |
| SqlBuilder.QueryBuilder.WhereNotNull | database/query_builder.go:298-310 | appends the opposite test |
| SqlBuilder.QueryBuilder.Join | database/query_builder.go:322-373 | appends a join of the given kind after both checks |
| SqlBuilder.QueryBuilder.OrderBy | database/query_builder.go:376-391 | ascending for no direction or ASC in any case, descending for DESC in any case, an error otherwise |
| SqlBuilder.QueryBuilder.GroupBy | database/query_builder.go:394-403 | appends all columns or none |
| SqlBuilder.QueryBuilder.Having | database/query_builder.go:406-423 | appends the condition after both checks |
| SqlBuilder.QueryBuilder.Paginate | database/query_builder.go:601-611 | limit and offset of the page, with the defaults |
| SqlBuilder.QueryBuilder.Combine | database/query_builder.go:438-449 | replaces the union |
| SqlBuilder.QueryBuilder.WriteCondition | database/query_builder.go:489-503 | the switch over one condition's operator |
| SqlBuilder.QueryBuilder.WriteWhere | database/query_builder.go:481-504 | the WHERE loop shared by the three printers |
| SqlBuilder.QueryBuilder.ToSQL | database/query_builder.go:452-553 | prints the chain of builders, or reports the first problem met and nothing else |
| SqlBuilder.QueryBuilder.Update | database/query_builder.go:644-689 | the statement handed to the database, whatever the map's order |
| SqlBuilder.QueryBuilder.Delete | database/query_builder.go:692-727 | the statement handed to the database |
| SqlBuilder.SameWhateverTrashed | database/query_builder.go:766-769 | builders that differ in includeTrashed only stand for the same query, or fail alike |
| SqlChecked.PrintsOnlyChecked | database/query_builder.go:170-449 | without raw splices every name, operator and join condition in the text passed its check, and no caller's value is in it |
| SqlChecked.SnapshotChecked | database/query_builder.go:452-459 | what a builder without error prints is made of checked parts only |
| SqlChecked.PrintedComesBackIff | database/query_builder.go:452-553 | a builder's output can be read back exactly when Where, OrWhere and Having were given only operators that take one value, or Where the two null tests in capitals |
| SqlChecked.NotRead | database/query_builder.go:484-533 | a value after any other operator prints a text that is no statement |
| SqlChecked.AcceptedAndNotRead | database/query_builder.go:65-73 | "is null", "between", "in", "NOT IN" and a LIKE with a dotless i pass the check and are such operators |
| SqlChecked.AcceptsOperators | database/query_builder.go:65-73 | the check lets in every operator of the language in any spelling, and of ASCII texts no others |
| SqlMeaning.TreeMeans | database/query_builder.go:481-504 | under any reading with AND before OR a row is picked exactly when every test of some maximal AND-group is true |
| SqlMeaning.PicksIsTree | database/query_builder.go:481-504 | every condition list has such a reading, so the two meanings agree |
| SqlMeaning.SameRows | database/query_builder.go:481-727 | SELECT, UPDATE and DELETE of the same conditions pick the same rows |
| Models.Model.Query | database/model.go:58-73 | a fresh builder on the table with the soft-delete condition first |
| Models.HidesDeletedIff | database/model.go:58-73 | deleted rows stay out under every outcome of the other tests exactly when each AND-group holds the soft-delete condition |
| Models.AndOnlyHidesDeleted | database/model.go:58-73 | so of an AND-only extension the text and parameters, read back, never pick a deleted row |
| Models.QueryWithTrashed | database/query_builder.go:766-769 | a soft-deleting model's query with WithTrashed hides deleted rows all the same |
| Models.OrWhereShowsDeleted | database/query_builder.go:226-242 | one OrWhere lets deleted rows through |
| SqlChunks.NextChunk | database/query_builder.go:838-880 | one turn fetches the page at the offset, error and union of the builder dropped |
| SqlChunks.Chunk | database/query_builder.go:832-891 | delivers the pages in order until the rows run out or the callback stops it, and terminates |
| SqlChunks.ChunksPartition | database/query_builder.go:832-891 | every row once, in order, in the least number of chunks; a stop leaves exactly a prefix; chunk k is Paginate(k + 1, size) |
| SqlChunks.PagesAdjoin | database/query_builder.go:601-611 | pages of a size follow one another without gap from the first row on; a size below one means fifteen |
| HubSteps.BroadcastsReachEveryClient | websocket/hub.go:113-186 | in every run the broadcasts in a client's channel are one contiguous block of those processed, from registration to removal, in order, once each; those published are the processed ones and the backlog; buffers keep their capacity |
| HubSteps.NextKeeps | websocket/hub.go:113-186 | every step of every goroutine keeps that |
| HubSteps.RemovedForGood | websocket/hub.go:143-153 | after its removal nothing enters a client's channel again |
| HubSteps.LoopNeverPanics | websocket/hub.go:143-186 | with fresh connections the event loop closes no channel twice and broadcasts into no closed one |
| HubSteps.PanicStepIff | websocket/hub.go:162-307 | a step panics exactly when it broadcasts after the shutdown or sends to a removed client, directly or through a room |
| HubSteps.PanicsIff | websocket/hub.go:113-355 | a whole run of fresh connections panics exactly when some step of it does so |
| HubSteps.RoomMessageAfterEviction | websocket/hub.go:178-204 | such a run for every buffer size: join a room, fill the buffer, be evicted by a broadcast, get a room message |
| HubSteps.PanicsExactly | websocket/hub.go:287-307 | without direct sends and room messages exactly when a broadcast method is called after the shutdown |
| HubSteps.PublishAfterShutdownPanics | websocket/hub.go:340-355 | the shortest such run |
| HubSteps.StuckExactly | websocket/hub.go:143-153 | the loop gets stuck exactly on unregistering a client that is in a room |
| HubSteps.StuckIsReached | websocket/hub.go:143-153 | a run that gets there: register, join a room, unregister |
| HubDelivery.PublishIsKeptIff | websocket/hub.go:287-293 | a broadcast goes to the end of the hub's channel, and is lost exactly when that is full and the loop does not receive |
| HubDelivery.FreshHubKeeps | websocket/hub.go:287-293 | of a new hub as many broadcasts as its buffer holds are all kept, in order, whatever the loop does |
| HubDelivery.EvictedIff | websocket/hub.go:162-173 | a broadcast is put into a client's open channel, and the client is evicted exactly when that is full and its writer does not receive |
| HubDelivery.DrainTakes | websocket/hub.go:448-486 | the writer takes the oldest message, and a full buffer has room again |
| HubDelivery.RoomsAre | websocket/hub.go:222-285 | joining puts a client into the room, leaving takes it out of that one only |
| Hubs.Client.Send | websocket/hub.go:525-534 | appends if there is room, else reports a full buffer; panics on a closed channel |
| Hubs.Hub.RegisterClient | websocket/hub.go:131-141 | does the machine's register step |
| Hubs.Hub.UnregisterClient | websocket/hub.go:143-160 | does the machine's unregister step |
| Hubs.Hub.OfferAll | websocket/hub.go:163-173 | the sending loop is a run of offers in any order |
| Hubs.Hub.Publish | websocket/hub.go:287-293 | is the machine's publishing: queued, dropped when full, or a panic on a closed channel |
| Hubs.Hub.BroadcastToAll | websocket/hub.go:162-186 | takes the oldest published message; is a run of begin, one offer per client, and finish |
| Hubs.Hub.Shutdown | websocket/hub.go:340-355 | closes the hub's own channels and every client's, unless one is closed already |
| Jobs.StrictWeakIff | jobs/queue.go:40-45 | the comparison is a strict weak order exactly on priorities of pairwise different weights |
| Jobs.DeclaredIsStrictWeak | jobs/utils.go:42-55 | the four declared priorities qualify; undeclared ones do not mix |
| Jobs.OrderIs | jobs/utils.go:42-55 | the comparison puts the greater declared priority first, then the earlier creation; an undeclared priority counts as the normal one |
| Jobs.ReadyAlike | jobs/job.go:161-171 | pending and scheduled are equally ready exactly when a time is set |
| MemoryQueues.DeclaredAreComparable | jobs/utils.go:42-55 | so queues of declared priorities stay sorted |
| MemoryQueues.SortJobs | jobs/queue.go:40-45 | what the library's sort promises: a permutation, ordered where the comparison is a strict weak order |
| MemoryQueues.MemoryQueue.Push | jobs/queue.go:33-48 | adds the job whatever its priority, conserves the contents, and keeps the queue sorted as long as all priorities pushed are comparable |
| MemoryQueues.MemoryQueue.Scan | jobs/queue.go:58-64 | the first job found ready, the clock read anew for each |
| MemoryQueues.MemoryQueue.TryPop | jobs/queue.go:50-70 | one turn of Pop takes out the first ready job and nothing else |
| MemoryQueues.MemoryQueue.Peek | jobs/queue.go:72-83 | names the first ready job |
| MemoryQueues.MemoryQueue.RemoveJob | jobs/queue.go:124-136 | takes out the first job with the id, or reports that there is none |
| MemoryQueues.MemoryQueue.GetJobsByStatus | jobs/queue.go:111-122 | the jobs with the status, in their order |
| MemoryQueues.MemoryQueue.Clear | jobs/queue.go:95-100 | empties the queue |
| MemoryQueues.FirstIsBest | jobs/queue.go:50-83 | no job that was ready when the scan began has a greater priority than the chosen one, or its priority and an earlier creation; the chosen one is past its scheduled time |
| MemoryQueues.WithoutSorted | jobs/queue.go:60-60 | cutting a job out keeps the order |
| Promotion.ProcessScheduledJobs | jobs/manager.go:304-321 | renames ready scheduled jobs to pending and changes no job's readiness at any time |
| Promotion.RenameUnseenIff | jobs/manager.go:311-317 | writing pending leaves a job's readiness at all times alone exactly when the job is pending, or scheduled for a time |
| Promotion.PromotionIsInvisible | jobs/manager.go:304-321 | single writes anywhere in a run that find their job so change no later Pop, Peek or RemoveJob |
| Promotion.LateWriteShows | jobs/manager.go:311-317 | a write that finds its job otherwise shows in some next Pop |
| JobManagers.JobManager.ProcessScheduledJobs | jobs/manager.go:304-321 | the uninterrupted pass over all queues changes no readiness and leaves nothing scheduled that was ready all through it |
| JobCustody.EveryJobInOnePlace | jobs/worker.go:66-92 | in every run each enqueued job is in exactly one queue, with one worker, or gone in one way, and nothing else is anywhere |
| JobCustody.PoppedAgainIff | jobs/manager.go:311-317 | in every run a Pop returns a job for the second time exactly when a scheduled-job pass wrote to it after its final failure; retries never lead to one |
| JobCustody.RevivedCanBePopped | jobs/manager.go:311-317 | and every such job still in its queue can be popped again |
| JobCustody.NoJobRunsTwiceIff | jobs/processor.go:151-170 | no run at all pops a job twice exactly when no dead-letter queue is set |
| JobCustody.FateIsNoted | jobs/manager.go:311-317 | that condition on the run, said of its steps, is the one the custody keeps book of |
| JobCustody.LateRenameRunsTwice | jobs/manager.go:311-317 | a run with such a write, after which a worker can pop the dead-lettered job |
| JobCustody.LeftForGood | jobs/processor.go:99-216 | completed, parked, unhandled, lost and removed jobs stay so |
| JobCustody.NextKeepsCustody | jobs/processor.go:99-216 | every step of Enqueue, Pop, ProcessJob, the pass's test and write, RemoveJob and Clear keeps the custody |
| JobCustody.DecideAgrees | jobs/processor.go:151-170 | the machine's decision about a retry is the one ProcessJob is proved to make |
| JobCustody.CountersBalance | jobs/processor.go:99-166 | at every step processed = completed + failed + unhandled + in flight, failed = retried + final + undecided, one dead-letter push per final failure |
| JobCustody.CountersAtRest | jobs/processor.go:254-276 | with idle workers the counters add up by themselves |
| BoundedEnqueue.Overshoot | jobs/manager.go:171-184 | with n concurrent callers and any pops the queue never exceeds max - 1 + n, and max when n = 1 |
| BoundedEnqueue.OvershootIsReached | jobs/manager.go:171-184 | for every max and n some run reaches that bound |
| JobManagers.JobManager.GetOrCreateQueue | jobs/queue.go:196-207 | finds or makes the queue of a name |
| JobManagers.JobManager.Enqueue | jobs/manager.go:171-193 | uninterrupted it keeps the limit, adds the job once and touches no other queue |
| JobManagers.Worker.Work | jobs/worker.go:78-92 | processes a popped job and counts the outcome; puts nothing back |
| JobManagers.Worker.ProcessNextJob | jobs/worker.go:66-92 | one turn takes at most one job; its record, the counters and both queues afterwards |
| JobManagers.Worker.Turn | jobs/worker.go:66-92 | that turn is a run of the custody machine, which shows the queues, the counters and the job as the objects have them before and after |
| JobTurns.TurnIsRun | jobs/processor.go:99-193 | Pop, the beginning and the steps of each outcome, in order, lead to what ProcessJob promises |
| Retries.CalculateBackoffDelay | jobs/utils.go:21-35 | a delay in [d, d + d/10) with d = min(base * 2^(n-1), max), or the machine's own d where that product is not exact, or a panic exactly when d < 10 |
| Retries.DelaysGrow | jobs/utils.go:21-35 | while 2d <= max the next delay is longer whatever the jitters |
| Retries.NeverPanicsWithinIff | jobs/utils.go:26-32 | none of n attempts panics exactly when maximum and base are at least ten nanoseconds and, unless the n-th product is exact, so is what the machine makes of it |
| Retries.NeverPanicsIff | jobs/utils.go:26-32 | no attempt at all exactly when the machine's result is at least ten, too: every base leaves the 64 bits in the end |
| Retries.DefaultsPanicAt32 | jobs/processor.go:54-62 | the default delays are safe for 31 attempts and panic at the 32nd where the conversion gives the least integer |
| Retries.JobProcessor.ProcessJob | jobs/processor.go:99-124 | outcome, status, attempts, schedule, counters and dead-letter queue of every case |
| Retries.JobProcessor.HandleJobFailure | jobs/processor.go:151-166 | retry or final failure with its push |
| Retries.JobProcessor.ScheduleRetry | jobs/processor.go:179-193 | one attempt more and a time in the backoff's range |
| Retries.ProcessRepeatedly | jobs/processor.go:99-193 | ProcessJob called n times on an always failing job retries it exactly as often as attempts are left, of the job's own maximum if it has one and of the configured one otherwise, the n-th wait in [d, d + d/10) of the n-th backoff, and fails it for good from then on |

## Left out

- HTTP middleware, headers, client address extraction, sessions, input validation: plumbing; keys, addresses and subnets are given.
- SQL drivers, Redis, file storage, mail, templates, migrations, persistence, cron and event listeners: external systems or easy members.
- Float rounding in the throttler and integer overflow everywhere: reals and unbounded integers instead.
- SlidingWindows.SlidingWindow.constructor: a limit below zero, with which making a key's list panics on its first call (api/ratelimit.go:197), is not modelled. A duration that is not positive makes the source's cleanup ticker panic and is excluded.
- TokenBuckets.TokenBucket.constructor: an interval that is not positive makes the source's cleanup ticker panic and is excluded.
- IPThrottlers.IPThrottler.RecordFailure: does not model penalties and the temporary blacklist; a refused request takes no token, which is all the bounds need.
- IPThrottlers.IPThrottler.Allow: the opposite lock orders of cleanup and requests, with which they can wait for each other, are not modelled; a run in which that happens ends there.
- SqlBuilder.QueryBuilder.ToSQL: a cyclic chain of unions, on which the source does not terminate, is excluded by the bound on the chain.
- SqlBuilder.Rules: the regular expressions for identifiers, expressions and joins are arbitrary functions.
- SqlParser: accepts ORDER BY, LIMIT and OFFSET before UNION, as the builder prints them without parentheses, and an empty list after IN; not every database does.
- SqlGrammar.Takes: knows the operators that the builder accepts and no others.
- SqlBuilder.QueryBuilder.Update: INSERT, Count, First and the relation helpers would only add easy members.
- Models.HidesDeletedIff: distinct tests may come out independently; that two tests of one group can never hold together is not used.
- SqlChunks.Chunk: errors of the database itself are not modelled; ChunkByID is left out because its last id never advances.
- HubSteps.RoomOffer: room messages may go to any client, which covers every membership of rooms; that only members receive them is not claimed.
- Hubs.Hub.Publish: a message dropped because the hub's own channel is full is not published; nothing else is claimed of it.
- MemoryQueues.MemoryQueue.Push: how an unordered queue is arranged once priorities were pushed that Jobs.StrictWeakIff shuts out.
- MemoryQueues.MemoryQueue.TryPop: the endless polling around it, its sleeping and its cancellation.
- Jobs.Job: priority, maximum and creation time are fixed at construction; handlers do not change the fields the queue and the processor use.
- Promotion.ProcessScheduledJobs: is the uninterrupted pass; what comes between its test and its write is in Promotion.PromotionIsInvisible and JobCustody.Step.
- JobCustody.Step: a queue popped by a worker hands out any ready job there; which one is MemoryQueues.FirstIsBest. RemoveQueue and the scaling of worker pools are left out, the latter because generated ids can collide.
- JobManagers.Worker.Turn: says of the records of other jobs only that the machine's do not change.
- Retries.CalculateBackoffDelay: what the conversion gives where the doubling leaves the exact floats or the 64-bit range depends on the machine and is a parameter.
- Retries.JobProcessor.ProcessJob: events, durations and the handler's timeout.
