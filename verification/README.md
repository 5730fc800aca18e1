# A verified model of the MCP agent gateway

This project models the stateful parts of the gateway in Dafny and proves what
they guarantee over every run: the Redis-backed export job queue, the MCP event
store, the Drive query builder, the rate limiter, the Slack webhook, the
key-value stores, the Google token, the authorization endpoint and the PKCE
check.

`dafny verify dfyconfig.toml` checks everything.

## How it is built

**Step systems.** Where several participants share state, every call that other
participants can interleave with is one step: `Enabled` says when a step is
possible, `Apply` what it does, `CanRun` and `Run` extend both to sequences.
Faults are steps: a Redis call of a worker that raises with or without having
taken effect, a cancelled task, a killed process, a handler that dies half way. A
theorem that quantifies over all step sequences therefore covers every
interleaving of any number of participants. Logs of what has happened are part of
the state; nothing depends on them but further entries in the logs and the
freshness of ids.

**Classes.** The methods of the source that change state are also written as
methods, with their loops and early exits, and proved against the same step or
reference functions. `JobWorker.Gateway`, `TokenStore.Gateway`,
`Webhook.Gateway` and `Authorize.Endpoint` carry the trace of steps they performed and keep it a run of
the step system, so every theorem about runs is about them. The event store and
the in-memory store carry the history or the map they stand for.

**Time.** Time is a real number of seconds on a clock that never runs back
(milliseconds, as integers, in the rate limiter, because Redis counts so). The
expiry boundary is stated once, in `Expiry.Live`: a value is alive at exactly its
expiry instant.

| file | models |
|---|---|
| `Prelude.dfy` | optional values, the expiry boundary, sizes of sets |
| `JobQueue.dfy` | Redis commands, workers, handlers and readers of the export queue as steps |
| `JobInvariants.dfy` | what every step of the queue keeps |
| `JobFrames.dfy` | what each action leaves alone; from steps to runs |
| `JobTheorems.dfy` | delivery, answers, ownership and visibility over whole runs |
| `JobGroupStart.dfy` | jobs added before the consumer group exists |
| `JobExpiry.dfy` | the expiries of a job's two keys, and until when its owner can read the result |
| `JobProgress.dfy` | progress of the worker loop |
| `JobClaims.dfy` | which entries a claim hands out, and how long it holds |
| `JobTokens.dfy` | whose jobs can complete |
| `JobFiles.dfy` | the files behind completed records |
| `JobFaults.dfy` | what a worker can do next, what ends it, where errors come from |
| `JobRuns.dfy` | runs that show what can happen to a job |
| `JobWorker.dfy` | the tool handlers and the worker loop as code |
| `EventHistory.dfy`, `EventStore.dfy` | the unbounded event history; the bounded store that keeps a window of it |
| `DriveLanguage.dfy`, `DriveQuery.dfy` | a reference lexer, parser and evaluator of Drive queries; the builder |
| `RateLimiter.dfy` | the Lua script and request traces |
| `Webhook.dfy` | freshness, deduplication and append |
| `Stores.dfy` | the in-memory store, prefixed stores over one Redis |
| `TokenStore.dfy` | seeding and refreshing the Google token |
| `Pkce.dfy` | the PKCE check and the base64url decoder behind it |
| `Authorize.dfy` | the authorization endpoint and its cache of registrations |

## What the code does not do

Some properties one would expect do not hold of the code. Each has a lemma that
shows the failure and one that gives the exact condition under which the property
holds.

- A job can be acked with nothing published. `except Exception` does not catch a
  cancellation, yet `finally` acks; and a failure record that cannot be added is
  followed by the ack all the same. `ForsakenExactly` names these two steps,
  `CutOffIsLost` shows that each loses the job, `CancelledJobIsLost` gives a run
  from an empty Redis, and `AckedIsAnswered` shows that without such a step every
  acked job has a record.
- A job added before the first worker created the consumer group is never
  processed (`JobBeforeTheGroupIsNeverAnswered`, with a run in
  `JobCanPrecedeTheGroup`).
- A worker exports with the token of the job's own user, while the application
  writes a token for `google:shared` alone. With a token any job can complete
  (`GrantedJobCompletes`; `Gateway.Export` says exactly when an export does), without
  one it can only fail (`CompletedNeedsToken`); so the jobs of everybody but the
  shared user fail (`OnlySharedJobsComplete`).
- A job whose owner key has expired is "not found" to its own owner for ever, also
  when its record is published afterwards (`OwnerlessJobIsNeverRead`, with a run in
  `LateResultIsUnreadable`). If the owner key is alive when the publish completes,
  the owner can read the record until the results key expires
  (`PublishedJobIsReadable`).
- A job processed twice is exported twice to the same file, and readers are shown
  the first record. The size in a record is that of the file for exactly as long as
  no later export to that path has another (`RecordDescribesItsFile`, with a run in
  `DuplicateExportBeliesTheRecord`).
- A renewed Google token can be replaced by the empty placeholder at once, because
  seeding is a check and a separate write (`LateSeederUndoesRenewal`), or by
  another refresh. It is sure to be shared by later calls if and only if its writer
  is alone: nobody else is seeding, refreshing or holding an older record
  (`TokenOfALoneWriterIsKept`, `TokenOfADisturbedWriterIsLost`).
- A cached client registration can be replaced at once by that of a concurrent
  request for the same client id (`ConcurrentRegistrationReplaces`). It is sure to
  decide later requests if and only if no other request for that client id has
  missed the cache and not ended yet (`RegistrationOfALoneRequestIsKept`,
  `RegistrationOfADisturbedRequestIsReplaced`).
- A client that waits exactly `Retry-After` seconds is admitted if and only if the
  time left was not a whole number of seconds and fewer than the limit of the key's
  requests came past the end of the window before it (`ReturnAfterExactWait`, with
  a trace in `ReturnCanBeDenied`).
- A webhook event without an id is appended again on every retry
  (`EmptyIdIsPostedTwice`). A signed request with an id is appended at most once if
  no handler takes more than 3000 seconds from its freshness check to the dedup key
  (`PostedAtMostOnce`), and can be appended twice if one may (`LongDelayPostsTwice`).
- The same event signed anew when its dedup key has gone is appended again
  (`ResignedEventIsPostedTwice`). An event is appended at most once if all its claims
  of the dedup key lie within one TTL (`EventPostedAtMostOnce`).
- If the handler that set the dedup key of a signed request dies before it appends
  it, the request is lost: under the bound of 3000 seconds it has been appended if
  and only if that handler appended it (`PostedIffItsClaimIs`, `DroppedEventIsLost`,
  with a run in `RetryOfDroppedIsDuplicate`).
- Stores over one Redis are independent if and only if no prefix begins another and
  the scan pattern of each matches all its own keys and none of another's
  (`PrefixedStoresAreIndependent`, `DependentOtherwise`). Separate prefixes alone do
  not suffice when they hold metacharacters (`MetacharactersInterfere`).

## Model

| member | source | states |
|---|---|---|
| `JobInvariants.StepKeeps` | app/integrations/google/job_worker.py:48-131 | every step of every participant, faults and lost replies included, keeps the queue's invariant: entries in one place, records owned and truthful, readers cleared for their own jobs, acked entries answered or cut off |
| `JobTheorems.EntryIsInExactlyOnePlace` | app/integrations/google/job_worker.py:52-84 | in every run, each entry added since the group began is exactly one of undelivered, pending under one consumer, acked |
| `JobTheorems.OnlyAckEndsPending` | app/integrations/google/job_worker.py:124-125 | the only step that takes an entry out of the pending list is an ack of that entry, whether or not its reply arrives |
| `JobClaims.OnlyClaimsMoveEntries` | app/integrations/google/job_worker.py:52-84 | an entry comes to be pending under a delivery only as the next undelivered one or by a claim a minute after its last delivery, and only it |
| `JobClaims.LeftoverIsReclaimable` | app/integrations/google/job_worker.py:71-84 | an entry left over from an aborted batch stays pending until acked; after a minute's rest a claim of the first ten idle entries, by any worker at the top of its loop, includes it exactly when fewer than ten pending entries precede it |
| `JobClaims.ClaimHoldsForAMinute` | app/integrations/google/job_worker.py:71-81 | in every continuation shorter than a minute a claimed entry is pending under the claimer or acked, no claim takes it again, and no other worker comes to hold it |
| `JobFaults.NeverStuck` | app/integrations/google/job_worker.py:48-131 | in every run every worker can go on from where it is, every call of it can fail with and without effect, and it can be cancelled or killed at any point |
| `JobFaults.StoppedWorkerDoesNothing` | app/integrations/google/job_worker.py:65-69 | a cancelled or killed worker does nothing more in any run, but for the ack of a cancelled entry, until it is started again or that ack raises |
| `JobFaults.ExceptionAbandonsBatch` | app/integrations/google/job_worker.py:52-69 | an exception out of the read or the ack abandons the batch, and what is left of it stays pending as it was |
| `JobFaults.LostClaimGivesNothing` | app/integrations/google/job_worker.py:71-84 | a claim whose reply is lost gives the worker nothing to do, though the entries are its own for a minute |
| `JobGroupStart.JobBeforeTheGroupIsNeverAnswered` | app/integrations/google/jobs.py:21-26 | a job added before the group was created at the end of the stream is never delivered, acked or answered in any run |
| `JobGroupStart.JobCanPrecedeTheGroup` | app/integrations/google/jobs.py:21-26 | a run from an empty Redis with such a job |
| `JobTheorems.AckedIsAnsweredOrForsaken` | app/integrations/google/job_worker.py:86-125 | in every run an acked entry has a published record unless a worker was cut off before adding one |
| `JobTheorems.ForsakenExactly` | app/integrations/google/job_worker.py:113-125 | exactly two kinds of step cut a job off: a cancellation before anything is published, and a failure record that could not be added |
| `JobTheorems.AckedIsAnswered` | app/integrations/google/job_worker.py:86-125 | in a run without such a step, crashes, failed writes and duplicates notwithstanding, every acked entry is answered |
| `JobTheorems.CutOffIsLost` | app/integrations/google/job_worker.py:113-125 | each such step on a pending entry, with the ack that follows, leaves the entry acked and unanswered |
| `JobRuns.CancelledJobIsLost` | app/integrations/google/job_worker.py:113-125 | a run from an empty Redis that loses a job in this way |
| `JobTheorems.PublishedRecordIsTrue` | app/integrations/google/job_worker.py:89-123 | a published record bears the user of the job; a completed one the mime type of the requested format, named outright, and the path and byte count of a file written for that job |
| `JobFaults.ErrorsWereRaised` | app/integrations/google/job_worker.py:113-123 | in every run the error in a failure record was raised by an export or by a write of a publish |
| `JobFiles.RecordDescribesItsFile` | app/integrations/google/job_worker.py:98-112 | at the end of any run the file an export's record names holds the bytes of the last export to that path; its size is the recorded one if and only if no later export there had another |
| `JobFiles.PathsAreApart` | app/integrations/google/job_worker.py:99-100 | two jobs are never exported to the same path, whatever the directories and formats |
| `JobFiles.OnlyItsJobWritesTheFile` | app/integrations/google/job_worker.py:99-100 | so the file of a job is written by exports of that job alone |
| `JobRuns.DuplicateExportBeliesTheRecord` | app/integrations/google/job_worker.py:98-112 | a run in which a second export replaces the file while readers see the first record |
| `JobTheorems.RecordsReachOnlyTheirOwner` | app/integrations/google/job_tools.py:54-67 | in every run, a record `wait-for-job` returns bears the caller's id, was published for that job, and the caller enqueued the job |
| `JobTheorems.VisibleRecordIsStable` | app/integrations/google/jobs.py:49-55 | while the results key lives, what a reader of the job sees never changes, whoever publishes again |
| `JobTheorems.FirstPublishedIsSeen` | app/integrations/google/jobs.py:49-55 | if the key has lived since the first record was added, every reader sees that first record |
| `JobExpiry.OwnerOutlivesResult` | app/integrations/google/job_worker.py:127-131 | when nobody is or stopped between the writes of a publish and the owner key was alive when extended, the results key has an expiry and the owner key expires no earlier |
| `JobExpiry.CompletedPublishCovers` | app/integrations/google/job_worker.py:127-131 | the write that completes a publish leaves a live owner key outliving the results key, under any interleaving of publishers |
| `JobExpiry.NoExpiryMovesEarlier` | app/integrations/google/job_worker.py:127-131 | no step of any run moves the expiry of either key of a job earlier while the key is alive |
| `JobExpiry.PublishedJobIsReadable` | app/integrations/google/job_tools.py:54-67 | from a completed publish, with both keys alive, until the expiry the results key then has: in every run the owner passes the owner check and whoever has passed it is given the record visible at the publish |
| `JobExpiry.OwnerlessJobIsNeverRead` | app/integrations/google/job_tools.py:60-62 | in every continuation of a run in which the owner key of an accepted job is gone, the owner check lets nobody through, whatever is published |
| `JobRuns.LateResultIsUnreadable` | app/integrations/google/jobs.py:29-42 | for any delay over an hour, a run that ends with the record visible and the owner key gone |
| `JobTokens.CompletedNeedsToken` | app/integrations/google/job_worker.py:89-98 | in every run a job whose user was granted no token has no record but failures |
| `JobTokens.OnlySharedJobsComplete` | app/integrations/google/token_store.py:67-89 | beside any run of the token store, if tokens are granted only to users it has a record of, every completed record is the shared user's |
| `JobRuns.GrantedJobCompletes` | app/integrations/google/job_worker.py:86-112 | for any user, format, data and delay, a run in which the job of a user with a token completes with that record |
| `JobProgress.EveryWorkingPassShrinksTheQueue` | app/integrations/google/job_worker.py:52-64 | with no new jobs, under any interleaving and faults, undelivered plus pending entries drop at least by the number of passes a worker completed with work found |
| `JobProgress.EnoughPassesEmptyTheQueue` | app/integrations/google/job_worker.py:52-64 | as many such passes as there are outstanding entries leave every entry acked, and answered unless cut off |
| `JobWorker.Gateway.DriveExportLargeFile` | app/integrations/google/job_tools.py:36-51 | "queued" is answered exactly for a known format and an enqueue that did not raise; the job is in the stream if so or if only the last reply was lost, and then its owner key names the user; an unsupported format changes nothing |
| `JobWorker.Gateway.EnqueueExportJob` | app/integrations/google/jobs.py:29-42 | which of the two writes of an enqueue took effect, for each call that may raise |
| `JobWorker.Gateway.WaitForJob` | app/integrations/google/job_tools.py:54-67 | anyone but the live owner is told the job is not found; the owner gets the first live record, which bears the owner's id, or "pending" |
| `JobWorker.Gateway.Publish` | app/integrations/google/job_worker.py:127-131 | a run of three writes after which the job has exactly this record more and nothing else of the worker or the group has changed |
| `JobWorker.Gateway.Export` | app/integrations/google/job_worker.py:87-112 | the record ready for publication is the right one for the outcome: with a token and data, completed with their size, mime type and path, the data written there; otherwise failed with the error raised |
| `JobWorker.Gateway.Process` | app/integrations/google/job_worker.py:86-125 | without faults the entry ends acked and its job given one record more, the right one for the outcome; no other job is given any and the rest of the batch is untouched |
| `JobWorker.Gateway.Drain` | app/integrations/google/job_worker.py:55-57 | the loop over a batch leaves every entry of it acked and its job given one record, the right one for its outcome, and no other job any |
| `JobWorker.Gateway.Pass` | app/integrations/google/job_worker.py:52-64 | a pass does so for every reclaimed entry and the next undelivered one, and counts as working exactly when there was one |
| `JobWorker.Gateway.RestedPass` | app/integrations/google/job_worker.py:52-84 | after a minute's rest a fault-free pass on the first ten idle entries finds work whenever anything is outstanding, and leaves less |
| `JobWorker.Gateway.DrainQueue` | app/integrations/google/job_worker.py:52-84 | a worker that alternates the two empties the queue in at most as many passes as entries were outstanding; every entry ends acked, and each that was not acked before has been given the right record for its outcome |
| `EventHistory.LivesInOrder` | app/mcp/event_store.py:32-37 | known streams are within the limit, distinct and in order of creation |
| `EventHistory.OldestIsForgotten` | app/mcp/event_store.py:32-37 | a full store that meets a new stream forgets exactly the one created first |
| `EventHistory.GoneForGood` | app/mcp/event_store.py:39-55 | an event that is no longer kept never is again, whatever is stored later |
| `EventStore.InMemoryEventStore.constructor` | app/mcp/event_store.py:22-26 | an empty store matches the empty history |
| `EventStore.InMemoryEventStore.EvictOldest` | app/mcp/event_store.py:33-36 | the oldest stream goes and the index still holds exactly the events in the deques |
| `EventStore.InMemoryEventStore.OpenStream` | app/mcp/event_store.py:32-37 | afterwards the stream has a deque and only appending the event is left to match the longer history |
| `EventStore.InMemoryEventStore.StoreEvent` | app/mcp/event_store.py:28-46 | after every store the streams are those alive in the history, oldest first, each deque the last K events of its stream since creation, and the index exactly the events in the deques |
| `EventStore.IndexSizeIsTotal` | app/mcp/event_store.py:28-46 | the stream count is within the limit and the index is as large as the deques together |
| `EventStore.SendAfter` | app/mcp/event_store.py:61-67 | the loop with its flag sends the non-empty messages after the cursor, in order and once |
| `EventStore.InMemoryEventStore.ReplayEventsAfter` | app/mcp/event_store.py:48-69 | a cursor is honoured if and only if its event is retained (same life of the stream, fewer than K events since); then exactly the later events of that stream in the whole history that have a message are sent, each once, in order, with its own message and id |
| `EventHistory.DeliveriesAreExact` | app/mcp/event_store.py:61-67 | what is sent, position by position of the history |
| `DriveQuery.EscapeIsCharacterwise` | app/integrations/google/drive_query.py:4-10 | the two-pass escape equals a one-pass character map |
| `DriveQuery.LiteralRoundTrip` | app/integrations/google/drive_query.py:4-10 | reading an escaped literal gives back the text and stops at its closing quote, whatever quotes and backslashes it holds |
| `DriveQuery.StampRoundTrip` | app/integrations/google/drive_query.py:35-36 | the printed date reads back as midnight of that date |
| `DriveQuery.TextClauses` | app/integrations/google/drive_query.py:27-34 | each text filter given becomes a clause that lexes and parses to it, before anything that may follow |
| `DriveQuery.BuildDriveQuery` | app/integrations/google/drive_query.py:13-39 | parsing the built query gives a clause for each filter that is given and not empty, with its value, and no other, each kind once and in order |
| `DriveQuery.AskedSaysFilters` | app/integrations/google/drive_query.py:13-39 | the same of the clauses asked for |
| `DriveQuery.QuerySelectsTheWanted` | app/integrations/google/drive_query.py:13-39 | for any semantics of matching, the query selects exactly the files the filters describe |
| `DriveQuery.SameQuerySameMeaning` | app/integrations/google/drive_query.py:13-39 | filter sets with the same query want the same files |
| `RateLimiter.Limiter.CheckRateLimit` | app/middleware/rate_limiter.py:41-45 | one call is one run of the script on its key and no other, and every counter has an expiry |
| `RateLimiter.WindowAdmitsItsFirst` | app/middleware/rate_limiter.py:12-22 | over any trace each window, defined by arrival times alone, admits exactly its first L requests, and no request moves its end |
| `RateLimiter.IntervalAdmitsAtMost` | app/middleware/rate_limiter.py:12-22 | any interval of one window's length, both ends included, admits at most 2L - 1 requests |
| `RateLimiter.BoundIsReached` | app/middleware/rate_limiter.py:12-22 | for every limit and window some trace reaches that bound |
| `RateLimiter.NoWindowCountsNothing` | app/middleware/rate_limiter.py:12-22 | without a positive window nothing is counted: every request is admitted exactly if the limit is positive |
| `RateLimiter.RetryAfterIsTight` | app/middleware/rate_limiter.py:41-45 | the rounded-up wait covers the time left, by less than a second, and never exceeds the window |
| `RateLimiter.FirstAfterWindowIsAdmitted` | app/middleware/rate_limiter.py:12-22 | the key's first request past the reported time left is admitted |
| `RateLimiter.ReturnAfterExactWait` | app/middleware/rate_limiter.py:41-45 | for any trace: a denied client back after exactly the advertised wait is admitted if and only if the time left was not a whole number of seconds and fewer than the limit of requests came past the window's end before it |
| `RateLimiter.ReturnCanBeDenied` | app/middleware/rate_limiter.py:41-45 | a trace in which such a client is denied although the time left was no whole number of seconds |
| `Webhook.OnlyAuthenticIsPosted` | app/api/webhooks_router.py:26-36 | in every run whatever set a dedup key or was appended came with both headers and a good signature, checked against a configured secret and within 300 seconds of its timestamp |
| `Webhook.PostedAtMostOnce` | app/api/webhooks_router.py:33-62 | over any run a signed request with an event id is appended at most once if handlers take no more than 3000 seconds to the dedup key |
| `Webhook.AppendsAreApart` | app/api/webhooks_router.py:48-62 | two appends of one event id are more than the dedup TTL apart, less the delay of an append |
| `Webhook.EventPostedAtMostOnce` | app/api/webhooks_router.py:48-62 | in every run an event id all of whose claims of the dedup key lie within one TTL is appended at most once |
| `Webhook.ResignedEventIsPostedTwice` | app/api/webhooks_router.py:48-62 | for any longer wait a run without delays appends the event, signed anew, twice |
| `Webhook.PostedIffItsClaimIs` | app/api/webhooks_router.py:48-62 | if handlers take no more than 3000 seconds to the dedup key: in every run a signed request with an event id has been appended if and only if the handler that set its dedup key appended it |
| `Webhook.DroppedEventIsLost` | app/api/webhooks_router.py:48-62 | under the same bound: if that handler dies before the append, the signed request is never appended, and no new sending of the event whose claim lies within the dedup TTL |
| `Webhook.RetryOfDroppedIsDuplicate` | app/api/webhooks_router.py:48-62 | a run in which the retry of such an event is taken for a duplicate |
| `Webhook.EmptyIdIsPostedTwice` | app/api/webhooks_router.py:48-62 | any accepted request without event id has a run that appends it twice |
| `Webhook.LongDelayPostsTwice` | app/api/webhooks_router.py:33-52 | for any longer delay a signed request with an id has a run that appends it twice |
| `Webhook.Gateway.SlackWebhook` | app/api/webhooks_router.py:20-63 | a run: exactly when each of the eight answers is given, said of secret, headers, time, signature and body; only an authentic event changes anything, and then by one claim, held for an hour, and one entry |
| `Stores.LazyIsEager` | app/shared/store.py:35-63 | for every sequence of calls on a monotone clock the memory store answers as a map that expires eagerly |
| `Stores.LastTouchDecides` | app/shared/store.py:35-63 | after any calls, what is read or popped is decided by the last call that touched the key: a value set is found exactly until its time-to-live is over, and after a pop or clear nothing is |
| `Stores.NothingUntouched` | app/shared/store.py:43-60 | and under a key never touched nothing is found |
| `Stores.InMemoryStore.Set` | app/shared/store.py:39-41 | afterwards the store holds the live entries of the eager map after the same call |
| `Stores.InMemoryStore.Get` | app/shared/store.py:43-51 | answers as the eager map does and, lazy deletion or not, still holds its live entries |
| `Stores.InMemoryStore.Pop` | app/shared/store.py:53-60 | answers as the eager map does and still holds its live entries |
| `Stores.InMemoryStore.Clear` | app/shared/store.py:62-63 | the store agrees with the eager map after the same call |
| `Stores.PrefixGlob` | app/shared/store.py:29-32 | for a prefix without metacharacters the scan pattern matches exactly the keys that begin with it |
| `Stores.PrefixedStoresAreIndependent` | app/shared/store.py:12-32 | if no prefix begins another and each scan pattern matches all keys of its own store and none of another's, every sequence of calls is answered as if each store had a keyspace of its own |
| `Stores.DependentOtherwise` | app/shared/store.py:12-32 | if not, some sequence of calls is answered otherwise |
| `Stores.OverlappingPrefixesInterfere` | app/shared/store.py:17-24 | if one prefix begins another, a value written through the longer is read through the shorter |
| `Stores.StrayPatternLosesValue` | app/shared/store.py:29-32 | if the scan pattern of one store matches a key of another, clearing the one loses the other's value |
| `Stores.BlindPatternKeepsValue` | app/shared/store.py:29-32 | if the scan pattern of a store misses a key of its own, the value survives clearing the store |
| `Stores.MetacharactersInterfere` | app/shared/store.py:29-32 | prefixes of both kinds, separate as they are |
| `Stores.PlainPrefixesOk` | app/shared/store.py:29-32 | separate prefixes without metacharacters meet the condition |
| `Stores.ApplicationStoresAreSeparate` | app/main.py:51-64 | the four prefixes in use meet the condition |
| `Stores.RedisStore.Set` | app/shared/store.py:17-21 | effect on the shared keyspace, and the refusal of an expiry that is not positive |
| `Stores.RedisStore.Get` | app/shared/store.py:23-24 | the live value under the prefixed key |
| `Stores.RedisStore.Pop` | app/shared/store.py:26-27 | the live value, which is gone afterwards |
| `Stores.RedisStore.Clear` | app/shared/store.py:29-32 | whatever others do between scan and delete: what the scan saw under the prefix is gone, everything else is as they left it, keys of separate prefixes included |
| `TokenStore.RefreshTokenSurvives` | app/integrations/google/token_store.py:30-89 | in every interleaving of seeding and refreshing the stored refresh token decrypts to the configured one and no other is presented to Google |
| `TokenStore.ReturnedTokenIsUsable` | app/integrations/google/token_store.py:30-64 | every returned token was issued by Google, never the placeholder: to this very call, which is issued but one, or with more than 60 seconds left, at the moment of return, of the lifetime Google gave it (an hour if none) |
| `TokenStore.OnlyTheSharedUserIsAuthorized` | app/integrations/google/token_store.py:30-89 | in every run no record but the shared user's is written, and no call for another user returns a token |
| `TokenStore.AnyProcessCanGoOn` | app/integrations/google/token_store.py:30-89 | every process can go on from where it is, whatever Google answers, and can fail |
| `TokenStore.RenewedTokenIsShared` | app/integrations/google/token_store.py:36-64 | over all runs after a renewal: a later call reads the renewed record if and only if no seeder or other refresh has written since, and then returns the token, without a request, exactly while more than a minute is left |
| `TokenStore.TokenOfALoneWriterIsKept` | app/integrations/google/token_store.py:36-64 | if nobody else is seeding, refreshing or holding an older record, the renewed token stays stored in every run for as long as it is good |
| `TokenStore.TokenOfADisturbedWriterIsLost` | app/integrations/google/token_store.py:60-89 | otherwise some run overwrites it while it is still good, with another record unless Google issued the same token twice |
| `TokenStore.LateSeederUndoesRenewal` | app/integrations/google/token_store.py:80-89 | a run from the start in which a seeder overwrites a renewed token and the next call must refresh at once |
| `TokenStore.SeededTokenIsRefreshed` | app/integrations/google/token_store.py:67-78 | in every run, until another write, each call that reads a seeded record must refresh, however late |
| `TokenStore.Gateway.SeedIfAbsent` | app/integrations/google/token_store.py:67-89 | a run after which a record with the configured refresh token is there; one that was there is untouched, a new one is never good enough to return |
| `TokenStore.Gateway.GetValidGoogleToken` | app/integrations/google/token_store.py:22-64 | a run: not authorized exactly without a record of the shared user; a good stored token is returned without a request; otherwise Google's new token is returned and stored with Google's lifetime beside the same refresh token; a failure changes nothing |
| `Pkce.AcceptedDecodesTo32` | app/authorization/pkce.py:20-28 | every challenge passing the 43-character check decodes, with one "=", to 32 bytes |
| `Pkce.UnpaddedIsRejected` | app/authorization/pkce.py:24-28 | without the added "=" no such challenge decodes |
| `Pkce.ValidatePkceIsExact` | app/authorization/pkce.py:13-28 | the check accepts exactly 43 characters of the alphabet with one of the three spellings of S256 that upper-casing equates, so its last branch never raises |
| `Pkce.UpperIsS256` | app/authorization/pkce.py:17-18 | which texts have the upper case S256 |
| `Pkce.PkceErrorIsNamed` | app/authorization/pkce.py:13-18 | which message is raised |
| `Pkce.SameNumber` | app/authorization/pkce.py:24-28 | characters and bytes stand for the same bits, but for the slack |
| `Pkce.AlphabetIsStandard` | app/authorization/pkce.py:20-28 | the alphabet is that of section 5 of RFC 4648 |
| `Pkce.DigestRoundTrip` | app/authorization/pkce.py:20-28 | every 32-byte digest's unpadded encoding passes and decodes back |
| `Pkce.DecodeAlikeIffSlack` | app/authorization/pkce.py:24-28 | two accepted challenges decode alike exactly when they differ at most in the low two bits of the last character |
| `Authorize.ParamsErrorIsExact` | app/authorization/router.py:40-58 | exactly which requests pass the parameter check, parameter by parameter |
| `Authorize.ParamsErrorIsNamed` | app/authorization/router.py:46-53 | the description names the first that is missing or wrong |
| `Authorize.RedirectsAreRegistered` | app/authorization/router.py:94-120 | in every interleaving a redirect for a URL client id uses a redirect_uri from a metadata document fetched for that id and changes only client_id, to the id enrolled; fetch, enrolment and save are of this very request, saved at that instant, or all of one other, saved at most one TTL before |
| `Authorize.RedirectsAreValidated` | app/authorization/router.py:89-92 | every redirect is of a request that passes the parameter check and sends on exactly what was asked, but for the client_id of a URL client |
| `Authorize.AnyRequestCanGoOn` | app/authorization/router.py:94-116 | every request can go on from where it is, its fetch and its enrolment can fail, and it can be given up |
| `Authorize.SavedRegistrationIsReused` | app/identity/client_registration/repository.py:12-24 | over all runs within the TTL of a save: a later look-up of the same client id is decided by that registration if and only if nothing else was filed under the client id since, and without a fetch unless the cache was spoilt |
| `Authorize.RegistrationOfALoneRequestIsKept` | app/authorization/router.py:96-105 | if no other request for the client id has missed the cache and not ended, the registration stays in the cache for its TTL in every run that spoils nothing |
| `Authorize.RegistrationOfADisturbedRequestIsReplaced` | app/authorization/router.py:96-105 | otherwise some run replaces it at once, with another client id unless the same one was given twice |
| `Authorize.ConcurrentRegistrationReplaces` | app/authorization/router.py:96-105 | a run from the start in which the second of two concurrent registrations decides the third request |
| `Authorize.Endpoint.Authorize` | app/authorization/router.py:80-120 | a run: the answer for every case of parameters, cache, fetch and enrolment; a redirect rests on a registration that would decide the same request again without a fetch, a refusal leaves the cache alone, and a hit fetches nothing |

## Left out

- HTTP clients, retries and upstream payloads: an export, a metadata fetch, an enrolment or a token refresh either returns or fails.
- Fernet, HMAC, JSON and `urlparse`: parameters of the model; Fernet enters as a decryption function and any text it maps to the configured token.
- Framework wiring, middleware plumbing, headers, tracing, input schemas and the MCP session manager.
- Host-resolution checks in the metadata fetch and log masking.
- Scope filtering, usage recording and the mapping of Drive and Slack results: they would only add easy members.
- The rate limiter's middleware around `check_rate_limit`, which lets requests through when Redis is unavailable.
- Rounding of floating-point clocks: times are real numbers.
- Timestamps and the decimal text of `size_bytes` in records: the size is a number.
- The order in which XAUTOCLAIM walks the pending list, except in `LeftoverIsReclaimable`: elsewhere a claim is any batch of at most ten idle entries in ascending order. Its bound on the entries it examines per call is not modelled.
- A replay that runs while the same stream is stored to: `ReplayEventsAfter` is one call.
- Stores.RedisStore.Clear: takes the scan itself as one step.
- Redis matches patterns byte by byte; here text is a sequence of characters.
- Stores.RedisStore.Set: an expiry is any number of seconds, not only a whole one.
- The token store inside the job queue: a job's user has a token or not, and `JobQueue.Grant` stands for the write that gives one.
- Interleaving inside the methods of the classes: a method is one undisturbed call, and the step systems cover interleaving.
- Pkce.ValidatePkceIsExact: of Python's upper-casing only what can yield "S256" is modelled.
