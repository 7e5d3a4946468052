# Verification of BCRSTracking

BCRSTracking polls a network of bottle-return machines (RVMs), compares each response with what
it remembers, counts deposited containers, and batches rows into ClickHouse. This project models
its five components with state or intricate decisions, and proves what each of them keeps over
whole runs. `dafny verify dfyconfig.toml` checks everything.

* **Access-token cache** (`TokenCache`, `TokenSafety`, `TokenTheorems`, `TokenRenewal`). Each
  lock-protected block of the client is one atomic event; any number of callers, invalidations,
  clock ticks and context cancellations interleave. The calls carry history: the number of explicit
  invalidations before a fetch began (`born`) and before an invocation began (`joined`).
* **API client** (`Client`, `RetryLaws`, `StatusLaws`, `AccessToken`, `TokenFormatLaws`). The class
  `TokenClient` has the client's fields and its mutually recursive methods `GetAccessToken`, `FetchAccessToken` and `DoWithRetry`.
  Its locked blocks are specified by the same functions that the protocol's events apply. The
  network, limiter, jitter, clock and what other callers do (explicit invalidations, fetches that
  this caller joins) are read off a script; a journal records what one retry loop did.
  `AccessToken` decodes the token response. `StatusLaws` and `TokenFormatLaws` say in figures and names
  what is retried, accepted, slept and read.
* **Location poller** (`Diff`, `DiffLaws`, `DiffColumns`, `LocationRuns`, `RestartLaws`). `Diff` holds
  the two loops of the comparison and their specification; `LocationRuns` runs polls and restarts over memory, the
  `rvm_current` table (per id the row with the largest `updated_at`) and the event log.
* **Bin poller** (`Bins`, `BinSchedule`, `BinRestart`, `BinRuns`, `SensorLaws`, `MachineGauge`, `GaugeLaws`,
  `Poller`). The worker pool and collector are a step relation, the fold over scraped bins is a function on a
  ledger, and `BinRuns` sets the ingestion counter against bins that take true deposits and are emptied
  at any time, with restarts that load stored snapshots. `SensorLaws` is about readings that are not
  exact or not of one bin, and `GaugeLaws` says in plain sums what the metrics show. The class `Poller` is
  the poller object of both halves, with its gauges and the rows it offers to the buffer's channels.
* **Batch buffer** (`BatchStreams`, `BatchSafety`, `BatchTheorems`, `BatchWriter`, `WorkerLaws`). A step
  relation for producers, worker and sink, and the class `BatchBuffer`, with producers that act during its drains
  and flushes too, every run of which is proved to be a run of that relation. `WorkerLaws` says what each
  outcome of the worker's select achieves. `Shutdown` composes it with both pollers: after a clean stop the
  tables are ones that their runs let the next process start on.

## What the code does not keep

These claims fail. Each has a concrete input or run that shows it, and the exact condition under which
it holds.

* A token can be older than an explicit invalidation only if exactly a multiple of 2^64 invalidations
  happen during its fetch (`PublishAcceptsIff`, `EpochWrapServesStaleToken`).
* A response that lists a machine twice, changed and then unchanged, leaves the table and memory apart;
  the rows reach the reported state exactly when no such reversal occurs (`PatchReachesCurrentIff`,
  `DuplicateIdsDiverge`).
* `DiffState` copies `first_seen_at` from the previous record, but `PollLocations` remembers raw records.
  A stored row has the time exactly if it is the row that added the machine, or was written by the first
  poll after a restart that loaded a row which has it; any later row that does not add the machine, even
  after an unchanged poll in between, stores the zero time (`FirstSeenKeptIff`, `SecondPollStoresZero`, `FirstSeenIsLostAfterTwoPolls`).
* A token made of quotes only ends the search for a token (`BareObjectSucceedsIff`, `QuotesHideLaterToken`).
* Inexact sensors. Over any readings the counter exceeds the net change exactly when the falls, with what
  is left in the bin after those taken for emptyings, outweigh the skipped rises (`CountedLaw`). If no rise
  is skipped, that is exactly when a reading falls (`OverCountsIffItDips`), and if no fall is taken for an
  emptying either, the excess is the sum of the dips (`DipsAreCounted`). Without any deposit 450, 448, 450
  counts 2 and 120, 55, 120 counts 120 (`DipsCountWithoutDeposits`).
* A restart can load an older count than the last, because a full channel drops snapshots and a stop can
  leave a failed batch behind. `StaleCountIff` says exactly when the next reading then counts more than
  was deposited, and `SafeRunsNeverOverCount` that runs without such readings never over-count
  (`StaleHydrationCountsTwice`).
* Bins of one compartment type in one machine are compared with each other. Unchanged, they add nothing
  exactly when no step around their counts is a counted rise, or a fall taken for an emptying that leaves
  something in the bin (`SharedCompartmentCountsNothingIff`, `SharedCompartmentOverCounts`); with distinct types each bin is
  compared with itself (`DistinctBinsCountApart`).
* Rows offered after a stop has drained their channel are accepted and never delivered: exactly those
  accepted before that drain ended are ever taken (`TakenIffBeforeLastDrain`, `OfferDuringStopIsLost`).

## Model

| member | source | states |
|---|---|---|
| TokenSafety.InvStep | internal/client/bcrs_client.go:139-252 | Every locked block, tick and cancellation keeps single flight, write-once results, epoch bookkeeping and freshness of the cached token, of every published token and of every returned one |
| TokenSafety.ClosedCallsStay | internal/client/bcrs_client.go:224-239 | No event rewrites a call whose `done` channel has been closed |
| TokenTheorems.ReturnedTokenIsFresh | internal/client/bcrs_client.go:151-252 | In every interleaving with fewer than 2^64 explicit invalidations, an invocation returns (by cache, as follower or as leader) only a token whose fetch began after the last explicit invalidation that preceded the invocation |
| TokenTheorems.CachedTokenIsCurrent | internal/client/bcrs_client.go:139-149 | A non-empty cached token was fetched entirely after the latest explicit invalidation |
| TokenTheorems.PublishAcceptsIff | internal/client/bcrs_client.go:224-235 | A fetched token is published exactly when the number of explicit invalidations during its fetch is a multiple of 2^64 |
| TokenTheorems.EpochWrapServesStaleToken | internal/client/bcrs_client.go:145-147 | The bound is needed: after 2^64 invalidations during one fetch a later invocation is served the token from before them |
| TokenTheorems.SingleFlight | internal/client/bcrs_client.go:178-239 | At most one caller fetches; `inFlightCall` is set exactly while some caller does, and names the only unclosed call |
| TokenTheorems.ClosedOnce | internal/client/bcrs_client.go:210-239 | No `done` channel is closed twice, by publishing or by a panic |
| TokenTheorems.NoStrandedCaller | internal/client/bcrs_client.go:178-250 | An unfinished invocation can move, or waits for a leader that is fetching and can |
| TokenTheorems.OutcomesAreAccounted | internal/client/bcrs_client.go:181-250 | A result is the caller's own context error, a cached token, or exactly what the call it joined or led published; a follower never returns its leader's cancelled, deadline or invalidated error, and nobody with a live context returns the invalidation error |
| TokenTheorems.PublishedResultsStay | internal/client/bcrs_client.go:236-237 | A published result is the same in every later state |
| TokenTheorems.CachedAnswersAreUnexpired | internal/client/bcrs_client.go:157-177 | Over every run, a token answered from the cache is non-empty and at that moment before the expiry that its fetch came back with, or that was configured with it |
| TokenTheorems.CacheAnswersIff | internal/client/bcrs_client.go:157-177 | A read of the cache answers exactly when it holds a token before its expiry, without the lock and under it |
| TokenTheorems.FetchesStartWhenNeeded | internal/client/bcrs_client.go:171-203 | A fetch starts exactly when a caller with a live context finds, under the lock, no token before its expiry and no other fetch |
| TokenTheorems.DeadContextsReturn | internal/client/bcrs_client.go:153-183 | An ended context is returned at the next check, before the lock or under it, and ends a wait |
| TokenTheorems.CacheWriters | internal/client/bcrs_client.go:139-239 | Only a fetch that comes back with a token in the epoch it began in, and an invalidation, explicit or of the token cached, change token, expiry or epoch |
| TokenTheorems.SuccessIsReturned | internal/client/bcrs_client.go:184-250 | A published success is returned to leader and followers even if their context has ended; failures as context and fetch have them |
| TokenTheorems.RetriesIff | internal/client/bcrs_client.go:188-248 | Exactly when a follower or leader tries again |
| TokenTheorems.PublishRemembersEpoch | internal/client/bcrs_client.go:202-238 | A leader compares the number of explicit invalidations before its fetch and at its publication, modulo 2^64 |
| TokenRenewal.RenewalRun | internal/client/bcrs_client.go:139-204 | While only 403s retire tokens, every token ever fetched, except the cached one, has been reported |
| TokenRenewal.FetchesBoundedByReports | internal/client/bcrs_client.go:417-422 | With distinct fetched tokens and no expiry, failure or explicit invalidation, however many callers report each token, at most 1 + the number of distinct reported tokens fetches are started |
| Client.Jitter | internal/client/bcrs_client.go:343-352 | No jitter without a backoff, otherwise between zero and the smaller of backoff and one second |
| Client.TokenClient.InvalidateToken | internal/client/bcrs_client.go:139-149 | The method is the protocol's compare-and-clear, with the wrapping epoch |
| Client.TokenClient.ReadCached | internal/client/bcrs_client.go:157-163 | A token is returned exactly when the cache holds one whose expiry is still to come |
| Client.TokenClient.Decide | internal/client/bcrs_client.go:165-204 | Refuses a dead context, else returns a token before its expiry, else joins the call in flight, else becomes its leader at the current epoch; each exactly then |
| Client.TokenClient.Publish | internal/client/bcrs_client.go:224-239 | Cache, call and error become what the protocol publishes for this fetch and epoch |
| Client.TokenClient.PublishPanic | internal/client/bcrs_client.go:210-220 | A panic frees the flight, closes the call with an error and leaves token, expiry and epoch |
| Client.TokenClient.GetAccessToken | internal/client/bcrs_client.go:151-252 | No fetch is joined or led exactly when the context is dead or the cache holds a token before its expiry; then that error or token is returned and nothing changes. Otherwise the fetch in flight, if any, is joined, or fetches are led, and the last round decides the result, which on success as a leader is the cached token; it tries again on its own only after a cancelled, timed-out or invalidated leader or while the epoch moves; every fetch led beyond the first is paid for by an explicit invalidation, at four requests each |
| Client.TokenClient.Lead | internal/client/bcrs_client.go:200-250 | A led fetch is published, or discarded as invalidated if the epoch changed, and is started over exactly for an invalidated or overtaken fetch with a live context |
| Client.TokenClient.Follow | internal/client/bcrs_client.go:178-197 | A follower sees exactly what the fetch it joined came back with, or its own context ends first |
| Client.FetchedFrom | internal/client/bcrs_client.go:286-304 | A fetched token is non-empty and its expiry, given or defaulted to an hour, strictly later than the clock |
| Client.TokenClient.FetchAccessToken | internal/client/bcrs_client.go:284-305 | The outcome is read off the reply that ends a retry loop of at most four unauthenticated requests |
| Client.TokenClient.Attempt | internal/client/bcrs_client.go:361-422 | A usable cached token is the one sent and survives every reply but a 403, which clears it and no newer one |
| Client.TokenClient.Judge | internal/client/bcrs_client.go:395-505 | What a turn leads to, for the whole journal of the loop: the failure that stopped it, the final result of its reply, or one more sleep |
| Client.TokenClient.DoWithRetry | internal/client/bcrs_client.go:354-508 | The result is explained by the replies, each from a turn of its own that the limiter admitted; the sleeps are the doubled backoffs with admissible jitter; one non-empty token per authenticated request, the refused one gone from the cache; at most 5(n+1) + 4E requests in all with n retries and E explicit invalidations, which is 4 + 4(4 + E) for n = 3 |
| RetryLaws.RetryLaw | internal/client/bcrs_client.go:361-507 | Uninterrupted, the loop succeeds iff its first final reply comes within maxRetries + 1 and is a readable 2xx body within 10 MiB; it is exhausted iff there is none; it sleeps once fewer than it sends |
| RetryLaws.ScriptDecides | internal/client/bcrs_client.go:354-508 | What `DoWithRetry` promises of an unauthenticated loop makes the script alone decide: admitted and undisturbed in the turns it took, it succeeds iff the script's first final reply comes in range and is good; `StatusLaws.ScriptDecidesByStatus` says which replies those are |
| RetryLaws.BackoffDoubles | internal/client/bcrs_client.go:356-410 | The i-th backoff is base times 2^i while that fits an int64 |
| RetryLaws.TotalSleep | internal/client/bcrs_client.go:343-410 | n sleeps from base b last at least (2^n - 1)b, and at most that plus the smaller of itself and n seconds |
| StatusLaws.RepliesDecide | internal/client/bcrs_client.go:395-507 | In status numbers, for any loop: it goes on after network errors, 403, 429 and 500 or more, and ends on any other reply, with its body exactly if the status is 200 to 299 and the body readable and of at most 10 MiB, else with the failure shown; without such a reply it is exhausted |
| StatusLaws.ScriptDecidesByStatus | internal/client/bcrs_client.go:354-508 | An undisturbed unauthenticated loop makes k + 1 requests exactly if the k-th reply is the first of those, and its result is read off that reply |
| StatusLaws.OneRequestIff | internal/client/bcrs_client.go:417-487 | Given retries, one request is made exactly if the first reply is a response other than 403, 429 and 500 or more |
| StatusLaws.JitterRange | internal/client/bcrs_client.go:343-352 | The jitters that can be drawn are exactly those from zero to the smaller of backoff and one second |
| StatusLaws.FirstSleep | internal/client/bcrs_client.go:356-359 | The first sleep is the configured backoff, ten milliseconds if it is not positive, and at most twice that and one second more |
| StatusLaws.JournalSleep | internal/client/bcrs_client.go:343-410 | The total sleep of any finished loop, with the bounds of `TotalSleep` |
| StatusLaws.FetchedExpiry | internal/client/bcrs_client.go:299-304 | A fetched token keeps an expiry that is to come; a missing or past one becomes one hour from now |
| StatusLaws.FetchErrors | internal/client/bcrs_client.go:286-289 | A failed fetch passes on the errors of limiter, context and network; a bad status, an unreadable or oversized body is none of the transient ones |
| StatusLaws.UndecodableBodies | internal/client/bcrs_client.go:291-297 | A body that does not decode is a failed fetch, and not a transient failure |
| AccessToken.AccessTokenResponse.SelectTarget | internal/model/token.go:26-47 | The cascade computes the target of the specification, whose meaning is `TargetMeaning` |
| AccessToken.TargetMeaning | internal/model/token.go:26-47 | The target is the object under the first wrapper key present, if that is a non-empty object, and the top level otherwise |
| AccessToken.AccessTokenResponse.SearchText | internal/model/token.go:56-88 | The loop with its early exit finds the first field with text |
| AccessToken.AccessTokenResponse.SearchTime | internal/model/token.go:94-203 | The loop finds the first field, in the target or else the top level, that reads as a time |
| AccessToken.AccessTokenResponse.UnmarshalJSON | internal/model/token.go:20-206 | Token, expiry and status become those of the specification; a failure keeps token and expiry |
| AccessToken.Parse | internal/model/token.go:20-206 | A decoded token is never empty |
| AccessToken.FirstTextAt | internal/model/token.go:56-66 | Later field names do not matter once one has text |
| AccessToken.WrapperInvariance | internal/model/token.go:26-205 | A non-empty object without wrapper keys decodes alike, or fails alike, bare or under any of the four wrappers, with any unrelated fields beside it |
| AccessToken.BareObjectSucceedsIff | internal/model/token.go:56-91 | A bare object yields a token iff the first token field with text keeps some after quotes are stripped |
| AccessToken.QuotesHideLaterToken | internal/model/token.go:58-63 | A token of two quotes hides a good one under a later name |
| TokenFormatLaws.TokenNames | internal/model/token.go:56-66 | The nine names of a token, written out in their order; the first that is filled gives it, without surrounding white space and then quotes |
| TokenFormatLaws.NoTokenName | internal/model/token.go:89-91 | A bare object with none of them filled fails |
| TokenFormatLaws.InnerTokenNames | internal/model/token.go:26-66 | The object under the first of `data`, `result`, `response`, `payload` is searched first, by the same names |
| TokenFormatLaws.OuterTokenNames | internal/model/token.go:67-77 | If it has no token, the first of seven names beside it gives one, before any text under another wrapper |
| TokenFormatLaws.WrapperText | internal/model/token.go:78-88 | Without any token name, the first wrapper that holds a text holds the token |
| TokenFormatLaws.StatusIsRead | internal/model/token.go:49-54 | The status is the top level's text, and stays as it is if there is none |
| TokenFormatLaws.TrimSpaceMeaning | internal/model/token.go:62 | What is cut off are white-space ends, and none is left |
| TokenFormatLaws.TrimQuotesMeaning | internal/model/token.go:62 | The same for quotes |
| TokenFormatLaws.ExpiryNamesWin | internal/model/token.go:95-153 | The first of the ten expiry names, looked up in the target and else beside it, that reads as a time is the expiry, whatever lifetimes are given |
| TokenFormatLaws.LifetimeNamesNext | internal/model/token.go:156-203 | Without those, the first of the seven lifetime names that reads as one |
| TokenFormatLaws.NoTimesNoExpiry | internal/model/token.go:95-205 | With neither there is no expiry |
| TokenFormatLaws.LifetimeFromNow | internal/model/token.go:165-179 | A lifetime of n < 10^8 seconds gives the expiry n seconds from now, rounded down to nanoseconds |
| TokenFormatLaws.ExpiryIsUnixTime | internal/model/token.go:141-152 | An expiry n is n Unix seconds up to 10^11, and n Unix milliseconds above |
| TokenFormatLaws.SecondsAndMillisAgree | internal/model/token.go:129-179 | A Unix time above 10^8 gives the same instant in seconds or milliseconds, under any two of the seventeen names |
| TokenFormatLaws.NumberOrText | internal/model/token.go:129-201 | The same number as a JSON number or as a text gives the same expiry, if the text is no date and no duration |
| TokenFormatLaws.TextInstant | internal/model/token.go:105-138 | As an expiry a trimmed text is a date first, then a positive number |
| TokenFormatLaws.TextLifetime | internal/model/token.go:181-201 | As a lifetime it is a positive duration first, then a positive number |
| TokenFormatLaws.NumberLifetime | internal/model/token.go:165-179 | As a lifetime a number is seconds from now below 10^8 and a Unix time from there on |
| TokenFormatLaws.InnerBeatsOuter | internal/model/token.go:96-99 | The same name in the wrapped object and beside it: the inner one counts |
| Diff.DiffCurrent | internal/poller/diff.go:19-78 | The loop over the response computes the added and updated rows and their events, in order |
| Diff.DiffRemoved | internal/poller/diff.go:80-100 | In any map order, each live machine missing from the response is removed once, with its event |
| Diff.DiffState | internal/poller/diff.go:19-103 | The whole comparison, up to the order in which the map is visited |
| DiffLaws.PatchReachesCurrentIff | internal/poller/diff.go:19-103 | Applying the rows to the live previous state gives the reported state on tracked fields iff no machine is reported changed and later unchanged |
| DiffLaws.DistinctIdsLoseNothing | internal/poller/diff.go:23-24 | Distinct ids are enough for that |
| DiffLaws.DuplicateIdsDiverge | internal/poller/diff.go:23-78 | A repeated id can make rows and report disagree |
| DiffLaws.RowsIffViewChanged | internal/poller/diff.go:19-103 | A machine gets a row iff its tracked view changed |
| DiffLaws.NothingToReport | internal/poller/diff.go:19-103 | Comparing a state with itself yields nothing |
| DiffLaws.ListsAreDisjoint | internal/poller/diff.go:19-103 | No machine occurs twice in the three lists together |
| DiffLaws.EventsDescribeChanges | internal/poller/diff.go:32-98 | Events and rows are about the same machines, one each, and every event's kind and statuses describe the change |
| DiffColumns.RowColumns | internal/poller/diff.go:28-87 | Column by column: an added row is a record of a machine that was not present, with the poll's time twice; an updated row a differing record with the remembered first-seen time; a removed row the remembered record, marked deleted |
| DiffColumns.ListOf | internal/poller/diff.go:27-75 | A reported machine is added iff it was not present, and updated iff it was and status, location name or address differ |
| DiffColumns.RemovedIff | internal/poller/diff.go:80-87 | A machine that is not reported is removed iff it was present |
| DiffColumns.EventColumns | internal/poller/diff.go:32-98 | Every event has serial, supplier, statuses and time of its machine |
| DiffColumns.DiffOrder | internal/poller/diff.go:19-103 | Rows and events come in the order of the response, and the events of removed machines last, in the order of their rows |
| DiffColumns.MemoryIsResponse | internal/poller/poller.go:216-226 | After a poll memory has each reported machine column by column |
| DiffColumns.LoadedIsNewest | internal/storage/clickhouse.go:279-280 | A restart loads a machine iff its newest stored row is not marked deleted, and then that row |
| LocationRuns.FinalIgnoresOrder | internal/storage/clickhouse.go:39-41 | The kept rows do not depend on the order or repetition of the stored ones |
| LocationRuns.FinalOfNewerRows | internal/storage/clickhouse.go:39-41 | Newer rows change the table's live view the way a patch changes a view |
| LocationRuns.RunKeepsInv | internal/poller/poller.go:214-257 | Polls and restarts keep memory, table and event log in agreement |
| LocationRuns.TableAgreesWithMemory | internal/storage/clickhouse.go:253-318 | After any run with any restarts, the stored rows load exactly the machines in memory with the same status, location name and address |
| LocationRuns.LogReplaysToMemory | internal/poller/poller.go:214-257 | Replaying the event log of any run gives exactly the machines in memory and their statuses |
| LocationRuns.LifeStories | internal/poller/diff.go:23-100 | Per machine, ADDED comes first and otherwise exactly after REMOVED, and every other event starts from the status where the one before ended |
| RestartLaws.SameViewSameEvents | internal/poller/diff.go:19-103 | Memories with the same live view report the same multiset of changes |
| RestartLaws.RestartsAreInvisible | internal/poller/poller.go:55-60 | Two runs of the same polls with any restarts in either report the same multiset of (type, id, previous status, current status) at every poll |
| RestartLaws.FirstSeenKeptIff | internal/poller/poller.go:215-226 | Over any run of polls and restarts, a stored row has its machine's first-seen time if it is the adding row, or was written by the first poll after a restart that loaded a row which has it, and the zero time otherwise |
| RestartLaws.SecondPollStoresZero | internal/poller/poller.go:216-226 | In a poll that follows another poll, even one right after a restart, an adding row has the time of its poll and every updated or removed row the zero time |
| RestartLaws.FirstSeenWithoutRestarts | internal/poller/diff.go:27-45 | Without restarts that is exactly as long as the latest row is the adding one |
| RestartLaws.FirstSeenIsLostAfterTwoPolls | internal/poller/diff.go:43-44 | A machine that is added and then changes status loses its first-seen time |
| Poller.Poller.PollLocations | internal/poller/poller.go:196-258 | A failed request changes nothing; a response sets memory and the machine gauge and offers the diff's rows and events, and is one poll step of the run semantics if the channels have room |
| Poller.RoomForAll | internal/storage/batch_writer.go:65-93 | A channel with room accepts all rows offered, in order |
| MachineGauge.GaugeCountsMachines | internal/poller/poller.go:217-239 | With distinct ids each label of the gauge shows how many machines have it, and no other label is shown |
| MachineGauge.GaugeIgnoresOrder | internal/poller/poller.go:61-77 | The order in which the machines are visited does not matter |
| GaugeLaws.MachineGaugeShows | internal/poller/poller.go:217-239 | Under each status and supplier the gauge shows the number of machines that have them |
| GaugeLaws.FillGaugeShows | internal/poller/poller.go:361-383 | Under each compartment type and supplier, UNKNOWN for empty ones, the fill gauge shows the counts of the bins with a capacity plus ten times the percentages of those without, and no other label is shown |
| GaugeLaws.OtherColumnIgnored | internal/poller/poller.go:376-383 | The percentage of a bin with a capacity and the count of one without do not matter |
| GaugeLaws.LoadedGaugeShows | internal/poller/poller.go:100-121 | The start-up gauge shows the same sums of the loaded snapshots |
| GaugeLaws.CounterShows | internal/poller/poller.go:385-420 | The counter under a label grows by the increments of its bins, each against the count before it, and by nothing for a first reading |
| GaugeLaws.IncrementCases | internal/poller/poller.go:389-417 | The increment in figures, case by case |
| Poller.Poller.HydrateFromStorage | internal/poller/poller.go:48-91 | Start-up is the restart step of the run semantics, with the gauge of the loaded machines; a failed or empty query leaves its half alone |
| Poller.Poller.ApplyHydratedBinSnapshots | internal/poller/poller.go:93-133 | Last counts and gauges become those of the loaded list |
| Poller.HydrationRestoresCounts | internal/storage/clickhouse.go:334-343 | Loading the latest snapshot of every key restores each key's latest stored count |
| Poller.Poller.BinJobs | internal/poller/poller.go:275-295 | The jobs are the live machines, each once |
| Poller.Poller.Increment | internal/poller/poller.go:389-417 | The branches compute the increment of the specification |
| Poller.Poller.RecordBin | internal/poller/poller.go:363-420 | One scraped bin updates last count, counter and gauge as one step of the fold |
| Poller.Poller.RecordBins | internal/poller/poller.go:359-429 | The loop is the fold of one cycle, with fresh gauges |
| Poller.Poller.PollBins | internal/poller/poller.go:273-434 | Without live machines nothing changes; otherwise the live machines are each asked once, every bin is offered to the buffer, and the ledger becomes that of the cycle |
| Bins.Delta | internal/poller/poller.go:389-417 | One reading never counts more than 200 containers |
| Bins.Commute | internal/poller/poller.go:362-421 | Items of different machines may be recorded in either order |
| Bins.FoldIgnoresInterleaving | internal/poller/poller.go:362-421 | The fold depends only on each machine's own sequence of items |
| BinSchedule.SchedulesEnd | internal/poller/poller.go:291-357 | Every schedule of workers and collector ends within a number of steps given by jobs and answers |
| BinSchedule.NoDeadlock | internal/poller/poller.go:302-357 | Until the collector is done some step is enabled, cancelled or not |
| BinSchedule.RequestedAtMostOnce | internal/poller/poller.go:291-335 | No machine is asked twice in a cycle, cancelled or not |
| BinSchedule.FinishedCycle | internal/poller/poller.go:320-357 | An uncancelled cycle asks each machine exactly once and collects exactly its bins, in order |
| BinSchedule.ScheduleIndependence | internal/poller/poller.go:275-422 | Any two finished cycles over the same machines and answers leave the same last counts, ingestion totals and gauges |
| BinSchedule.OneWorkerIsEnough | internal/poller/poller.go:314-357 | One worker leaves the ledger that any finished schedule of any number of workers leaves |
| BinSchedule.GatheredItem | internal/poller/poller.go:341-349 | Every gathered item is a bin of some answer with its machine's id and supplier and the time of the answer |
| BinSchedule.CancelStopsAsking | internal/poller/poller.go:324-335 | After a cancellation only requests already due are made |
| BinSchedule.ChannelIsBounded | internal/poller/poller.go:302-349 | At most 1000 bins wait for the collector, and a worker is held up exactly while 1000 do |
| BinRuns.ReadingNeverOverCounts | internal/poller/poller.go:385-417 | A reading counts at most the deposits since the one before, emptied in between or not |
| BinRuns.ReadingExactIff | internal/poller/poller.go:390-405 | Without emptying it counts all of them iff there are none, or at most 200 and, for a zero-capacity bin, the reading before was positive |
| BinRuns.StaleCountIff | internal/poller/poller.go:386-417 | Exactly when a reading that is compared with another count than the last one does not count more than was deposited |
| BinRuns.StaleHydrationCountsTwice | internal/poller/poller.go:93-98 | Loading an older count makes the containers counted since then count twice |
| BinRuns.SafeRunsNeverOverCount | internal/poller/poller.go:385-420 | The same whatever tables restarts load, if each reading meets the exact condition |
| BinRuns.CompleteTableIsCurrent | internal/storage/clickhouse.go:334-343 | A table with all snapshots, in any order and any number of times, loads every key's last count |
| BinRuns.NeverOverCounts | internal/poller/poller.go:385-420 | Over any run of deposits, emptyings, exact readings and restarts that load the stored snapshots, the counter under a label is at most the true deposits of its bins |
| BinRuns.CountsEverything | internal/poller/poller.go:385-420 | If every reading meets the exactness condition and restarts find all snapshots, the counter under a label equals the deposits between first and last readings |
| SensorLaws.CountedLaw | internal/poller/poller.go:389-417 | Over any readings, what is counted is the net change, plus the falls and what is left after those taken for emptyings, less the skipped rises; so it exceeds the net change iff the former outweigh the latter |
| SensorLaws.OverCountsIffItDips | internal/poller/poller.go:390-416 | If every rise is counted, the counter exceeds the net change iff a reading falls |
| SensorLaws.DipsAreCounted | internal/poller/poller.go:400-416 | If moreover no fall is taken for an emptying, the excess is the sum of the dips |
| SensorLaws.DipsCountWithoutDeposits | internal/poller/poller.go:402-414 | 450, 448, 450 counts two containers and 120, 55, 120 counts 120 |
| SensorLaws.DistinctBinsCountApart | internal/poller/poller.go:385-387 | With distinct machines or compartment types in a response each reading is compared with the same bin's reading in the cycle before |
| SensorLaws.UnchangedBinsCountNothing | internal/poller/poller.go:385-417 | Then bins that report the same counts again add nothing |
| SensorLaws.SharedCompartmentCountsNothingIff | internal/poller/poller.go:385-417 | Exactly when unchanged bins of one compartment type, however many and of whatever capacity, add nothing in a cycle |
| SensorLaws.SharedCompartmentOverCounts | internal/poller/poller.go:385-417 | Constant counts of 100 and 150 of such bins count 100 containers in two cycles |
| BinRestart.RestartLoadsLastCounts | internal/storage/clickhouse.go:334-343 | With increasing poll times per key and all snapshots stored, a restart loads for every key the count last remembered |
| BinRestart.LaterIncrementsUnchanged | internal/poller/poller.go:93-98 | So every later cycle counts as if there had been no restart |
| BinRestart.SameLabelIff | internal/poller/poller.go:100-107 | A loaded snapshot is shown under the label of its poll iff the machine is remembered with the same supplier, or neither has one |
| BinRestart.SameGauges | internal/poller/poller.go:361-387 | Loading and polling the same records then give the same gauge sums |
| BinRestart.GaugeIgnoresOrder | internal/poller/poller.go:96-121 | The order of the loaded list does not matter |
| BatchTheorems.InvStep | internal/storage/batch_writer.go:65-233 | Every offer, receive, tick, request, drain step, insert and stop keeps the buffer's invariant |
| BatchTheorems.NothingLostOrReordered | internal/storage/batch_writer.go:95-212 | Whatever fails and however it interleaves, each table's accepted rows are the delivered, then the pending, then the queued ones, in order and once each |
| BatchTheorems.OfferRefusedIffFull | internal/storage/batch_writer.go:65-93 | An offer is dropped iff its channel holds 5000 rows, 10000 for bins |
| BatchTheorems.BatchDiscipline | internal/storage/batch_writer.go:133-199 | At the loop head a slice reaches the batch size only after a failed insert; a failed batch is a prefix of the next; an insert's outcome does not touch another table |
| BatchTheorems.TablesAreIndependent | internal/storage/batch_writer.go:133-199 | Over whole runs: the same offers to and takes from a table leave the same rows of it delivered or pending, queued and refused, whatever happens to the other tables and whichever inserts fail |
| BatchTheorems.FlushComplete | internal/storage/batch_writer.go:202-226 | After an acknowledged flush, the rows accepted before the call are delivered, in order, for every table whose insert succeeded, and delivered or pending for the others |
| BatchTheorems.AcknowledgedOutcome | internal/storage/batch_writer.go:133-205 | At the acknowledgement a table succeeded iff nothing of it is pending, and what is pending is the failed batch |
| BatchTheorems.StopComplete | internal/storage/batch_writer.go:206-233 | When the worker has exited the same holds for the rows accepted before Stop |
| BatchTheorems.ExitIsFinal | internal/storage/batch_writer.go:206-209 | Once a table has been drained for a stop, the rows delivered or pending stay the same ones and later offers stay queued; after the exit nothing more is delivered |
| BatchTheorems.TakenIffBeforeLastDrain | internal/storage/batch_writer.go:206-209 | The rows ever taken are exactly those accepted before the table's drain for the stop ended; all others stay queued |
| BatchTheorems.OfferDuringStopIsLost | internal/storage/batch_writer.go:65-73 | A reachable state with an accepted row that no continuation delivers |
| BatchTheorems.DrainTerminates | internal/storage/batch_writer.go:104-131 | Draining takes at most one step per queued row, per row offered meanwhile, and six more |
| BatchTheorems.BusyWorkerMoves | internal/storage/batch_writer.go:104-181 | A draining or flushing worker always has a next step |
| BatchTheorems.InsertDelivers | internal/storage/batch_writer.go:133-174 | In every reachable state a successful insert delivers exactly what is pending of its table, a failed one leaves it pending, and the worker goes on to the next table |
| BatchTheorems.FlushStartsIff | internal/storage/batch_writer.go:185-201 | From the loop head the inserts start at once exactly after a tick and after a receive that fills a batch |
| BatchWriter.BatchBuffer.EnqueueRVM | internal/storage/batch_writer.go:65-73 | The offer of the protocol, with the channel's capacity |
| BatchWriter.BatchBuffer.EnqueueEvent | internal/storage/batch_writer.go:75-83 | The same for events |
| BatchWriter.BatchBuffer.EnqueueBin | internal/storage/batch_writer.go:85-93 | The same for bins, whose channel is twice as large |
| BatchWriter.BatchBuffer.DrainChannels | internal/storage/batch_writer.go:104-131 | Each channel in turn is moved to the end of its slice until a select finds it empty, producers acting before every select |
| BatchWriter.BatchBuffer.Flush | internal/storage/batch_writer.go:133-181 | One insert per non-empty table, in order, producers acting in between; a failed one keeps its slice, a missing sink discards it |
| BatchWriter.BatchBuffer.Receive | internal/storage/batch_writer.go:185-199 | A received row joins its slice and triggers a flush of all tables at the batch size |
| BatchWriter.BatchBuffer.Worker | internal/storage/batch_writer.go:183-212 | The loop, over any schedule of select outcomes, is the fold of their steps, up to the first stop, acknowledging each request |
| BatchWriter.WorkerIsARun | internal/storage/batch_writer.go:95-212 | Every such fold is a run of the protocol, with all requests acknowledged and the worker gone exactly after a stop |
| BatchWriter.WorkerKeepsRows | internal/storage/batch_writer.go:95-233 | So the object's rows are conserved in order, every offer is accounted for, and after a stop everything accepted before it has left the channel and only a failed batch is pending |
| WorkerLaws.TickHandsOn | internal/storage/batch_writer.go:200-201 | After any schedule a tick delivers, for every table, all rows taken so far; only a failed insert leaves its batch pending |
| WorkerLaws.RequestHandsOn | internal/storage/batch_writer.go:202-209 | A flush request or a stop does so for all rows taken or queued, in order |
| WorkerLaws.AcceptedIsHandedOn | internal/storage/batch_writer.go:202-209 | That is everything accepted before it |
| WorkerLaws.ReceiveTakesFirst | internal/storage/batch_writer.go:185-199 | A receive takes exactly the first row of its channel, and hands every table on exactly at the batch size |
| WorkerLaws.OfferJoinsQueue | internal/storage/batch_writer.go:65-93 | An offer joins its channel below 5000 rows, 10000 for bins, and is dropped otherwise; other tables do not notice |
| WorkerLaws.InsertsInOrder | internal/storage/batch_writer.go:133-174 | The inserts of a tick go by table, machines, events, bins, skipping empty ones, and each table's outcome is its own insert's |
| WorkerLaws.WithoutSinkDiscarded | internal/storage/batch_writer.go:146-148 | Without a sink a tick discards what is pending |
| Shutdown.CleanStopDeliversAll | internal/storage/batch_writer.go:206-233 | If no offer to a table was refused, none came after Stop and the last insert left nothing pending, the table has received every row ever offered, in order |
| Shutdown.CleanStopKeepsMachines | internal/storage/clickhouse.go:253-318 | After a clean stop the machine table is one that the run semantics lets the next process start on, and loads the view that memory had |
| Shutdown.CleanStopKeepsCounts | internal/storage/clickhouse.go:334-343 | After a clean stop the snapshot table loads every last count that memory had |

## Left out

- HTTP transport, headers, TLS, `http.NewRequest` errors, `EndpointURL`, the rate limiter's internals and logging: replies and the limiter's verdicts are read off a script. An error's text is not modelled, only the classes that `errors.Is` tells apart, so an HTML body fails like any other undecodable one.
- JSON text, `time.Parse` layouts and `strconv.ParseFloat`: a decoded value and parse functions are parameters. Floats are reals, so NaN, infinities and rounding are not modelled.
- The ClickHouse driver: a failed insert is assumed to have stored nothing, and every insert's outcome is free, which covers the deadline that the three inserts of one flush share.
- The metrics library: counters and gauges are maps over their labels with integer amounts.
- Event ids, payload texts and the columns of a machine that nothing reads: one opaque `details` field stands for the latter.
- `Start`, tickers, configuration, `main` and the deployment files.
- Liveness under a fair scheduler: it is stated as an enabled step or a decreasing measure.
- ReturnedTokenIsFresh: for fewer than 2^64 explicit invalidations, because the epoch is a uint64; the lemma on the wrap shows the bound is needed.
- FetchesBoundedByReports: a clock that reaches a token's expiry, a failed fetch or an explicit invalidation each allow one more fetch, as in the code.
- GetAccessToken: a round of it is not interleaved with other callers except where it waits: explicit invalidations act during its requests and waits, and another caller starts a fetch only between the turns of the retry loop. A panic in its own fetch is in the protocol only.
- DoWithRetry: the request budget is for one caller; the requests of a fetch that it joins are the other caller's.
- TotalSleep: as long as the doubled backoff fits an int64, because beyond that the code's backoff wraps; `BackoffDoubles` has the same bound.
- RetryLaw: about loops that token, limiter and context do not interrupt; what an interrupted one has done is in the contract of `DoWithRetry`.
- DiffState: the order of removed machines is whatever order the map yields; it is returned as an extra result.
- TableAgreesWithMemory: for distinct ids in each response, poll times that strictly increase in the table's milliseconds, and no row dropped by a full channel or lost at a stop; `Shutdown` says when a stop loses none.
- RestartsAreInvisible: under the same conditions; columns other than status, location name and address may be stale after a restart.
- FirstSeenKeptIff: under the same conditions.
- PollLocations: other producers of the two channels, and the worker that empties them, act between polls only.
- PollBins: one worker, no cancellation; how any number of workers and cancellation interleave is `BinSchedule`, where a request fails only if upstream gives it nothing or the context is cancelled.
- NeverOverCounts: for exact sensors, one bin of each compartment type in a machine, a machine that keeps its supplier, odometers below 2^32, and restarts that load no older count than the last; what happens without the first two and the last is under "What the code does not keep".
- CountsEverything: under the same conditions; its own condition is per reading and sufficient, and `ReadingExactIff` has both directions for one reading.
- RestartLoadsLastCounts: for one reading per key and poll time; two bins of one compartment in one response tie in the table.
- FlushComplete: about calls that return through their acknowledgement; a call that returns on its context or on a stop promises nothing.
- StopComplete: rows accepted after Stop was called may stay in a channel for ever.
- Worker: the three row types are one type parameter, and the producers are finitely many offers.
