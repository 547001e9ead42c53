# Paracetamol: verified models of the gateway and its tools

Paracetamol runs GPU backends behind one HTTP gateway. This project models the
parts of it whose correctness depends on order, interleaving or arithmetic at
the edges, and proves what they promise, for every input and every run.

| component | modules | main result |
|---|---|---|
| gateway scheduler | `SchedulerTrace`, `SchedulerSpec`, `SchedulerSafety`, `SchedulerTheorems`, `SchedulerLiveness`, `SchedulerEnding`, `SchedulerCallers`, `Scheduler` | every run produces a true trace that follows a protocol stated without the scheduler's variables; one resident backend, fencing, first come first served, shutdown and progress follow from the protocol, and no caller is forgotten |
| streaming keepalives | `EventStream`, `KeepaliveSpec`, `Keepalive` | inserted comments do not change what an event-stream client sees, under any schedule of reads, ticks and chunks |
| response observer | `Completion`, `Observer`, `ObserverVerdict`, `ObserverCounts`, `ObserverClient` | the report does not depend on how the response is cut into chunks, nor per-choice reasons on the order of events; verdict, reasons and token counts are given from the bytes of the response |
| request ledger | `LedgerSpec`, `Ledger` | a 64-slot ring and a session cache agree with the full history |
| statistics | `Counters`, `Statistics` | stored counters do not depend on batching and read back as recorded, and no loss is forgotten or counted twice in wrapping arithmetic, in memory or in the table |
| local stop control | `Control` | one lock holder, no foreign unlink of a live socket, stale sockets cleared, every stop answered |
| builds | `Build` | the closure is exact and ordered, and the build loop inherits that |
| configuration | `ConfigText`, `ConfigValues`, `ConfigSpec`, `ConfigScript`, `ConfigDefault`, `ConfigMeaning`, `Config` | printed documents parse to what they say, and what a document says is given line by line; the default file round-trips exactly under a stated condition |
| resumable download | `Download` | the file is always a prefix of the content, and success means equality |

How the models are built:

- Code that updates variables in a loop is a class or a method with the same
  branches (`Scheduler.EventLoop`, `Keepalive.Body`, `Observer.ResponseObserver`,
  `Completion.InPlace`, `Ledger.RequestLedger`, `Statistics.Recorder`,
  `Control.LocalControl`, `Build.Closure`, `Download.Target` and the methods of
  `Config` and `Counters`). Each is proved equal to a function of the old state,
  and the theorems are about that function or about an independent definition.
- Goroutines become steps that any scheduler may interleave. A rendezvous on an
  unbuffered channel is one step; the race between taking a lease and a done
  context is resolved by an input of the step, so every outcome is covered.
- Integers are unbounded except where width matters: 64-bit wrapping and both
  saturation limits of the statistics, the 64-bit range of configuration integers.

Properties that turned out to hold only under a condition, each with that
condition and a witness of the failure:

- A keepalive sent before the very first byte hides a byte order mark:
  `KeepaliveSpec.InterpretExactly` says what a client then sees, and
  `KeepaliveSpec.LeadingCommentCanLoseAnEvent` shows a lost event.
- The report of a stream is independent of its chunks when every line fits
  (`Observer.ChunkingDoesNotMatter`). After a line longer than 256 KiB its counts can
  depend on where chunks end: `ObserverVerdict.OverlongLineDependsOnChunking`. The
  verdict never does: it is then partial for every chunking
  (`ObserverVerdict.DamagedIsPartial`).
- A caller that loses the race for its lease can leave the scheduler draining
  with nothing to wait for until that caller's own cancel arrives:
  `SchedulerLiveness.LostRaceWaitsForItsCancel` is such a run, and
  `SchedulerLiveness.ProgressSettlesExactly` says exactly when it happens.
- A retention cutoff that moves back between transactions makes rows forget:
  `Counters.ClockMovedBack`. `Counters.RowIsExact` gives every row in every case.
- The default configuration file does not round-trip for every data directory:
  `strconv.Quote` writes some control characters, and bytes that are not UTF-8, as
  `\a`, `\v` or `\x` escapes, which the parser rejects. `ConfigDefault.DefaultsRoundTrip` gives the exact set.

## Model

| member | source | states |
|---|---|---|
| `SchedulerSafety.EveryRunConforms` | internal/gateway/scheduler.go:228-461 | every run, for any events, cancellations and lost races, yields a trace that follows the protocol, with the loop's variables tied to it |
| `SchedulerSafety.TurnKeeps` | internal/gateway/scheduler.go:357-460 | one event followed by progress keeps the invariant |
| `SchedulerSafety.BeginKeeps` | internal/gateway/scheduler.go:257-268 | a Start is admissible where it is issued: nothing resident, no lease, a new generation, for the first waiter |
| `SchedulerSafety.StopKeeps` | internal/gateway/scheduler.go:269-278 | a Stop is admissible where it is issued: no lease, the resident allocation, once under shutdown |
| `SchedulerSafety.FinishKeeps` | internal/gateway/scheduler.go:279-284 | ending is admissible: nobody waits or holds a lease, and the answer matches what is resident |
| `SchedulerSafety.AcceptKeeps` | internal/gateway/scheduler.go:369-371 | a request is queued only below the bound, outside shutdown and failed cleanup, and keeps the invariant |
| `SchedulerSafety.TurnAwayKeeps` | internal/gateway/scheduler.go:362-368 | a request is refused only for a reason that holds, with the error that takes precedence |
| `SchedulerSafety.ReleaseKeeps` | internal/gateway/scheduler.go:379-382 | after a release `active` is again the number of outstanding leases |
| `SchedulerSafety.FailureKeeps` | internal/gateway/scheduler.go:383-387 | the failed mark follows exactly the failures of the current generation |
| `SchedulerSafety.ActiveCountsLeases` | internal/gateway/scheduler.go:159-169 | in every reachable state `active` is the number of delivered, unreleased leases, all of the current generation; it is zero during an operation; the queue bound and a positive configured limit hold |
| `SchedulerSafety.ResultIsNeverStale` | internal/gateway/scheduler.go:388-396 | the stale-result branch is unreachable, and no lease is active when a result arrives |
| `SchedulerTheorems.OneAllocation` | internal/gateway/scheduler.go:257-268 | between two Starts the first allocation was stopped successfully or failed to start cleanly |
| `SchedulerTheorems.OperationsNeverOverlap` | internal/gateway/scheduler.go:257-278 | a Start or Stop begins only after the previous operation's result |
| `SchedulerTheorems.NothingUnderALease` | internal/gateway/scheduler.go:332-338 | no operation begins and the loop does not end before each earlier lease is released |
| `SchedulerTheorems.LeasesAreOutstanding` | internal/gateway/scheduler.go:344-348 | the leases counted are those granted and not yet released in the trace |
| `SchedulerTheorems.FailureFences` | internal/gateway/scheduler.go:383-387 | once a failure is processed, no further lease of its generation is granted |
| `SchedulerTheorems.LeaseCarriesItsUpstream` | internal/gateway/scheduler.go:344-347 | every lease carries the upstream that the Start of its own allocation and generation returned |
| `SchedulerTheorems.FailedCleanupConfines` | internal/gateway/scheduler.go:309-314 | after a failed cleanup there is no Start, lease or new waiter, and only shutdown may stop, and then that same allocation |
| `SchedulerTheorems.OneStopAfterFailedCleanup` | internal/gateway/scheduler.go:299-302 | at most one Stop follows a failed cleanup |
| `SchedulerTheorems.StuckIsStoppedOnce` | internal/gateway/scheduler.go:288-304 | an allocation whose cleanup failed is stopped exactly once before the loop ends, unless what failed was the Stop of a shutdown |
| `SchedulerTheorems.FirstComeFirstServed` | internal/gateway/scheduler.go:341-350 | when a request is granted, every earlier accepted one has been granted, failed or withdrawn |
| `SchedulerTheorems.BoundsHold` | internal/gateway/scheduler.go:367-370 | the queue never exceeds its bound and leases never exceed a positive configured limit of their allocation |
| `SchedulerTheorems.ShutdownIsFinal` | internal/gateway/scheduler.go:451-458 | after shutdown is asked nothing is granted, accepted or started, and at most one Stop is issued |
| `SchedulerTheorems.FinishSettlesCallers` | internal/gateway/scheduler.go:279-284 | the loop ends at most once, last, with every accepted request answered and every lease released |
| `SchedulerTheorems.FinishAnswersShutdown` | internal/gateway/scheduler.go:428-443 | every shutdown caller pending then gets one answer: success only if nothing is held, else the error of the Stop that failed |
| `SchedulerLiveness.ProgressSettlesExactly` | internal/gateway/scheduler.go:286-355 | a second pass of progress changes nothing if and only if it is not the case that everyone next in line lost the race, no lease is out and another allocation is wanted |
| `SchedulerLiveness.ProgressSettles` | internal/gateway/scheduler.go:286-355 | in particular when no lease is lost to a race |
| `SchedulerLiveness.LostRaceWaitsForItsCancel` | internal/gateway/scheduler.go:345-353 | a run from the start that ends draining with nothing in flight, resumed by the loser's cancel |
| `SchedulerLiveness.OldFailureChangesNothing` | internal/gateway/scheduler.go:383-387 | in every settled state, shutdown and failed cleanup included, a failure of an older generation changes nothing but the trace |
| `SchedulerLiveness.QuietTurn` | internal/gateway/scheduler.go:306-354 | each release or successful result decreases a measure and loses no waiter |
| `SchedulerLiveness.WaitersAreNeverStranded` | internal/gateway/scheduler.go:321-354 | while someone waits, an operation is in flight or a lease is out |
| `SchedulerLiveness.QuietRunServesEveryone` | internal/gateway/scheduler.go:286-355 | once arrivals, cancels and failures stop, every run is finite and ends with every waiter granted in queue order, with at most one Start per run of equal allocations |
| `SchedulerLiveness.ReachableBecomesLive` | internal/gateway/scheduler.go:357-360 | every reachable state that may still serve satisfies the hypothesis of the progress theorem after one pass |
| `SchedulerEnding.EveryoneIsAnswered` | internal/gateway/scheduler.go:388-444 | once arrivals, cancels and reports of failure stop: if leases are released and operations return, with any outcome, every run is finite and ends with every waiter granted or denied |
| `SchedulerEnding.ClosingTurn` | internal/gateway/scheduler.go:379-444 | each release or result, failed ones included, decreases the measure and forgets no waiter |
| `SchedulerEnding.ReachableSettles` | internal/gateway/scheduler.go:357-360 | every reachable state outside shutdown satisfies the hypothesis of that theorem after one pass |
| `SchedulerEnding.ShutdownEnds` | internal/gateway/scheduler.go:288-304 | asked for in any state, shutdown ends at once or within active + 2 releases and results of any outcome, whatever else is sent, and is never stuck before |
| `SchedulerEnding.EndingTurn` | internal/gateway/scheduler.go:428-460 | under shutdown no event adds to what is still to come, and a release or a result leaves less or ends the loop |
| `SchedulerCallers.CancelExactly` | internal/gateway/scheduler.go:372-378 | after a cancel the queue is the old one in order without exactly that caller, noted as withdrawn if and only if it waited |
| `SchedulerCallers.PruneDropsTheDone` | internal/gateway/scheduler.go:248-256 | after a prune nobody waits whose context is done |
| `SchedulerCallers.TurnLeft` | internal/gateway/scheduler.go:357-460 | in one turn only callers that cancel, or whose context is done, leave the queue unanswered |
| `SchedulerCallers.NobodyIsForgotten` | internal/gateway/scheduler.go:228-461 | over every run, a caller that was accepted, never cancels and whose context is never done is granted, denied or still waiting |
| `SchedulerCallers.TraceIsTruthful` | internal/gateway/scheduler.go:360-460 | over every run each request, release, failure, result and shutdown is noted once, in order and for what it is: a Start succeeded exactly when it returned an upstream and no error |
| `SchedulerCallers.LastErrorIsTrue` | internal/gateway/scheduler.go:383-444 | over every run the last error is that of the last failed Start, Stop or resident lease, until a Start succeeds |
| `SchedulerCallers.StatusIsTrue` | internal/gateway/scheduler.go:445-450 | the status reported between turns is what the trace shows: allocation, phase, leases, waiters, last error, upstream |
| `SchedulerCallers.NoSlotIsIdle` | internal/gateway/scheduler.go:339-350 | whoever waits first for what is resident waits only because the configured limit is reached |
| `Scheduler.EventLoop.Prune` | internal/gateway/scheduler.go:248-256 | removes exactly the done callers, in order |
| `Scheduler.PruneIs` | internal/gateway/scheduler.go:248-256 | pruning one by one is the filter of the queue, with one entry for each caller removed |
| `Scheduler.DenyForIs` | internal/gateway/scheduler.go:414-424 | a clean start failure denies exactly the waiters of that allocation, in order, and keeps the others |
| `Scheduler.EventLoop.GrantWaiters` | internal/gateway/scheduler.go:340-350 | grants from the front while the allocation matches and the limit allows |
| `Scheduler.EventLoop.Progress` | internal/gateway/scheduler.go:286-355 | one pass of progress, every branch |
| `Scheduler.EventLoop.OnCancel` | internal/gateway/scheduler.go:372-378 | removes the waiter with that number, if any; `SchedulerCallers.CancelExactly` says what that leaves |
| `Scheduler.EventLoop.OnResult` | internal/gateway/scheduler.go:388-444 | the result of an operation, both kinds, all error paths |
| `Scheduler.EventLoop.Turn` | internal/gateway/scheduler.go:357-460 | one turn computes the specified step and keeps the invariant |
| `EventStream.LinesSnoc` | internal/gateway/stream_keepalive.go:136-151 | how one more byte changes the lines of a stream split at CR, LF and CRLF (section 9.2.6 of the WHATWG HTML Standard) |
| `KeepaliveSpec.FramingMeans` | internal/gateway/stream_keepalive.go:130-151 | after any prefix the flags say exactly: last terminated line empty or nothing sent, unfinished line not empty, last byte CR |
| `KeepaliveSpec.FramingAgrees` | internal/gateway/stream_keepalive.go:80-87 | framing the bytes sent, comments included, gives the framing of the upstream bytes |
| `KeepaliveSpec.CommentsDoNotMatter` | internal/gateway/stream_keepalive.go:108-114 | a standard interpreter ends in the same state, unfinished line included, with and without the comments |
| `KeepaliveSpec.InterpretExactly` | internal/gateway/stream_keepalive.go:108-114 | what a client makes of any stream with comments, byte order marks included |
| `KeepaliveSpec.SameEventsWithoutBOM` | internal/gateway/stream_keepalive.go:108-114 | without a leading mark a client sees the same events |
| `KeepaliveSpec.LeadingCommentCanLoseAnEvent` | internal/gateway/stream_keepalive.go:108-114 | a comment before a leading mark can hide an event |
| `Keepalive.Body.constructor` | internal/gateway/stream_keepalive.go:53-61 | the initial body: nothing pending, read or sent |
| `Keepalive.Body.Observe` | internal/gateway/stream_keepalive.go:136-151 | the byte loop computes the framing function |
| `Keepalive.Body.OnTick` | internal/gateway/stream_keepalive.go:108-114 | a tick with nothing pending makes one whole comment pending if and only if the upstream bytes sent so far end at an event boundary and not in a bare CR; otherwise nothing changes |
| `Keepalive.Body.Wait` | internal/gateway/stream_keepalive.go:92-117 | waiting ends as soon as a tick or a finished read leaves bytes pending |
| `Keepalive.Body.OnReceive` | internal/gateway/stream_keepalive.go:105-107 | exactly the bytes of the finished read become pending, with its error |
| `Keepalive.Body.Background` | internal/gateway/stream_keepalive.go:63-78 | whatever the reader goroutine does, at most one read is outstanding and no pending byte is overwritten |
| `Keepalive.Body.Read` | internal/gateway/stream_keepalive.go:80-117 | pending bytes are always returned, as many as fit, in order; a call with nothing pending waits only through ticks that may not send a comment; an error comes only after every upstream byte and every pending byte |
| `Keepalive.Body.Close` | internal/gateway/stream_keepalive.go:119-128 | returns only once the reader goroutine has ended, whatever it does meanwhile, and keeps every invariant |
| `Keepalive.Body.ClientSeesUpstreamEvents` | internal/gateway/stream_keepalive.go:80-117 | whenever nothing is pending, the client's events are those of the upstream bytes received |
| `Completion.VerdictIgnoresOrder` | internal/gateway/completion.go:134-143 | a choice's reason and conflict are determined by the set of reasons reported for it |
| `Completion.PermutedEvidence` | internal/gateway/completion.go:69-152 | permuting the events leaves every choice's state unchanged |
| `Completion.EvidencePartial` | internal/gateway/completion.go:52-152 | how each piece of evidence, `[DONE]` included, moves the partial and done marks |
| `Completion.PartialMeans` | internal/gateway/completion.go:48-152 | the partial mark is set exactly for truncated, unparsable or contradictory evidence, repeated `[DONE]`, or JSON after it |
| `Completion.AvailableMeans` | internal/gateway/completion.go:194-215 | `available` if and only if the evidence is clean, every seen choice has one reason of the closed five, at least one was seen, and a stream had exactly one final `[DONE]` |
| `Completion.VerdictExactly` | internal/gateway/completion.go:194-215 | all three verdicts, by conditions on the evidence: partial unless it is sound, and also if only some of the choices seen settled; else available or unavailable by whether one settled |
| `Completion.FinishesExactly` | internal/gateway/completion.go:194-215 | a choice is listed with a reason if and only if that is the one reason ever reported for it |
| `Completion.InPlace.ObserveOne` | internal/gateway/completion.go:89-144 | one element of `choices`, in place |
| `Completion.InPlace.ObserveField` | internal/gateway/completion.go:69-152 | the whole `choices` field, in place |
| `Completion.InPlace.Report` | internal/gateway/completion.go:194-215 | the verdict and the reasons by choice |
| `Observer.ChunkingDoesNotMatter` | internal/gateway/observability.go:525-589 | if every line fits the bound, two chunkings of one stream give the same report |
| `Observer.BodyChunkingDoesNotMatter` | internal/gateway/observability.go:471-486 | two chunkings of any plain response give the same report |
| `ObserverVerdict.VerdictIsOfTheEvidence` | internal/gateway/observability.go:525-597 | for every chunking the collector holds the evidence of the events read, plus one give-up for each line, event or end that was cut off |
| `ObserverVerdict.AvailableExactly` | internal/gateway/observability.go:488-597 | a stream is reported available if and only if every line and event fits and is ended, each event is clean JSON or `[DONE]`, `[DONE]` comes once and last, and every choice has one reason of the closed five |
| `ObserverVerdict.IntactVerdict` | internal/gateway/observability.go:488-597 | the verdict and the reasons of a stream that is not cut off, from its events alone |
| `ObserverVerdict.BodyAvailableExactly` | internal/gateway/observability.go:471-500 | the same for a plain body within its bound |
| `ObserverVerdict.DamagedIsPartial` | internal/gateway/observability.go:529-577 | a line or event over the bound, or not ended, anywhere in the stream and however it is chunked, makes the verdict partial |
| `ObserverVerdict.OverlongLineDependsOnChunking` | internal/gateway/observability.go:529-543 | after any line over the bound, the reported token count depends on where a chunk ended |
| `ObserverCounts.LastMeans` | internal/gateway/observability.go:606-658 | the count taken is that of the last event that reports one, and none exactly if no event does |
| `ObserverCounts.StreamCounts` | internal/gateway/observability.go:488-659 | for a stream whose lines and events fit, each token count and timing is the last one reported; cached prefers usage over timings; input and output fall back to timings exactly when usage never gave them, within 63 bits; first output is noted exactly when an event generates |
| `ObserverCounts.BodyCounts` | internal/gateway/observability.go:471-523 | the same for a plain body, from its one object |
| `ObserverClient.ObserverReadsClientEvents` | internal/gateway/observability.go:525-589 | for streams in the usual form the observer reads the data of exactly the events that a standard client dispatches (section 9.2.6 of the WHATWG HTML Standard) |
| `Observer.PartialIsSticky` | internal/gateway/completion.go:48-50 | no event clears the partial mark |
| `Observer.ResponseObserver.Observe` | internal/gateway/observability.go:471-486 | one chunk, in either mode, within the memory bounds |
| `Observer.ResponseObserver.ObserveSSE` | internal/gateway/observability.go:525-548 | splits a chunk at line feeds against the carried line |
| `Observer.ResponseObserver.ConsumeSSELine` | internal/gateway/observability.go:550-577 | one line: dispatch, ignore, or append to the event within its bound |
| `Observer.ResponseObserver.ConsumeSSEEvent` | internal/gateway/observability.go:579-589 | one event: `[DONE]`, JSON or empty; `ObserverCounts.StreamCounts` says what the counts then are |
| `Observer.ResponseObserver.Finish` | internal/gateway/observability.go:488-523 | the final report from what is left in the buffers; `ObserverCounts` and `ObserverVerdict` say what it holds |
| `LedgerSpec.RecencyFalls` | internal/gateway/usage.go:111-136 | the sessions of a history by last use, each once, strictly falling |
| `LedgerSpec.CachedMeans` | internal/gateway/usage.go:111-136 | a session is retained if and only if fewer than 64 were used after it |
| `LedgerSpec.RecentSessionIsCached` | internal/gateway/usage.go:229-250 | every session in the window of recent records is retained |
| `LedgerSpec.UseEvicts` | internal/gateway/usage.go:118-127 | evicting the least recently used of a full cache gives the cache of the longer history |
| `LedgerSpec.ReportsAreUnambiguous` | internal/gateway/request_reports.go:55-110 | under track, at most one add, untrack: no request is both active and completed, none is recorded twice, and none stays active |
| `LedgerSpec.ActiveIsCurrent` | internal/gateway/request_reports.go:55-75 | over every run of calls the table of active requests has at most 128, each in the phase last said of it, and all of them if there were never more |
| `Ledger.RequestLedger.Add` | internal/gateway/observability.go:132-140 | one more record of history; ring, sessions and active table agree with it |
| `Ledger.RequestLedger.AddUsage` | internal/gateway/usage.go:111-136 | the cache becomes that of the longer history |
| `Ledger.RequestLedger.Oldest` | internal/gateway/usage.go:119-126 | the scan finds the least recently used session, in any map order |
| `Ledger.RequestLedger.Recent` | internal/gateway/observability.go:142-177 | the newest min(limit, 64) records, newest first |
| `Ledger.RequestLedger.RecentSessions` | internal/gateway/usage.go:229-250 | exactly the sessions of the recent window, each once, latest use first, and every lookup hits |
| `Ledger.RequestLedger.Track` | internal/gateway/request_reports.go:55-75 | the active table, bounded |
| `Ledger.RequestLedger.Untrack` | internal/gateway/request_reports.go:77-83 | removes one entry |
| `Ledger.RequestLedger.Find` | internal/gateway/request_reports.go:85-110 | finds a completed record if and only if one of the newest 64 has the number, else the active entry |
| `Counters.AddInPlace` | internal/gateway/statistics.go:220-224 | each of 19 counters is the sum capped at 2^64-1 |
| `Counters.MergeBatch` | internal/gateway/statistics_sqlite.go:220-226 | one row per key, each the capped total of the batch |
| `Counters.UpsertAll` | internal/gateway/statistics_sqlite.go:227-243 | the capped upsert of every merged row |
| `Counters.WriteRows` | internal/gateway/statistics_sqlite.go:220-251 | the table after one committed batch, expiry included |
| `Counters.RowIsExact` | internal/gateway/statistics_sqlite.go:199-268 | after any committed batches, whatever their cutoffs and the rows at opening, a row is there if and only if something of it has not expired, and each counter is min(true sum of what has not, 2^63-1) |
| `Counters.ExpiryForgets` | internal/gateway/statistics_sqlite.go:199-203 | what came before a day expired never counts again |
| `Counters.ClockMovedBack` | internal/gateway/statistics_sqlite.go:199-203 | so with a cutoff that moves back an event recorded twice can count once |
| `Counters.StoreIsExact` | internal/gateway/statistics_sqlite.go:205-268 | with a cutoff that never moves back, a new store holds the capped sums of all its retained events |
| `Counters.BatchingDoesNotMatter` | internal/gateway/statistics_sqlite.go:205-268 | batchings that give each day the same events since its last expiry give the same rows |
| `Counters.SplittingABatch` | internal/gateway/statistics_sqlite.go:205-268 | cutting any batch in two changes no row, in any history |
| `Counters.ReadTotals` | internal/gateway/statistics.go:381-409 | the totals of a snapshot, overall, by day and by model |
| `Counters.PairingSurvives` | internal/gateway/statistics.go:394-409 | cached <= input in the reuse pair survives memory saturation, the SQL cap, expiry, any batching and summation |
| `Counters.EventCounters` | internal/gateway/statistics.go:165-206 | the counters of one record fit 64 bits, with one outcome, implausible parts dropped and reuse paired; `Counters.CountersReadBack` says which column holds what |
| `Counters.CountersReadBack` | internal/gateway/statistics.go:165-218 | reading the counters of one record back gives one request with its own outcome, each amount in its own place with one observation exactly if present, not negative and plausible, and reuse from the same input and cached amounts |
| `Statistics.LossesAreAccounted` | internal/gateway/statistics_sqlite.go:244-268 | in every run `dropped - persistedDropped` equals the uncommitted losses modulo 2^64, `pending` what is in flight; once stopped, every accepted event is committed or lost exactly once |
| `Statistics.ReachedIsSound` | internal/gateway/statistics.go:230-269 | the accounting invariant holds wherever a run of the store's steps leads, which every method of the store keeps being |
| `Statistics.CommitBalances` | internal/gateway/statistics_sqlite.go:264-266 | a commit settles exactly the sampled losses; overflows since then stay outstanding |
| `Statistics.FinalCommitSettlesEverything` | internal/gateway/statistics.go:271-277 | a successful final transaction leaves no loss uncounted |
| `Statistics.AddLossExactly` | internal/gateway/statistics_sqlite.go:244-251 | a loss is added to the row of the day, made if absent, capped at 2^63-1; no other day changes |
| `Statistics.ExpireExactly` | internal/gateway/statistics_sqlite.go:199-203 | expiry keeps exactly the days from the cutoff on, unchanged |
| `Statistics.CommitRecordsLosses` | internal/gateway/statistics_sqlite.go:244-262 | the health table after a commit, day by day |
| `Statistics.TableAccountsForLosses` | internal/gateway/statistics_sqlite.go:244-268 | over every run that caps and expires nothing, the table grew by exactly the losses reported, and by every loss once none is outstanding |
| `Statistics.LossesHaveCauses` | internal/gateway/statistics.go:146-163 | over every run queue and batch stay bounded, the events accounted for are those handed in, and one is lost only by finding the queue full or in a batch that failed |
| `Statistics.FailConserves` | internal/gateway/statistics.go:260-266 | a failed batch becomes lost, each of its events once |
| `Statistics.PendingKeeps` | internal/gateway/statistics.go:267-267 | `pending` stays what is in flight through every step |
| `Statistics.ClosingKeeps` | internal/gateway/statistics.go:281-291 | after closing nothing is accepted, and the writer stops only with nothing left |
| `Statistics.Recorder.constructor` | internal/gateway/statistics_sqlite.go:115-132 | an opened store keeps the unexpired rows and starts its counters at the retained losses |
| `Statistics.Recorder.Record` | internal/gateway/statistics.go:146-163 | enqueue or drop without waiting |
| `Statistics.Recorder.Collect` | internal/gateway/statistics.go:234-255 | collects up to 128 queued events, in order, losing none |
| `Statistics.Recorder.Skips` | internal/gateway/statistics_sqlite.go:205-214 | an idle tick writes nothing if and only if it is too soon after a failure, or no loss is outstanding and the day is unchanged |
| `Statistics.Recorder.Write` | internal/gateway/statistics_sqlite.go:205-268 | commits rows and loss accounting together, or neither; the maintenance day advances only with a commit |
| `Control.NextKeeps` | internal/gateway/control.go:89-118 | every step of every process keeps: the lock has one live holder, a running gateway's socket is at its path |
| `Control.OneHolder` | internal/gateway/control.go:89-94 | after any interleaving at most one process holds the lock |
| `Control.OnlyTheOwnerUnlinks` | internal/gateway/control.go:244-268 | no step of another process unlinks a running gateway's socket |
| `Control.LiveSocketSurvives` | internal/gateway/control.go:142-151 | nor does any sequence of such steps |
| `Control.RestartSucceeds` | internal/gateway/control.go:95-109 | after any crash a start that gets the lock replaces the stale socket |
| `Control.StaleSocketIsCleared` | internal/gateway/control.go:244-268 | a stop client that finds the socket of a dead gateway removes it and leaves no lock |
| `Control.OthersSocketIsLeft` | internal/gateway/control.go:257-263 | a socket replaced in the meantime is left alone |
| `Control.CloseLeavesNothing` | internal/gateway/control.go:142-151 | a gateway that closes, or gives up on its socket, removes it and releases the lock |
| `Control.LocalControl.Accept` | internal/gateway/control.go:153-170 | a connection gets a handler, or is turned away once finishing |
| `Control.LocalControl.Command` | internal/gateway/control.go:172-185 | a valid stop is noted and waits, anything else is refused and requests nothing |
| `Control.LocalControl.Answer` | internal/gateway/control.go:186-191 | a waiting stop gets the shutdown's true outcome |
| `Control.LocalControl.Finish` | internal/gateway/control.go:129-135 | the outcome is published once |
| `Control.LocalControl.FinishReturns` | internal/gateway/control.go:136-139 | when it returns every accepted stop was answered, truthfully |
| `Build.Closure.Visit` | internal/application/registry.go:155-175 | terminates; adds what the unit needs, prerequisites first, or gives a justified error |
| `Build.BuildClosure` | internal/application/registry.go:147-182 | for every table: exactly the units needed, once each, prerequisites first; an error if and only if an unknown unit or a cycle is needed |
| `Build.OrderedHasNoError` | internal/application/registry.go:156-166 | an ordering that holds the targets rules out unknown units and cycles |
| `Build.RunSteps` | internal/cli/commands_basic.go:104-130 | a step runs exactly when its prerequisites built; the failure flag says whether one failed |
| `Build.RunsAfterAllPrerequisites` | internal/cli/commands_basic.go:108-130 | in closure order a step runs only after all transitive prerequisites built |
| `Build.SuccessMeansAllBuilt` | internal/cli/commands_basic.go:144-147 | success is reported if and only if every step built |
| `ConfigText.StripMeans` | internal/config/parser.go:366-397 | the kept text is exactly the prefix whose strings are closed, without a bare `#`, followed by nothing or a `#`; rejection if and only if there is none (TOML v1.0.0, Comment) |
| `ConfigValues.QuoteRoundTrip` | internal/config/parser.go:185-253 | parsing a quoted Go string, valid UTF-8 or not, gives it back if every part has a TOML escape, and is refused otherwise (TOML v1.0.0, String) |
| `ConfigValues.LiteralRoundTrip` | internal/config/parser.go:190-199 | parsing a literal string gives it back unless it has a control character |
| `ConfigValues.ArrayRoundTrip` | internal/config/parser.go:276-328 | every written list of basic and literal strings, with any blanks and with or without a last comma, reads back or is refused for its first mistake |
| `ConfigValues.IntegerMeans` | internal/config/parser.go:330-364 | accepted with value n if and only if the digits without underscores are the canonical numeral of n, under its sign, in 64 bits |
| `ConfigValues.IntegerRoundTrip` | internal/config/parser.go:330-364 | every 64-bit integer reads back, every other is refused |
| `ConfigSpec.SettingNamesAreUnambiguous` | internal/config/parser.go:55-61 | a full setting name stands for one section and key |
| `ConfigSpec.ParsedIsWellTyped` | internal/config/parser.go:59-66 | for every text, stored values have their setting's type and are never overwritten |
| `ConfigSpec.ShownValue` | internal/config/parser.go:84-179 | a printed value parses to what it says, or to the type error of the setting |
| `ConfigSpec.ParsesToMeaning` | internal/config/parser.go:14-69 | the text of any document, with any spacing, comments, duplicates and mistakes, parses to what the document says, down to line and error |
| `ConfigMeaning.SectionsAreExact` | internal/config/parser.go:71-82 | a section is known by its own name and no other text |
| `ConfigMeaning.SettingsAreExact` | internal/config/parser.go:84-176 | a setting is known by its key in its own section and nowhere else |
| `ConfigMeaning.MeaningExactly` | internal/config/parser.go:14-69 | what a document says, without the parser's state: accepted if and only if every line is legal, each setting with the value of its one assignment; else the first illegal line and what is wrong with it |
| `ConfigScript.KeyMeans` | internal/config/parser.go:86-175 | every one of the 15 settings can be written, under one key of one section |
| `ConfigDefault.DefaultsRoundTrip` | internal/config/config.go:265-294 | for every data directory, valid UTF-8 or not, the default file parses to it and the stated defaults, or line 5 is rejected, by an exact condition on its characters and bytes |
| `ConfigDefault.PrintableDirectorySurvives` | internal/config/config.go:265-294 | every printable ASCII directory round-trips, with `#`, quotes and backslashes |
| `Config.StripComment` | internal/config/parser.go:366-397 | the loop computes the comment scan |
| `Config.ValidateBasicString` | internal/config/parser.go:217-253 | the loop computes the check of a basic string |
| `Config.ReadString` | internal/config/parser.go:185-215 | both kinds of strings, all errors |
| `Config.ReadArray` | internal/config/parser.go:276-328 | the nested loops compute the array parser |
| `Config.ReadInteger` | internal/config/parser.go:330-364 | the loop computes the integer parser |
| `Config.ReadConfiguration` | internal/config/parser.go:14-69 | the line loop computes the whole parser |
| `Download.Target.Download` | containers/content_tools/download.py:47-138 | one attempt against any reply: what the file then holds and whether it succeeded |
| `Download.Target.Receive` | containers/content_tools/download.py:115-138 | the read loop appends a prefix of the reply, never past the bound, all of it if it fits |
| `Download.Target.DownloadBounded` | containers/content_tools/download.py:141-184 | one download with a maximum size against any reply |
| `Download.AttemptKeepsPrefix` | containers/content_tools/download.py:71-138 | with a server that honours ranges (section 14.4 of RFC 9110) an attempt keeps the file a prefix; success with the right size means equality |
| `Download.AttemptNeverExceeds` | containers/content_tools/download.py:116-130 | a changed file never exceeds the expected size and a resumed one keeps its bytes |
| `Download.InterruptedDownloadsConverge` | containers/content_tools/download.py:47-138 | over any sequence of interrupted attempts the file is a prefix of the content, and success means equality |
| `Download.UnbrokenReplyCompletes` | containers/content_tools/download.py:115-138 | by the reply's own headers: an unbroken reply with the rest, or the whole, completes any prefix |
| `Download.ResumeCompletes` | containers/content_tools/download.py:90-138 | a 206 that begins at the size of a short file, with a declared size within the rest, keeps its bytes and appends; success exactly if unbroken and the sizes add up |
| `Download.StartingOverReplaces` | containers/content_tools/download.py:76-138 | any other acceptable reply replaces the file |
| `Download.RefusedLeavesFile` | containers/content_tools/download.py:80-114 | a wrong range, too large a declared size or an error status leaves the file as it was |
| `Download.BoundedIsWhole` | containers/content_tools/download.py:141-184 | a bounded download succeeds only with the whole reply, not empty and within the bound, and never keeps earlier bytes |
| `Download.DeclaredSizeProtects` | containers/content_tools/download.py:163-184 | with a declared size success means the content itself |

## Left out

- HTTP proxying, routing, authentication, the web page and residency probes: input and output around the modelled cores.
- `internal/gateway/lifecycle.go` and Podman: only the Lifecycle contract is kept, as any sequence of results that Start and Stop may give.
- JSON decoding, SHA-256, SQLite and the clock: they appear as decoded records, opaque values, atomic transactions and supplied days.
- Floating-point ratios, throughput and draft metrics: not modelled.
- Cancelling the context of a running Start at shutdown: only whether a cancel function is stored is kept, since the result may be anything either way.
- Wrap-around of generation, sequence and request numbers at 2^64: these are unbounded.
- The two outcomes of telling a waiter its error (received, or its context done first) are one trace entry.
- SchedulerLiveness.QuietRunServesEveryone: assumes that no caller's context is done any more, so no offered lease is lost to a race.
- SchedulerEnding.EveryoneIsAnswered: assumes the same.
- Keepalive.Body.Read: the wait is a schedule of events; a schedule that ends first leaves the call waiting.
- Observer.ChunkingDoesNotMatter: is about lines within the bound; past it only the verdict and the memory bound are independent of the chunks.
- ObserverCounts.StreamCounts: is about lines and events within their bounds; past them counts can depend on the chunks. Draft timings and the preference among alternative names of one count belong to JSON decoding.
- ObserverClient.ObserverReadsClientEvents: needs every CR to be followed by LF, no byte order mark and no empty data line; the observer splits at LF only.
- Statistics.TableAccountsForLosses: a row capped at 2^63-1 or expired forgets losses; `Statistics.CommitRecordsLosses` gives every row in every case.
- Ledger.RequestLedger.AddUsage: leaves out the aggregates per model and session other than the session's last use, each one saturating sum.
- Statistics.Recorder.Write: whether the database works is a parameter; whether the retry delay after a failure has passed is one of `Statistics.Recorder.Skips`.
- Statistics.Recorder.constructor: the marks for an unclean shutdown are not modelled.
- Ownership, permission and deadline checks of the control socket and its commands.
- Build.RunSteps: whether each command succeeds is a parameter; steps are distinct, as `Build.BuildClosure` proves they are.
- UTF-8 validation of a configuration file's bytes: the parsed text is a sequence of characters.
- ConfigDefault.DefaultsRoundTrip: which characters beyond ASCII count as printable is a parameter, so it holds for every choice.
- Keepalive.Body.Close: the upstream's own Close, which unblocks its pending Read, is one of the reader's steps.
- Download.Target.Download: redirects, credentials and the HTTPS check are not modelled.
- Speculative benchmark checkpoints, catalog and content-pack validation, doctor output, prompts, reports, client configuration and the C++ and profile fixtures: independent checks or user interface.
