# Verified model of the evolution platform's cores

A Dafny model of the protocols and computations that decide what happens to
bots, their classes, their scores and their budgets, with proofs about every
run of them. One module per component:

- **ClassMachine**, **GodLayerDb**, **GodLayerHistory**, **GodLayerProtocol**:
  how a council verdict moves a bot through Novice, Understudy, Artisan and
  Retired, under at-least-once delivery and many concurrent workers.
- **SseReader**: the incremental reader of server-sent events in the OpenClaw
  client (a subset of section 9.2.6 of the WHATWG HTML Living Standard).
- **RateLimiter**: the fixed-window limiter of the tool routes.
- **Dispatcher**, **Campaign**, **Billing**: bot leases and counters, the chain
  of evolution iterations, atomic spend, message de-duplication and alerts.
- **Scoring**, **DnaCapture**, **Slug**, **Council**, **FleetFeed**: metrics and
  composite scores, elite selection and DNA payloads, category slugs, the
  weighted council vote with partial failure, the merged event feed.
- **Prelude**: options, lookups and sums over sequences.

`dafny verify dfyconfig.toml` checks the whole project.

## How the model is built

A protocol is a total function `Step(state, event)` in which an event that is not
enabled changes nothing, and `Run(events)` folds it over any list of events. The
events of different jobs interleave freely, so a statement about `Run(events)`
for all `events` is a statement about every interleaving, redelivery, failure
and crash. Each protocol also has a class whose fields are the shared mutable
state and whose methods perform one atomic step each, proved equal to the step
function. Code with loops is a method with loops, proved against a function
whose properties are then proved as lemmas.

The God Layer transaction is split into a read step and a commit step, so
nothing but the category lock makes it serial. The replay it is compared with
uses the snapshot that each job loads before it takes the lock.

Assumptions, all about code or services outside the model:

- every job has a category, from the job or from the soul row;
- the lock key of a live holder does not expire (it lives 300 s and is renewed
  every 60 s); a key whose holder is gone may expire at any time;
- `createExecution` returns ids that were never used before;
- the database writes of a dispatch succeed;
- the query builder emits LIMIT only for a number from zero on, as drizzle-orm
  0.45.1 does;
- numbers are exact: reals for scores, weights and confidences, unbounded
  integers for counters, cents and milliseconds.

## Where the code departs from its stated intent

- **Rate limit per (user, tool) pair.** The pair is joined with a colon, so some
  different pairs share a bucket; `PairSharesBucketIffAmbiguous` says exactly
  which. And the buckets are module-level, shared by all limiters of a process
  whatever their options: `BoundHoldsIffHarmless` says exactly which other options
  can loosen a limit (in essence shorter windows, or a quota of zero). At present
  no route mounts two limiters with different options.
- **100 requests per window.** Any interval of one window may see up to
  2 * 100 - 1 admissions, and `BoundIsReached` shows that it can. The quota bounds
  such an interval only for quotas of at most one request or windows of at most a
  millisecond (`QuotaIsBoundIff`).
- **Lock release.** Clean-up uses the category of the job only. A job that takes
  its category from the soul row never frees the lock and its category stays
  blocked until the key expires (`ReleaseFreesIffJobNamesCategory`,
  `LockStaysBehind`).
- **Redelivered jobs.** The claim comes before the work and is never undone, so a
  redelivery after a failure finds its verdict claimed and skips it: the verdict of
  a failed delivery is never committed (`FailedVerdictIsLost`).
- **Retried charges.** A message whose handler fails is sent back for redelivery,
  but its id was marked before the handler ran, so the redelivery is taken for a
  duplicate: that message is never charged (`FailedMessageIsFree`).
- **Budget alerts at 50, 75 and 90 percent.** A check sends at most one alert, the
  lowest that is due, so one large charge announces 0.5 only
  (`OneJumpSendsOneAlert`); `AlertsSentIffClimbed` says when all are sent. The
  latch lives in the process, so a threshold can be announced twice
  (`RestartRepeatsAnAlert`); that is so exactly when checks of two processes reach
  the first threshold (`LatchedTwiceIffReachedTwice`).
- **Event streams.** The carriage return of a CR LF line end is stripped from
  event and data lines, but a blank line then no longer clears the event type.
  The CR LF form of a stream is read like the LF form exactly as long as no data
  relies on that (`CrLfReadAlikeIffNothingStale`), which the frames of a server
  that names every event never do. A terminal line without its line feed is
  dropped (`UnterminatedTailIsDropped`).
- **Category slugs.** The cut at 255 characters can leave a trailing hyphen, and
  then deriving the category again gives another one. It happens exactly when 254
  characters are some but not all of the words (`TrailingHyphenIffWordEnds`).
- **Feed limit.** The cap of 100 has no lower counterpart: a negative limit is no
  LIMIT for the queries and drops rows from the old end of the feed instead. The
  cap holds exactly for the other limits (`FeedIsCappedIffNotNegative`).
- **Elite bots.** Scoring weights with sum zero leave NaN scores, and NaN passes
  every comparison that turns a bot away (`NaNLowersTheBar`, `NaNVoidsTheBound`).
- **Negative signals.** The transaction asks for a soul-driven verdict before it
  records a demotion; that condition always holds (`NegativesAreProjection`).

## Model

| member | source | states |
|---|---|---|
| ClassMachine.CountersAreHistory | services/execution-service/src/god-layer/class-machine.ts:84-117 | after any verdict history the three counters are the runs above, the runs below and the human confirmations of the whole history, and the streak is the exact length of the trailing run below benchmark; no transition resets any of them |
| ClassMachine.TransitionsByRecord | services/execution-service/src/god-layer/class-machine.ts:119-208 | for every history, an exact condition for each of the four transitions in terms of the current class, the verdict and the record: runs and confirmations so far for promotions, the last two runs for a demotion, no more than not being retired yet for a retirement |
| ClassMachine.ClassFollowsTransition | services/execution-service/src/god-layer/class-machine.ts:123-208 | for every history, what each transition does to the class: a promotion leads one step up, a demotion of an Understudy or Artisan leads to Novice, a retirement to Retired, and without a transition the class stays |
| ClassMachine.ClassFollowsRecord | services/execution-service/src/god-layer/class-machine.ts:119-208 | the class after every verdict as one function, with the thresholds written out, of the class before, the verdict, the runs and confirmations so far and whether the last two runs were below |
| ClassMachine.RetiredIsAbsorbing | services/execution-service/src/god-layer/class-machine.ts:123-126 | from the first retired state on, every later state is retired and every later transition is none |
| ClassMachine.SpentForever | services/execution-service/src/god-layer/class-machine.ts:84-208 | a bot that is Artisan, Retired or has two runs below benchmark stays in that set for good and never graduates from it |
| ClassMachine.ArtisanAtMostOnce | services/execution-service/src/god-layer/class-machine.ts:138-204 | no graduation to Artisan follows a graduation or a demotion, however long the history |
| ClassMachine.CanStillGraduateIffUnspent | services/execution-service/src/god-layer/class-machine.ts:185-204 | some continuation of a history graduates the bot if and only if it is not in that set |
| ClassMachine.DemotionForcesBelow | services/execution-service/src/god-layer/class-machine.ts:145-160 | a demotion leaves at least two runs below benchmark on record at every later time |
| ClassMachine.SetbacksAreSoulDriven | services/execution-service/src/god-layer/class-machine.ts:128-163 | every demotion and every retirement comes from a soul-driven verdict |
| GodLayerDb.OverlapIsNotSerial | services/execution-service/src/queue/god-layer-worker.ts:237-248 | two transactions of one category that both read before either writes leave tables equal to neither serial order, from any starting tables: the category lock is necessary |
| GodLayerDb.WriteBackFrame | services/execution-service/src/queue/god-layer-worker.ts:273-505 | a transaction of one category, whatever it read, changes no row that a transaction of another category reads |
| GodLayerDb.Store.DetectAndTrackPioneer | services/execution-service/src/god-layer/pioneer-tracker.ts:60-121 | inserts the benchmark on the first confirmed run and otherwise updates only run count and flags; the caller learns whether it is the pioneer, the maturity and the unchanged baseline |
| GodLayerDb.Store.SelectMaxVersion | services/execution-service/src/god-layer/dna-writer.ts:68-78 | the loop finds the greatest version of one (category, soul) pair, or none |
| GodLayerDb.Store.WriteVersionedDnaEntry | services/execution-service/src/god-layer/dna-writer.ts:64-98 | appends exactly one entry, numbered one above the greatest version of its pair, and leaves the existing entries alone |
| GodLayerDb.Store.UpdateAgentClass | services/execution-service/src/queue/god-layer-worker.ts:306-412 | loads or creates the class row of (bot, category), moves it with the class machine and writes it back, other rows unchanged |
| GodLayerDb.Store.Write | services/execution-service/src/queue/god-layer-worker.ts:273-505 | the write statements of a transaction with rows it read earlier: with current rows they equal the transaction run alone, and whatever was read no row of another category and no existing DNA entry or signal changes |
| GodLayerDb.Store.RunTransaction | services/execution-service/src/queue/god-layer-worker.ts:273-505 | the transaction body in the order of its statements, each table read just before it is written, equals reading all rows first and writing them afterwards: splitting it into two steps loses nothing |
| GodLayerHistory.BenchmarkIsProjection | services/execution-service/src/god-layer/pioneer-tracker.ts:78-120 | after any list of commits each benchmark is determined by the commits of its category alone: first committed score as baseline, run count, flags at 3 and 5 runs |
| GodLayerHistory.ClassRowIsProjection | services/execution-service/src/queue/god-layer-worker.ts:276-412 | each class row is the class machine run over the verdicts of its own bot and category, each compared with the first score of the category |
| GodLayerHistory.DnaIsProjection | services/execution-service/src/queue/god-layer-worker.ts:414-467 | the DNA log is exactly the commits with a soul and a category, in commit order, with version, class at write and pioneer mark read off the commit list |
| GodLayerHistory.VersionsAreContiguous | services/execution-service/src/god-layer/dna-writer.ts:68-98 | the versions of every (category, soul) pair are 1, 2, ..., n in that order, n being its commits |
| GodLayerHistory.ExactlyOnePioneer | services/execution-service/src/queue/god-layer-worker.ts:276-412 | in a benchmarked category a bot is flagged pioneer if and only if it is the bot whose first score is the baseline |
| GodLayerHistory.TransitionIsProjection | services/execution-service/src/queue/god-layer-worker.ts:357-380 | the transition a commit makes is the one the class machine makes on the verdicts of that bot and category so far |
| GodLayerHistory.NoSecondCareer | services/execution-service/src/queue/god-layer-worker.ts:357-412 | between any two commits of one bot and category: nothing follows a retirement, no graduation follows a graduation or a demotion |
| GodLayerHistory.NegativesAreProjection | services/execution-service/src/queue/god-layer-worker.ts:469-504 | the register holds one signal for every demotion or retirement of a bot with a soul and no other; the soul-driven condition on a demotion signal always holds |
| GodLayerHistory.NoPromotionBeforeThirdRun | services/execution-service/src/god-layer/class-machine.ts:166-204 | a commit that promotes anybody is at least the third commit of its category |
| GodLayerHistory.PioneerStartsBelow | services/execution-service/src/queue/god-layer-worker.ts:289-292 | the first run of the pioneer counts as below benchmark, because it only equals its own baseline |
| GodLayerHistory.PioneerGraduation | services/execution-service/src/god-layer/class-machine.ts:185-204 | a pioneer reaches Artisan only with six or more runs, every one after the first strictly above the first |
| GodLayerProtocol.Serialisable | services/execution-service/src/queue/god-layer-worker.ts:171-505 | in every interleaving of deliveries, crashes, aborts and lock expiries the four tables equal a serial replay of the commits in commit order; and every commit has, field by field, the values a delivery that had claimed its verdict loaded: type, confidence, confirmation and unresolved devil's advocate of the verdict row, soul-driven unless the row says Some(false), soul and category of the job before those of verdict and soul row, the score of the bot or 0 |
| GodLayerProtocol.SnapshotIsTaken | services/execution-service/src/queue/god-layer-worker.ts:171-233 | loading gives a snapshot if and only if verdict and bot row are there, a category is named, and every field is the loaded one |
| GodLayerProtocol.AtMostOnce | services/execution-service/src/queue/god-layer-worker.ts:152-169 | however often its job is delivered, a verdict is committed at most once |
| GodLayerProtocol.MutualExclusion | services/execution-service/src/queue/god-layer-worker.ts:237-248 | in every reachable state at most one delivery per category is between acquire and release |
| GodLayerProtocol.RenewChangesNothing | services/execution-service/src/queue/god-layer-worker.ts:251-263 | the renewal overwrites the owner without looking, yet in every state that keeps the invariant it changes nothing |
| GodLayerProtocol.StepKeepsInv | services/execution-service/src/queue/god-layer-worker.ts:138-675 | every step of every delivery keeps the whole invariant (claims, snapshots, lock owners, current reads, distinct commits, replay) |
| GodLayerProtocol.RunOnlyAppends | services/execution-service/src/queue/god-layer-worker.ts:273-505 | continuing any run never removes or changes a commit, a DNA entry, a baseline or a pioneer |
| GodLayerProtocol.DeliveryCommits | services/execution-service/src/queue/god-layer-worker.ts:138-675 | from every reachable state, a queued job that names its category, whose verdict nobody claimed and whose category is free, can be delivered and committed: its transaction is applied once, its verdict is claimed, the locks are as before |
| GodLayerProtocol.FailedVerdictIsLost | services/execution-service/src/queue/god-layer-worker.ts:152-248 | a delivery that claimed its verdict and then fails, crashes or gives up waiting before its commit loses it: in no continuation of the run is that verdict ever committed |
| GodLayerProtocol.TwentyAttempts | services/execution-service/src/queue/god-layer-worker.ts:237-248 | under an occupied category lock, attempts one to nineteen only count and the twentieth ends the delivery |
| GodLayerProtocol.ReachableTables | services/execution-service/src/queue/god-layer-worker.ts:273-505 | in every reachable state benchmarks, class rows, DNA log and negative signals are the projections of the commits, and the versions of each pair are 1 to n |
| GodLayerProtocol.ReleaseFreesIffJobNamesCategory | services/execution-service/src/queue/god-layer-worker.ts:654-674 | a delivery that ends normally frees its category if and only if the job itself names the category |
| GodLayerProtocol.FailureFreesIffJobNamesCategory | services/execution-service/src/queue/god-layer-worker.ts:506-674 | a delivery that fails under the lock leaves tables and commits alone, and frees its category under the same condition |
| GodLayerProtocol.LockStaysBehind | services/execution-service/src/queue/god-layer-worker.ts:654-674 | for every category a run of one job leaves the category locked with no delivery at work |
| GodLayerProtocol.Workers.AcquireCategoryLock | services/execution-service/src/queue/god-layer-worker.ts:81-93 | succeeds exactly when the key is free, and then the key names the job |
| GodLayerProtocol.Workers.ReleaseCategoryLock | services/execution-service/src/queue/god-layer-worker.ts:99-111 | deletes the key exactly when it still names the job |
| GodLayerProtocol.Workers.AcquireWithRetries | services/execution-service/src/queue/god-layer-worker.ts:237-248 | the retry loop, with arbitrary steps of other deliveries between its attempts, ends owning the category or with the delivery given up, invariant kept |
| GodLayerProtocol.Workers.Perform | services/execution-service/src/queue/god-layer-worker.ts:138-675 | every event of the model, performed on the shared mutable state and tables by the methods of the classes, equals the step function |
| SseReader.PiecesUnique | services/execution-service/src/orchestrator/openclaw-client.ts:216 | a list of pieces is the split of a text if and only if no piece has a line feed and joining the pieces gives the text back |
| SseReader.TerminalLineIsFinal | services/execution-service/src/orchestrator/openclaw-client.ts:219-329 | text after a complete terminal line changes neither the outcome nor the tool events |
| SseReader.UnterminatedTailIsDropped | services/execution-service/src/orchestrator/openclaw-client.ts:216-217 | a last line without its line feed has no effect, even a terminal one |
| SseReader.OutcomeIsFirstVerdict | services/execution-service/src/orchestrator/openclaw-client.ts:219-329 | for every text the outcome is that of the first complete line that settles the stream, given the event type in force there, and the tool events are those announced before it |
| SseReader.UnsettledStream | services/execution-service/src/orchestrator/openclaw-client.ts:330-338 | a stream in which no line settles anything ends as completed when it is closed and throws when it breaks |
| SseReader.ReadChunksIsScan | services/execution-service/src/orchestrator/openclaw-client.ts:209-338 | the buffered reader over any chunks equals one scan of the complete lines of the whole text |
| SseReader.ChunkInvariance | services/execution-service/src/orchestrator/openclaw-client.ts:209-338 | two ways of cutting one text into chunks give the same outcome and the same ordered tool events |
| SseReader.FramesRoundTrip | services/execution-service/src/orchestrator/openclaw-client.ts:219-329 | any number of framed tool payloads followed by a framed completion is read back as exactly the announced tool events, in order, and that completion |
| SseReader.FailureRoundTrip | services/execution-service/src/orchestrator/openclaw-client.ts:309-324 | framed tool payloads followed by a framed failure are read back as those tool events and a thrown error with the message of the failure |
| SseReader.CrLfReadAlikeIffNothingStale | services/execution-service/src/orchestrator/openclaw-client.ts:219-329 | for every text, it and its CR LF form give the same events and outcome after every line if and only if no data line is acted on under an event type named before the last blank line |
| SseReader.OwnEventLinesSuffice | services/execution-service/src/orchestrator/openclaw-client.ts:219-329 | if every data line has an event line of its own since the last blank line, the CR LF form gives the same events and outcome, whatever the payloads |
| SseReader.CrLfFramesRoundTrip | services/execution-service/src/orchestrator/openclaw-client.ts:219-329 | framed tool payloads and a completion are read back from their CR LF form too |
| SseReader.CrLfFailureRoundTrip | services/execution-service/src/orchestrator/openclaw-client.ts:309-324 | the same for a failure in CR LF form |
| SseReader.CrLfCompletesEarly | services/execution-service/src/orchestrator/openclaw-client.ts:325-328 | a text with unnamed data after a named event: the CR LF form completes on that data, the LF form does not |
| SseReader.Client.ReadSSEStream | services/execution-service/src/orchestrator/openclaw-client.ts:198-338 | the two nested loops with early returns compute the reference scan of the whole text and hand every tool event to every callback in order |
| SseReader.FanoutAt | services/execution-service/src/orchestrator/openclaw-client.ts:198-338 | the call number j for an event comes right after all calls for the events before it, goes to callback j and carries that event |
| SseReader.ReachedUpToThrower | services/execution-service/src/orchestrator/openclaw-client.ts:125-191 | the callbacks called are all of them, or those up to and including the first that throws, and what is thrown is what that one throws |
| SseReader.Client.ExecuteTask | services/execution-service/src/orchestrator/openclaw-client.ts:125-191 | results go to the completion callbacks and errors to the failure callbacks, in order up to one that throws; a list called to its end is emptied; a throwing completion callback also sends its error to the failure callbacks |
| RateLimiter.AdmissionBound | services/akasa-server/src/middleware/tool-rate-limiter.ts:19-89 | with a clock that never turns back, limiters with equal options admit a key at most MaxAdmitted times (for windows over 1 ms: (n + 1) * maxRequests - 1) in any half-open interval of n windows, whatever other keys and harmless limiters with other options do |
| RateLimiter.BoundIsReached | services/akasa-server/src/middleware/tool-rate-limiter.ts:51-89 | for all options and every n, a run of one limiter reaches MaxAdmitted, so the bound cannot be lowered |
| RateLimiter.QuotaIsBoundIff | services/akasa-server/src/middleware/tool-rate-limiter.ts:51-89 | the quota is the most that one window of time lets through if and only if it is at most one request or the window at most a millisecond |
| RateLimiter.RetryAfterIsExact | services/akasa-server/src/middleware/tool-rate-limiter.ts:62-86 | a refused caller whose key stays idle is admitted after s whole seconds if and only if s is at least the returned retryAfter |
| RateLimiter.SkippedIffUnidentified | services/akasa-server/src/middleware/tool-rate-limiter.ts:35-48 | a request is let through uncounted, with no bucket changed, if and only if its user or its tool is missing or empty |
| RateLimiter.KeysAreIndependent | services/akasa-server/src/middleware/tool-rate-limiter.ts:51-60 | bucket and admissions of a key depend on the requests of that key only |
| RateLimiter.PairSharesBucketIffAmbiguous | services/akasa-server/src/middleware/tool-rate-limiter.ts:51 | a (user, tool) pair shares its bucket with a different pair if and only if one of its ids has a colon inside the user id or before the end of the tool id |
| RateLimiter.BoundHoldsIffHarmless | services/akasa-server/src/middleware/tool-rate-limiter.ts:19-60 | the shared buckets: beside a limiter with other options the bound holds in every run if and only if that limiter is harmless, a condition on the two windows and quotas |
| RateLimiter.ToolRateLimiter.RateLimit | services/akasa-server/src/middleware/tool-rate-limiter.ts:35-90 | the in-place bucket update refines the value-level step, decision included |
| Dispatcher.FindIdle | services/execution-service/src/orchestrator/bot-registry.ts:78-90 | the result is idle, connected and of the execution, and nothing before it in registration order is |
| Dispatcher.PollTakesFirstIdle | services/execution-service/src/queue/openclaw-dispatcher.ts:90-110 | a poll leases the first connected and idle bot of the execution and writes the job of the dispatch into its entry, changing nothing else |
| Dispatcher.RegistryNamesLease | services/execution-service/src/orchestrator/bot-registry.ts:78-100 | in every reachable state the entry of a leased bot names the job of the dispatch that leases it, and is of the same execution |
| Dispatcher.OneDispatchPerBot | services/execution-service/src/orchestrator/bot-registry.ts:78-100 | in every interleaving a bot is leased by at most one dispatch |
| Dispatcher.BusyIffLeased | services/execution-service/src/orchestrator/bot-registry.ts:78-100 | in every reachable state a registered bot is busy if and only if a dispatch leases it |
| Dispatcher.CountersConserved | services/execution-service/src/queue/openclaw-dispatcher.ts:123-270 | in every reachable state tasksClaimed = tasksCompleted + tasksFailed plus one exactly while a task is in flight, and completed and failed count the dispatches that ended that way on the bot |
| Dispatcher.OutcomesAreReported | services/execution-service/src/queue/openclaw-dispatcher.ts:190-270 | in every run a dispatch stands as finished on a bot with an outcome if and only if a Finish event reported that outcome while it ran on that bot, and as settled if and only if its counters were written after that |
| Dispatcher.CountersCountReports | services/execution-service/src/queue/openclaw-dispatcher.ts:190-270 | tasksCompleted of a bot is the number of settled dispatches whose success was reported on it, tasksFailed that of the reported failures |
| Dispatcher.ClaimsMatchAttempts | services/execution-service/src/queue/openclaw-dispatcher.ts:112-131 | attempts beyond those the task rows were inserted with, minus claims, is the number of dispatches between the two claim writes |
| Dispatcher.TaskStatusIsEarned | services/execution-service/src/queue/openclaw-dispatcher.ts:112-259 | a task has the status its row was inserted with, or is completed, failed or claimed for a bot on account of a dispatch of that task that did so |
| Dispatcher.StatusIsLastWrite | services/execution-service/src/queue/openclaw-dispatcher.ts:112-259 | a task has the status the last claim or reported end of it wrote: claimed for the bot, completed after a reported success, failed after a reported failure |
| Dispatcher.DispatchFromAnywhere | services/execution-service/src/queue/openclaw-dispatcher.ts:90-292 | from every reachable state a polling dispatch with an idle bot can run to its end with either outcome: the registry is as before, bot and task have one claim, one attempt and the outcome more, and nothing else changed |
| Dispatcher.DispatchRuns | services/execution-service/src/queue/openclaw-dispatcher.ts:90-292 | for both outcomes a run of one dispatch from start to end: the bot is idle again, one attempt and one claim were added, and task and counters have the reported outcome |
| Dispatcher.OpenClawDispatcher.AcquireIdleBot | services/execution-service/src/orchestrator/bot-registry.ts:78-90 | the loop leases the first idle bot and touches no other entry, or returns none and touches nothing |
| Dispatcher.OpenClawDispatcher.Perform | services/execution-service/src/queue/openclaw-dispatcher.ts:90-292 | every event of the model, performed on the mutable registry and rows by the methods of the class, equals the step function |
| Campaign.IterationsAreContiguous | services/execution-service/src/queue/evolution-campaign-worker.ts:66-83 | whatever numbers the jobs carry and however they are duplicated, and wherever the three statements that start a campaign stop, its iterations are 1..n for some n, possibly none |
| Campaign.IterationFollows | services/execution-service/src/queue/evolution-campaign-worker.ts:36-209 | from every reachable state in which a running campaign lacks the iteration after n, one delivery adds it with a new execution and one spawn, and changes nothing else |
| Campaign.CampaignOfAnyLength | services/execution-service/src/queue/evolution-campaign-worker.ts:36-209 | for every campaign and n a run after which it is running with iterations 1 to n, each after the first spawned once, and well, with its recorded execution |
| Campaign.SpawnedAtMostOnce | services/execution-service/src/queue/evolution-campaign-worker.ts:166-209 | two spawns never share an iteration or an execution, so a failed spawn is never repeated |
| Campaign.SpawnRunsRecordedExecution | services/execution-service/src/queue/evolution-campaign-worker.ts:122-209 | a spawned leader runs the execution recorded in the row of its iteration and of no other, and follows a recorded iteration |
| Campaign.RowsArePermanent | services/execution-service/src/queue/evolution-campaign-worker.ts:147-176 | no continuation of a run changes an iteration row |
| Campaign.FailureErrs | services/execution-service/src/queue/evolution-campaign-worker.ts:86-239 | a failure reported at its stage puts the delivery in error |
| Campaign.ErrorsAreFailures | services/execution-service/src/queue/evolution-campaign-worker.ts:86-239 | a delivery is in error only when its own planning, pre-flight, creation or spawn was reported to fail at that stage |
| Campaign.StoppedIffHaltedOrErrored | services/execution-service/src/queue/evolution-campaign-worker.ts:42-239 | in every run a campaign is stopped if and only if it was halted from outside or the error of one of its deliveries was marked |
| Campaign.SpawnIsEarned | services/execution-service/src/queue/evolution-campaign-worker.ts:66-209 | every spawn, with the outcome reported for it, was made by a delivery for which the reload, the previous iteration, a successful plan, pre-flight and creation, and the insertion of the row had all occurred, and has the number after the previous iteration |
| Campaign.StoppedCampaignIsQuiet | services/execution-service/src/queue/evolution-campaign-worker.ts:42-64 | once a stopped campaign, started to the end, has no delivery past its reload, no continuation adds an iteration or a spawn to it |
| Campaign.EvolutionCampaignWorker.InsertIteration | services/execution-service/src/queue/evolution-campaign-worker.ts:147-176 | inserts the row and reports success exactly when the key was free, otherwise ends the delivery |
| Campaign.EvolutionCampaignWorker.Perform | services/execution-service/src/queue/evolution-campaign-worker.ts:36-239 | every event of the model, performed on the mutable tables by the methods of the class, equals the step function |
| Billing.SpendCountsEachMessageOnce | services/execution-service/src/events/billing-engine.ts:334-357 | in every interleaving the spend of an execution is the sum of the amounts of the chargeable messages for it whose handler ran, and no two handlers have the same message id |
| Billing.ChargesAreTheMessages | services/execution-service/src/events/billing-engine.ts:334-503 | the runs of the enforcement script correspond one to one to the chargeable messages whose handler ran, with the id, execution and amount of the message |
| Billing.FirstDeliveryIsHandled | services/execution-service/src/events/billing-engine.ts:489-503 | in every run the first delivery of a message id gets a handler, and every later one changes nothing |
| Billing.ReceivedIsCharged | services/execution-service/src/events/billing-engine.ts:334-357 | from every reachable state a received tool message with a positive amount is charged in full on top of the charges of its execution, and told whether the total exceeds the cap |
| Billing.FailedMessageIsFree | services/execution-service/src/events/billing-engine.ts:489-503 | a message whose handler fails, or whose process ends, before the charge is never charged in any continuation, however often it is delivered again |
| Billing.NoHandlerOutlivesProcess | services/execution-service/src/events/billing-engine.ts:484-503 | a restart ends every handler: those that had not charged fail, the others finish without their check |
| Billing.ExceededFromCrossing | services/execution-service/src/events/billing-engine.ts:60-106 | a charge reports the cap exceeded if and only if a charge up to it crossed the cap, and the crossing total is at most the cap plus that charge |
| Billing.CrossingIsUnique | services/execution-service/src/events/billing-engine.ts:60-106 | no two charges of an execution cross the cap |
| Billing.SentIsPrefix | services/execution-service/src/events/billing-engine.ts:268-288 | for totals in any order the latched thresholds are the first few, each once |
| Billing.AlertsSentIffClimbed | services/execution-service/src/events/billing-engine.ts:271-288 | the first k thresholds are all latched if and only if some checks, in this order, reach thresholds 1 to k |
| Billing.OneJumpSendsOneAlert | services/execution-service/src/events/billing-engine.ts:278-286 | a single check that reaches every threshold latches only the first |
| Billing.AlertsAreAPrefix | services/execution-service/src/events/billing-engine.ts:268-288 | the two laws for each execution and each process in every run of interleaved handlers and restarts: what one process latches is a prefix of the thresholds, as long as its checks climbed |
| Billing.PublishedRise | services/execution-service/src/events/billing-engine.ts:290-312 | what a process publishes for an execution rises, so no threshold goes out twice, and each was latched; publishing may fail after the latch |
| Billing.LatchedTwiceIffReachedTwice | services/execution-service/src/events/billing-engine.ts:268-288 | in every run an execution has a threshold latched by two processes if and only if in each of two processes some check reaches the first threshold |
| Billing.ChecksCompareTheSpend | services/execution-service/src/events/billing-engine.ts:268-286 | in every run each check of each process compared the budget of its own event with the sum of the charges of its execution up to the charge of its message |
| Billing.CheckLatchesNext | services/execution-service/src/events/billing-engine.ts:268-288 | exactly what a check does in every reachable state: it latches the next of 0.5, 0.75 and 0.9 if the spend at the charge reaches that part of the budget, and nothing otherwise |
| Billing.HalfSpentIsLatched | services/execution-service/src/events/billing-engine.ts:271-286 | a check after a charge that brings the spend to half of a positive budget or more leaves 0.5 latched |
| Billing.RestartRepeatsAnAlert | services/execution-service/src/events/billing-engine.ts:268-312 | for every execution a run with one restart in which both processes publish 0.5 |
| Billing.RoundingDrift | services/execution-service/src/events/billing-engine.ts:116-121 | n rounded token costs differ from the exact total by at most n/2 cents, for all rates, whole or not, and all usages |
| Billing.DefaultCost | services/execution-service/src/events/billing-engine.ts:108-121 | at the default rates a million prompt tokens cost 15 cents and a million completion tokens 60 |
| Billing.DriftIsReached | services/execution-service/src/events/billing-engine.ts:116-121 | with the default rates some usage reaches that drift for every n |
| Billing.BillingEngine.EnforceAtomicBudget | services/execution-service/src/events/billing-engine.ts:60-106 | adds the amount to the spend and compares the new total with the cap, if there is one, in one step |
| Billing.BillingEngine.Perform | services/execution-service/src/events/billing-engine.ts:268-503 | every event of the model, restarts included, performed on the mutable state by the methods of the class, equals the step function |
| Billing.BillingEngine.ShouldEmitAlert | services/execution-service/src/events/billing-engine.ts:271-288 | the loop returns and latches the lowest threshold that is due |
| Scoring.MetricsInRange | services/execution-service/src/performance/metrics-computer.ts:74-153 | success rate, error rate and idle ratio lie in [0, 1] for all counts |
| Scoring.RatesAtTheEnds | services/execution-service/src/performance/metrics-computer.ts:74-136 | the two rates are 0 or 1 exactly in the stated cases of the counts |
| Scoring.RatesRecoverCounts | services/execution-service/src/performance/metrics-computer.ts:70-136 | success rate times tasks is the completed tasks, error rate times actions the failed tasks and rejected calls |
| Scoring.FiguresRecoverCounts | services/execution-service/src/performance/metrics-computer.ts:82-116 | cost and tokens per task are the integers nearest to the quotients, halves upward; calls per task and tasks per minute multiplied out give the counts; all are zero without a completed task |
| Scoring.IdleTime | services/execution-service/src/performance/metrics-computer.ts:138-152 | the idle ratio times the bot hours is the time the tool calls leave, cut to none and to all of it |
| Scoring.ScoreIsPlace | services/execution-service/src/performance/score-engine.ts:28-40 | a normalised score is the place of the value between the least and the greatest of the bots, 100 when they agree |
| Scoring.NormalizedInRange | services/execution-service/src/performance/score-engine.ts:28-40 | between minimum and maximum both normalisers stay in [0, 100] |
| Scoring.NormalizedMonotone | services/execution-service/src/performance/score-engine.ts:28-40 | one normaliser is monotone and the other antitone in the value |
| Scoring.EfficiencyOfExtremes | services/execution-service/src/performance/score-engine.ts:59-81 | being best on one of the four metrics and worst on the others is worth 25 points: the four count the same |
| Scoring.CostScoreIsPlace | services/execution-service/src/performance/score-engine.ts:90-103 | the cost score is the place among the bots that completed a task, and zero for the others |
| Scoring.ClampIsIdentity | services/execution-service/src/performance/score-engine.ts:166-191 | for non-negative weights with a positive sum the composite is in [0, 100] before it is clamped |
| Scoring.LoneWeight | services/execution-service/src/performance/score-engine.ts:166-191 | all weight on one component makes the composite that component: 100 times the success rate, the efficiency score, the cost score, or 100 minus 100 times the error rate |
| Scoring.DefaultScore | services/execution-service/src/performance/score-engine.ts:108-191 | at the default settings ten times the composite is 400 success rates, three efficiency scores, two cost scores and 100 minus 100 error rates, and the tiers begin at 75 and 40 |
| Scoring.TierByLimits | services/execution-service/src/performance/score-engine.ts:108-191 | for all settings, which scores have which tier; no number and the low tier if and only if the weights sum to zero |
| Scoring.Dominance | services/execution-service/src/performance/score-engine.ts:59-112 | a bot no worse on every metric never gets a lower composite or a lower tier |
| Scoring.StrictDominance | services/execution-service/src/performance/score-engine.ts:59-191 | every metric counts: a bot no worse anywhere and strictly better on one metric whose weight is positive has a strictly higher composite |
| Scoring.EfficiencyIgnoresUnits | services/execution-service/src/performance/score-engine.ts:59-81 | positive affine rescaling of each of the four metrics across all bots leaves every efficiency score as it was |
| Scoring.ScoreEngine.ComputeScoresForExecution | services/execution-service/src/performance/score-engine.ts:133-246 | for all weights, the loop appends four rows per bot and updates each bot once; scoring an execution again changes nothing; weights with sum zero give no number and the low tier |
| Scoring.EachBotGetsItsScore | services/execution-service/src/performance/score-engine.ts:173-228 | after the loop every bot has the score of its own metrics and no other bot changed |
| Scoring.RowsAt | services/execution-service/src/performance/score-engine.ts:193-220 | rows 4i to 4i + 3 of a scoring are the four named scores of bot i |
| Scoring.ScoredOnce | services/execution-service/src/performance/score-engine.ts:134-147 | after a scoring the guard of the next one holds |
| DnaCapture.EliteIffOutstanding | services/execution-service/src/performance/dna-capture.ts:92-134 | when all scores are numbers a bot is elite if and only if its score is above the threshold, 100 n times it is above (100 + pct) times the sum of all scores, and its failed tasks are below the ceiling |
| DnaCapture.DefaultElite | services/execution-service/src/performance/dna-capture.ts:92-134 | at the default settings: above 75, above 1.2 times the mean, fewer than one task in ten failed or no task |
| DnaCapture.SelectionKeepsOrder | services/execution-service/src/performance/dna-capture.ts:98-134 | the selection of two lists of bots in a row is the two selections in a row |
| DnaCapture.EliteBound | services/execution-service/src/performance/dna-capture.ts:97-134 | k elites among n bots whose scores are non-negative numbers satisfy k * (100 + pct) < 100 * n, so with a non-negative margin they are a proper subset |
| DnaCapture.NaNLowersTheBar | services/execution-service/src/performance/dna-capture.ts:93-134 | with one NaN among the scores the elites are exactly the bots with a low error rate whose score is NaN or above the threshold; nobody is compared with the average |
| DnaCapture.NaNVoidsTheBound | services/execution-service/src/performance/dna-capture.ts:93-134 | any number of bots with NaN scores and no failed task are all elite |
| DnaCapture.DefaultEliteShare | services/execution-service/src/performance/dna-capture.ts:97-134 | with the default margin of 20 percent fewer than five in six bots are elite |
| DnaCapture.IdentifyElite | services/execution-service/src/performance/dna-capture.ts:97-134 | the loop selects, in order, exactly the bots that meet the three conditions |
| DnaCapture.KeyListIsUnion | services/execution-service/src/performance/dna-capture.ts:180-196 | the key list of a tool has no duplicates and holds exactly the keys of the calls of that tool |
| DnaCapture.KeysKeepTheirPlace | services/execution-service/src/performance/dna-capture.ts:180-196 | the key list of a tool only grows at its end as calls are added |
| DnaCapture.PayloadEntries | services/execution-service/src/performance/dna-capture.ts:173-236 | the sequence names the tool of every call in order; a tool has a token entry if and only if it was called, a key list if and only if one of its calls has a summary |
| DnaCapture.TokensAreSums | services/execution-service/src/performance/dna-capture.ts:227-236 | total, prompt, completion and count of a tool are the sums of those fields over its own calls, a missing figure counting zero |
| DnaCapture.PayloadFigures | services/execution-service/src/performance/dna-capture.ts:198-225 | time and number of measured calls are sums over the calls, retried tasks those with two attempts or more, and each average times its count gives the sum |
| DnaCapture.PayloadExtremes | services/execution-service/src/performance/dna-capture.ts:217-225 | least and greatest duration are those of some calls and bound all calls that have one; all zero when none has |
| DnaCapture.TokensAddUp | services/execution-service/src/performance/dna-capture.ts:227-236 | the per-tool totals and counts add up to those of all calls |
| DnaCapture.TimingIsSound | services/execution-service/src/performance/dna-capture.ts:217-225 | minimum and maximum are measured durations, and every duration and the average lie between them |
| DnaCapture.RetriesAreSound | services/execution-service/src/performance/dna-capture.ts:198-215 | the retry profile counts all tasks, its maximum is taken and bounds every task and the average, and nothing was retried exactly when no task needed more than one attempt |
| DnaCapture.PayloadIgnoresValues | services/execution-service/src/performance/dna-capture.ts:173-245 | calls that differ only in argument values give the same payload |
| DnaCapture.BuildPayload | services/execution-service/src/performance/dna-capture.ts:173-245 | the loop over the calls refines the value-level payload |
| Slug.CategoryIsFirstFiveWords | services/execution-service/src/performance/dna-capture.ts:34-44 | the chain of string operations equals: the first five maximal alphanumeric runs joined by hyphens, cut at 255 |
| Slug.WordsHoldTheLetters | services/execution-service/src/performance/dna-capture.ts:34-38 | the words of an objective hold exactly its letters and digits, in lower case and in order |
| Slug.CategoryIsNormal | services/execution-service/src/performance/dna-capture.ts:34-44 | only [a-z0-9-], no leading and no doubled hyphen, at most five words and 255 characters |
| Slug.TrailingHyphenIffWordEnds | services/execution-service/src/performance/dna-capture.ts:41-43 | for every objective, the category ends in a hyphen if and only if some but not all of its words, joined, take exactly 254 characters |
| Slug.IdempotentIffNoWordEnds | services/execution-service/src/performance/dna-capture.ts:34-44 | deriving a category again gives it back if and only if that is not so; deriving twice is always stable |
| Slug.TrailingHyphenOccurs | services/execution-service/src/performance/dna-capture.ts:43 | a first word of 254 characters and any second word give a category that ends in a hyphen |
| Slug.SecondCollapseIsRedundant | services/execution-service/src/performance/dna-capture.ts:37-38 | the second hyphen replacement never changes anything |
| FleetFeed.FeedRefinesUnion | services/akasa-server/src/routes/evolution-dashboard.ts:123-259 | however the database breaks ties, the newest k of each source, merged, sorted and cut to k, show the same times as the newest k of all rows |
| FleetFeed.SourceCounts | services/akasa-server/src/routes/evolution-dashboard.ts:123-251 | a source has each event once per row that stands for it: confirmed verdicts at createdAt, class rows with a transition at lastTransitionAt, DNA rows at capturedAt, pioneers at updatedAt; and no event of another kind |
| FleetFeed.UnionCounts | services/akasa-server/src/routes/evolution-dashboard.ts:123-251 | all sources together have each event of a selected type once per row, and none of another type |
| FleetFeed.QueriedEventsAreGenuine | services/akasa-server/src/routes/evolution-dashboard.ts:123-251 | no event is queried more often than the sources have it |
| FleetFeed.SortNewestFirst | services/akasa-server/src/routes/evolution-dashboard.ts:253-257 | the sort is newest first and a permutation |
| FleetFeed.FleetEvents | services/akasa-server/src/routes/evolution-dashboard.ts:101-262 | for every limit parameter, and tables that may change between the queries, the answer is newest first, has the times of the newest rows of all sources, shows no event more often than rows of a selected type stand for it, and has the length the limit says: 50 by default, the limit up to 100, none for NaN, all but the oldest few for a negative one |
| FleetFeed.FeedIsCappedIffNotNegative | services/akasa-server/src/routes/evolution-dashboard.ts:103-259 | the feed is capped at 100 for every number of events if and only if the limit is not a negative number |
| Council.VoteBetween | services/akasa-server/src/council/council-runner.ts:206-245 | verdict and confidence lie between the least and the greatest of the judges that answered |
| Council.VoteMonotone | services/akasa-server/src/council/council-runner.ts:206-245 | raising the verdict or the confidence of any judge never lowers the outcome |
| Council.AbsentWeightsDoNotMatter | services/akasa-server/src/council/council-runner.ts:212-237 | the outcome does not depend on the weights of judges that failed |
| Council.VerdictScale | services/akasa-server/src/council/council-runner.ts:11-18 | the five verdicts are 4 to 0, and the limits between them lie halfway, halves going to the more favourable |
| Council.PanelOutcome | services/akasa-server/src/council/council-runner.ts:206-245 | the outcome of every panel, whichever judges failed, written out: weights 5, 3 and 2 in ten over the judges that answered, the limits of each verdict, the weighted mean confidence, and none if and only if nobody answered |
| Council.ComputeWeightedVerdict | services/akasa-server/src/council/council-runner.ts:189-263 | the loop refines the vote; all judges failing gives Monitor for human review; the two flags are stated exactly |
| Council.AggregateIsVote | services/execution-service/src/queue/council-worker.ts:173-199 | the fixed-weight formula is the same vote with weights 0.5, 0.35 and 0.15, so its bounds carry over |
| Council.AggregateOutcome | services/execution-service/src/queue/council-worker.ts:173-205 | the outcome written out in twentieths with weights 10, 7 and 3; both flags are the unresolved strong argument |
| Council.SkillStep | services/akasa-server/src/council/council-runner.ts:109-126 | updating the entry of a skill in place keeps it equal to first name, number of activations and plain mean |
| Council.OneMoreTrace | services/akasa-server/src/council/council-runner.ts:103-126 | a trace counts for a skill if and only if it names its id and a name; a missing effectiveness adds nothing |
| Council.SkillActivations | services/akasa-server/src/council/council-runner.ts:103-126 | after the loop every skill holds sum / count of its activations |

## Left out

- LLM calls, prompts, schema validation and all JSON parsing: judge outputs are arbitrary values, the payloads of a stream are arbitrary functions of a data line.
- Byte decoding of the stream, logging, byte and event counters: a chunk is decoded text.
- The God Layer path of jobs without any category (it takes no lock and uses the name "unknown"): a delivery stops there in the model.
- Other writers of the God Layer tables: the check-then-act handler in services/akasa-server, the Ring Leader classes (category "ring_leader", keyed by soul) in services/execution-service/src/services/ring-leader-class-progression.ts, and the rows without a soul inserted by services/execution-service/src/performance/dna-capture.ts.
- GodLayerHistory.DnaIsProjection: the log holds the entries written by God Layer jobs only; entries without a soul from dna-capture.ts stand beside it and enter no MAX(version) of a soul.
- GodLayerDb.Store.UpdateAgentClass: does not state lastTransitionAt and updatedAt; artisanGraduationAt is kept as a flag.
- SseReader.Client.ExecuteTask: callbacks registered while the stream is being read are not modelled.
- God Layer progress: nothing says that a delivery gets its turn, only that an undisturbed one commits (DeliveryCommits).
- Statement-level interleaving inside a transaction: its reads are one step and its writes another.
- Contents of DNA payload texts, lineage and negative-signal directives.
- The campaign hook: fitness scores, halt criteria and enqueueing are replaced by arbitrary Deliver and Halt events.
- Campaign planning and pre-flight validation: each may succeed or fail at any time.
- The stub bot (services/stub-bot/src/main.ts), which writes task and bot rows of its own.
- Dispatcher database failures, tool-invocation rows, event publishing, the status text of bots, and result attribution after a task timeout.
- The deadline of waitForAvailableBot: a dispatch may give up at any poll.
- Redis lifetimes: a processed message id is remembered for 24 hours, a cap key may expire; the model keeps both for ever and caps do not change.
- A restart of the other processes, which forgets the rate-limit buckets and the bot registry.
- Billing rows, bot hours, usage records and stopping the bots of an execution over its cap; amounts are whole cents.
- Fractions of a millisecond, floating-point rounding and toFixed.
- ScoreEngine failures between two bots: the inserts of one scoring are not atomic in the code.
- Version numbers of captured DNA (MAX + 1 per bot and category), which add only easy members; tool names that collide with object prototype members.
- Lower-casing outside ASCII in slugs.
- Labels and descriptions of feed events, and database errors.
- The spawn of a campaign's first Ring Leader by the route that starts it.
- Summaries, unknown verdict strings and directive conflict lists of the council.
- Cloud launching, routes, UI, schema, authentication and transport: no hard property.
