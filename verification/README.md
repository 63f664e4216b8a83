# IIC-Forge: verified models

Dafny models of the stateful and arithmetical core of the trading-alert system, with proofs about them. Database
tables are sequences or maps of records whose positions are the row ids, the clock is an integer number of seconds or
days, floats are exact reals, and what language models, price vendors, Redis and the network answer is an arbitrary
input. `dafny verify dfyconfig.toml` checks everything.

A protocol with several actors is a state machine: a datatype of steps, one committed transaction or one stream
command each, and theorems over every sequence of steps. Code that updates objects in place is a class whose methods
are proved equal to functions on values, or to runs of those machines.

| file | what it models |
|---|---|
| `ApprovalPipeline.dfy`, `Orchestrator.dfy` | the approval gate: light alerts, answers, expiry, the action handler, the job queue, workers, sweeps and crashes in any interleaving; the single operations as methods on the database |
| `Promoter.dfy` | candidate query, grouping, the gated poll cycle and the stored effects of a light alert |
| `StreamProtocol.dfy`, `DeadStream.dfy`, `StreamConsumer.dfy` | the consumer group: delivery, reclaim, dead-lettering and acknowledgement in any interleaving; the copies in the dead stream; the sweep and the reclaim loop |
| `Dedupe.dfy`, `TriagePipeline.dfy`, `TriageOverlap.dfy` | two-level dedupe; the per-envelope pipeline, cut at its awaits and as one step; how often overlapping calls score a text |
| `Availability.dfy` | failure counter, outage alert, daily fallback budget, call routing in triage and in the promoter |
| `MarketCalendar.dfy`, `MarketFusion.dfy` | sessions and the incremental multi-provider fetch |
| `ForwardTest.dfy`, `Maturation.dfy` | forward-test arithmetic, the life of its rows, and the counters of a sweep |
| `AgreementStatistics.dfy`, `Percentile.dfy` | Cohen's kappa and the percentile |
| `DebateGraph.dfy` | the agent graph: plan, wiring, routers, state updates, whole runs |
| `Digest.dfy` | the morning digest's printer and parser |
| `Basics.dfy`, `Outcomes.dfy`, `Text.dfy`, `Arithmetic.dfy` | shared small concepts, wrapper types, Python's string methods, non-linear facts about reals |

## What the proofs found

Some expected properties hold only under a condition. Each has the exact statement for all runs, and runs that show the
condition is needed.

- The dead stream can hold copies of one entry: at most one, one more for each crash between a copy and its
  acknowledgement, and one more for each time a worker takes the entry up while another one is moving it
  (`CopiesAreBounded`); every such number is reached (`CopiesReachTheBound`).
- A failing entry is run at most max(1, limit - 1) times, and once more for each failed pending query
  (`AttemptsAreBounded`); every such number is reached (`AttemptsReachTheBound`), and without a dead stream there is no bound
  (`EndlessWithoutDeadStream`).
- A text or an external id can be scored more than once: at most once more for each call that starts on it while another
  one is at it, and for each call dropped between its row and its fingerprint, both before it is first recorded
  (`ScoredRowsAreBounded`); every such number is reached (`ScoredRowsReachTheBound`).
- The Redis hint can change which original a duplicate is linked to, in exactly the case `HintMisleads` names.
- A day's grants are at most one budget, one more for each process that starts the day unable to read its counter, and the
  grants whose persist failed (`GrantsPerDay`); the bound is reached (`EachBlindStartGrantsABudget`).
- A ticker is alerted once a local day, whatever fails for others; it is repeated only after its own compose broke, in the
  same poll or, if the compose had not suppressed it, later (`RepeatsComeFromBreaks`, `OnlyMutedAreSuppressed`,
  `BrokenGroupIsAlertedAgain`). A compose that stops between the two writes for a ticker leaves its study pending and the
  ticker free.
- A job's `error` is final exactly if no worker still holds the job (`ErrorIsFinalUnlessHeld`).
- A promoter whose swap to the global model cannot be resolved leaves its loop (`EndpointFails`), against its docstring.
- A printed digest is read back exactly if no continuation line opens a section and the last line that sets a field
  carries its first line (`ParseOfPrint`); each continuation line starting with "## " is one section more
  (`SectionsAreCounted`).
- A closed forward test can lack its outcome-log row, if that insert fails after the row was committed
  (`EveryDatabaseIsGood` counts it as lost). The rows behind it stay open until a later sweep (`DueRowLeftOpen`), so
  sweeping twice is not always sweeping once (`SweepIsSafeAndStable` says exactly when); and if it was the last open row,
  no later call ever closes its backtest (`ForgottenByLosing`, `LostLogForgets`, `ForgottenForGood`).
- The total return of a long forward test agrees with its return series exactly if the entry price is the first of its
  closes (`LongRowAddsUp`); a launch on a day without a bar breaks that (`EntryBeforeTheWindow`).
- Rows of one backtest with different schedules would close early (`UnsharedRowsCloseEarly`); the harness never
  builds them. The sweep's `closed` counter adds rows closed by earlier sweeps (`ClosedCountsEarlierRows`); its `errored`
  counter counts all rows that were due in a backtest that raised, those it closed included, and is zero exactly if no due
  row is left open and no outcome-log row was lost (`TotalsMean`).

## Model

| member | source | states |
|---|---|---|
| `ApprovalPipeline.EveryStudyIsTraceable` | tradingagents/orchestrator/action_handler.py:152-195 | In every interleaving, each job names a study action that was accepted at some point, with its ticker, light brief and event; a done job's brief and a study's result are the full study of exactly those |
| `ApprovalPipeline.JobsAreCounted` | tradingagents/orchestrator/action_handler.py:105-195 | With one handler, the jobs for an action are its interruptions between insert and mark, plus one if it is dispatched or in hand; so at most one more than its interruptions |
| `ApprovalPipeline.JobsReachTheBound` | tradingagents/orchestrator/action_handler.py:152-195 | For every number of interruptions there is a run in which the dispatched study has that many jobs and one more |
| `ApprovalPipeline.ApprovedStudyGetsOneJob` | tradingagents/orchestrator/action_handler.py:99-195 | From any reachable state with an idle handler: an accepted, undispatched, well-linked study has, after any tick that any actor interleaves with and in which the handler neither raises at it nor dies before it is dispatched, one job and one more for each interruption at it, ever after |
| `ApprovalPipeline.DispatchedStays` | tradingagents/persistence/store.py:514-526 | Once dispatched, an action stays dispatched and has one job and one more for each interruption |
| `ApprovalPipeline.QueueIsFifo` | tradingagents/orchestrator/queue_store.py:20-89 | Leases go up one job id at a time, no job returns to the queue, every queued id exceeds every other |
| `ApprovalPipeline.ErrorIsFinal` | tradingagents/orchestrator/queue_store.py:62-140 | An errored job that no worker holds stays an error in every further run |
| `ApprovalPipeline.HeldJobMayFinish` | tradingagents/orchestrator/worker.py:227-242 | A job that a worker holds can be run to done, whatever its phase |
| `ApprovalPipeline.ErrorIsFinalUnlessHeld` | tradingagents/orchestrator/worker.py:227-242 | In every reachable state an errored job can become done exactly if a worker still holds it |
| `ApprovalPipeline.PhaseHasACause` | tradingagents/orchestrator/queue_store.py:20-140 | What each step does to each job: only the oldest queued job is leased, only the worker that holds a job ends it, and a sweep errors exactly the running jobs started before its limit |
| `ApprovalPipeline.SweepMeans` | tradingagents/orchestrator/queue_store.py:116-140 | After a sweep no running job started before now - maxAge, and every job started since, and every job not running, is as it was |
| `ApprovalPipeline.LeasedJobErrs` | tradingagents/orchestrator/queue_store.py:78-140 | In every run a leased job that no worker fails and that no sweep finds too old never becomes an error |
| `ApprovalPipeline.AnswerHasACause` | tradingagents/persistence/store.py:489-565 | What each step does to each action's state: an answer sets it, and it expires only while pending and past its expiry |
| `ApprovalPipeline.HandledAgain` | tradingagents/orchestrator/action_handler.py:119-197 | A handled row is fetched again exactly if its kind is unknown, or if its refinement, or its backtest of a full brief with runs, raised |
| `ApprovalPipeline.TickIsARun` | tradingagents/orchestrator/action_handler.py:99-116 | Handling the fetched rows one after the other is a run of the interleaving machine |
| `ApprovalPipeline.EveryRunIsAnchored` | tradingagents/persistence/schema.sql:51-62 | Every action hangs on a stored brief, in every run |
| `ApprovalPipeline.AcceptingMeans` | tradingagents/persistence/store.py:476-486 | The fetched rows are exactly the accepted ones without a job, brief or backtest as result and without an error, in increasing id order |
| `Orchestrator.Database.LeaseOne` | tradingagents/orchestrator/queue_store.py:36-59 | The first job that is queued becomes running since now, is noted as the next lease and is held by the worker; none exactly if nothing is queued |
| `Orchestrator.Database.MarkDone` | tradingagents/orchestrator/queue_store.py:62-75 | The worker's job, whatever its phase was, and no other row ends done with the worker's brief, which in traceable tables is the full study it asked for; every invariant of the machine is kept |
| `Orchestrator.Database.MarkError` | tradingagents/orchestrator/queue_store.py:78-89 | The worker's job and no other row becomes an error, whatever its phase was, and is held by nobody unless another worker has it too, so that the error is final; every invariant is kept |
| `Orchestrator.Database.SweepStaleLeases` | tradingagents/orchestrator/queue_store.py:116-140 | Exactly the jobs that were running with a start before now - maxAge become errors, no other row and no other table changes, and the count is the number of those jobs |
| `Orchestrator.Database.ExpireLapsedActions` | tradingagents/persistence/store.py:556-565 | Exactly the pending actions whose expiry lies before now become expired, no other row and no other table changes, and the count is the number of those actions |
| `Orchestrator.Database.UpdateActionState` | tradingagents/persistence/store.py:489-496 | The action gets the answer whatever its state was, acceptance goes on record, no other row changes, and every invariant is kept |
| `Orchestrator.Database.Transition` | cli/alert.py:60-73 | Exactly the pending studies of the brief (all, or those whose ticker compares equal) get the answer, no other action changes, and the count is the number of rows that changed; an action without a ticker is chosen only by asking for all |
| `Orchestrator.TransitionIsARun` | tradingagents/delivery/telegram_bot.py:36-61 | Answering the chosen rows one update at a time is a run of the machine, for the bot's comparison too |
| `Orchestrator.Database.DispatchOne` | tradingagents/orchestrator/action_handler.py:119-197 | A study with an event and a ticker gets exactly one new queued job with its identity, linked both ways; any other study, and a backtest of anything but a full brief with runs, is marked failed; a backtest or refinement that gave a result is noted on its action, one that raised leaves all as it was; no other row changes |
| `Orchestrator.Database.FetchAcceptedUndispatched` | tradingagents/persistence/store.py:476-486 | Returns the rows the tick goes through |
| `Orchestrator.Database.Tick` | tradingagents/orchestrator/action_handler.py:99-116 | Expiry, then every fetched row in order, as a run of the machine |
| `Orchestrator.Database.ComposeEventAlert` | tradingagents/secretary/service.py:170-277 | One new brief, the full study of the job's parent, event and ticker; the worker holds it; jobs and actions stay and every invariant is kept |
| `Orchestrator.Database.MarkActionDone` | tradingagents/orchestrator/dispatch.py:65-71 | Only the action the payload names changes: its result becomes the worker's brief in place of a backtest, which in traceable tables is its own full study; it stays dispatched and every invariant is kept |
| `Orchestrator.Database.DrainOne` | tradingagents/orchestrator/worker.py:47-81 | The oldest queued job, if any, ends as done with its brief and linked action, or as an error; nothing else changes |
| `Orchestrator.DrainIsARun` | tradingagents/orchestrator/worker.py:47-81 | Draining one job is a run of the machine |
| `Promoter.GroupRows` | tradingagents/orchestrator/candidates.py:49-77 | Builds the groups of the specification in one pass |
| `Promoter.GroupingConserves` | tradingagents/orchestrator/candidates.py:49-77 | One group an event, holding exactly the event's tickers in row order |
| `Promoter.FetchedAwaits` | tradingagents/orchestrator/candidates.py:16-46 | After a fetch, every earlier alert on a fetched ticker lies on a day that is over, and no group repeats a ticker |
| `Promoter.FetchedQualify` | tradingagents/orchestrator/candidates.py:16-30 | The fetched rows are, oldest first and up to the limit, the triaged events of no job with a salience and a ticker confidence at the thresholds or above, of watched tickers whose suppression is over |
| `Promoter.HigherThresholds` | tradingagents/orchestrator/candidates.py:16-30 | Raising the thresholds adds no candidate and takes out exactly those below one |
| `Promoter.NextMidnightMeans` | tradingagents/secretary/service.py:375-382 | The next local midnight is one, lies after the moment and at most a day later |
| `Promoter.CycleRecords` | tradingagents/orchestrator/promoter.py:65-111 | What any cycle adds to the tables: its evaluations, with the groups they are of and their verdicts, and its alerts, with the evaluations they come of; and when the evaluator ends it |
| `Promoter.EveryAlertPassed` | tradingagents/orchestrator/promoter.py:71-93 | In every run of polls each light alert stands behind a passed evaluation of its event and tickers, and no evaluation is lost |
| `Promoter.CycleKeeps` | tradingagents/orchestrator/promoter.py:65-111 | A cycle keeps, for every ticker, alerts apart by local day but for excused repeats, suppressed tickers suppressed until midnight and actions matched, through rejections, failed and broken composes and a raising evaluator |
| `Promoter.RepeatsComeFromBreaks` | tradingagents/orchestrator/promoter.py:51-111 | Over any run of polls, two light alerts on one ticker of one local day come from a broken first one: both are in one poll, or it had not suppressed the ticker; no alert repeats a ticker; the pending studies are, in order, one for each ticker an alert asked for, which are those it suppressed and at most one more |
| `Promoter.OncePerLocalDay` | tradingagents/orchestrator/promoter.py:51-111 | Over any run of polls in which no compose on the ticker breaks, no two light alerts on it share a local day, whatever breaks for other tickers |
| `Promoter.CycleAlertsAll` | tradingagents/orchestrator/promoter.py:67-98 | If nothing fails, every ticker of the batch is alerted in the cycle |
| `Promoter.OnlyMutedAreSuppressed` | tradingagents/secretary/service.py:368-392 | Until midnight an alert takes exactly the tickers it suppressed out of the candidates; the others of a broken one are fetched again |
| `Promoter.BrokenGroupIsAlertedAgain` | tradingagents/orchestrator/promoter.py:67-98 | Within a poll a ticker of a broken alert is alerted again by the next group that names it and is composed, whatever groups stand before, between and after |
| `Promoter.Daemon.ComposeEventAlertLight` | tradingagents/secretary/service.py:314-396 | Stores one alert of the event and its tickers, then for each ticker in order one pending study on it and after it one suppression until the next local midnight, up to the commit it stops at; nothing if it fails before |
| `Promoter.Daemon.RunOnce` | tradingagents/orchestrator/promoter.py:29-111 | One poll is the specified cycle, or nothing if a guard holds it back. On the tables: earlier evaluations and alerts stay; exactly the groups with a ticker not yet alerted in the poll are evaluated, in order, up to one whose evaluation raises, each stored with its event, those tickers and whether it passed; each alert comes of one that was passed, with its event and tickers. The count is the number of composed alerts |
| `StreamProtocol.NoMessageLost` | tradingagents/sensing/triage.py:319-482 | In every interleaving each entry is undelivered, pending, processed, in the dead stream, or was trimmed |
| `StreamProtocol.AttemptsAreBounded` | tradingagents/sensing/triage.py:384-482 | With a dead stream, the runs of an entry while it is pending, those a crash cuts short included, are at most max(1, limit - 1) and one more for each failed pending query |
| `StreamProtocol.FailingRunsAreBounded` | tradingagents/sensing/triage.py:365-482 | In every run, an entry that has not succeeded, reached the dead stream or been trimmed was run at most that often, over the whole sequence of steps |
| `StreamProtocol.AttemptsReachTheBound` | tradingagents/sensing/triage.py:384-482 | For every limit and every number of failed pending queries the bound is reached |
| `StreamProtocol.EndlessWithoutDeadStream` | tradingagents/sensing/triage.py:431-439 | Without a dead stream a failing entry can be run any number of times, whatever the limit |
| `DeadStream.CopiesAreBounded` | tradingagents/sensing/triage.py:319-442 | In every run each entry is copied at most once, once more for each crash between copy and acknowledgement, and once more for each reclaim or listing while a worker was moving it; other entries do not matter |
| `DeadStream.CopiesReachTheBound` | tradingagents/sensing/triage.py:346-347 | For every number of such crashes and of such overlaps the bound is reached; by overlaps alone without any crash |
| `StreamConsumer.StreamClient.PendingRange` | tradingagents/sensing/triage.py:331-332 | Lists the first pending entries in increasing order |
| `StreamConsumer.StreamClient.DeadLetterSweep` | tradingagents/sensing/triage.py:319-349 | Of the first 200 pending entries exactly those at the limit leave the pending list; exactly those of them whose payload exists are copied, once each, in order, and counted; a run of the protocol |
| `StreamConsumer.StreamClient.ProcessEntry` | tradingagents/sensing/triage.py:365-381 | The entry is handled and leaves the pending list exactly if the pipeline returns |
| `StreamConsumer.StreamClient.SettleEntry` | tradingagents/sensing/triage.py:419-442 | One claimed entry is dead-lettered if over the limit, and run otherwise |
| `StreamConsumer.StreamClient.ReclaimPending` | tradingagents/sensing/triage.py:384-447 | Every entry of a claimed batch counts one more delivery; exactly those then at the limit are copied to the dead stream, once each, if there is one and their payload exists; exactly the others whose run succeeds are processed, and counted; what is neither stays pending; a run of the protocol |
| `StreamConsumer.SweptMeans` | tradingagents/sensing/triage.py:333-349 | Exactly the overdue rows leave the pending list, and their surviving payloads are appended in order |
| `StreamConsumer.SweepIsARun` | tradingagents/sensing/triage.py:319-349 | The sweep is a run of the protocol |
| `StreamConsumer.ReclaimedMeans` | tradingagents/sensing/triage.py:419-447 | Each claimed entry ends dead-lettered, processed or pending, by its own answers |
| `StreamConsumer.ReclaimedExactly` | tradingagents/sensing/triage.py:419-447 | A batch adds exactly its buried entries to the dead stream, once each, and exactly its handled ones to the processed |
| `StreamConsumer.ReclaimIsARun` | tradingagents/sensing/triage.py:384-447 | Claiming a batch and settling it in order is a run of the protocol |
| `Dedupe.DedupeStage1.Check` | tradingagents/sensing/dedupe.py:56-94 | For every Redis content: a duplicate exactly if one of the two keys is stored, an owner of one of them, the external id's owner when its key is live in Redis; and exactly when the answer differs from SQLite's |
| `Dedupe.DedupeStage1.Record` | tradingagents/sensing/dedupe.py:96-112 | Makes the envelope a duplicate from then on and changes no earlier owner |
| `TriagePipeline.LinksHaveDepthOne` | tradingagents/sensing/triage.py:190-312 | In every interleaving a duplicate link names an existing scored row that is neither duplicate nor deferred |
| `TriagePipeline.RawStaysUntilTaken` | tradingagents/sensing/triage.py:162-258 | In every interleaving a raw file leaves staging exactly when a row other than a deferred one is written for it, and no row changes |
| `TriageOverlap.ScoredRowsAreBounded` | tradingagents/sensing/triage.py:190-312 | In every interleaving, the scored rows that own a text hash or external id are at most one, one more for each call that started on it while another one was at it, and one more for each call dropped that owed it, both before it was first recorded; other texts do not matter |
| `TriageOverlap.OrderlyCallsScoreOnce` | tradingagents/sensing/triage.py:190-312 | If there is neither for any key, no two scored rows share a text hash or an external id |
| `TriageOverlap.StoppedOnlyByScored` | tradingagents/sensing/dedupe.py:56-94 | In every interleaving stage 1 ends a call only by a duplicate row that names a scored row with a key in common, and a call that reaches its last lookup passes exactly if none of its keys is recorded, whatever Redis says |
| `TriageOverlap.DeferredIsRescored` | tradingagents/sensing/triage.py:190-312 | After any run that defers a payload and any run from there, a call on its envelope passes stage 1 unless a scored row shares a key with it, and its raw file is still in staging unless another row was written for it |
| `TriagePipeline.WholeCallIsARun` | tradingagents/sensing/triage.py:190-312 | The one-step call is what its atomic pieces add up to |
| `TriageOverlap.ScoredRowsReachTheBound` | tradingagents/sensing/triage.py:190-312 | For every envelope, each of its keys, and every number of overlapping and of dropped calls the bound is reached; by overlaps alone without any crash |
| `TriagePipeline.Triage.Process` | tradingagents/sensing/triage.py:190-312 | Exactly one row is written, and returned: a duplicate linked to an owner of a stored fingerprint, or else to the embedding hit; or else a scored row, whose fingerprints and embedding are recorded; or a deferred one, which records nothing and leaves the raw file |
| `Availability.AvailabilityCounter.RecordFailure` | tradingagents/llm_clients/availability.py:224-254 | The failure joins the trailing run of the history, and the callback fires exactly if it brings the run to max(1, threshold); the stored counter grows if its persist works |
| `Availability.AvailabilityCounter.RecordSuccess` | tradingagents/llm_clients/availability.py:256-261 | Ends the run, so that the next one can alert again, and loses nothing counted |
| `Availability.OneAlertPerOutage` | tradingagents/llm_clients/availability.py:224-261 | The callback fires once per maximal failure run of length at least max(1, threshold), and the stored counter grows by the failures whose persist worked |
| `Availability.DailyFallbackBudget.TryConsume` | tradingagents/llm_clients/availability.py:293-321 | Grants exactly while the spend seen (the process's own on its day, otherwise the stored one, or none if that cannot be read) is under the cap, and counts a grant in the process, and in the store unless its persist fails |
| `Availability.GrantsPerDay` | tradingagents/llm_clients/availability.py:293-321 | Over any calls, day changes, restarts and failures, a day's persisted spend is at most (1 + its blind starts) caps, and its grants exceed that by at most the persists that failed that day |
| `Availability.ReadableHasNoBlindStart` | tradingagents/llm_clients/availability.py:300-306 | A day whose counter was always readable has no blind start, so its bound is the cap |
| `Availability.EachBlindStartGrantsABudget` | tradingagents/llm_clients/availability.py:300-306 | For every cap and every number of blind starts the bound is reached |
| `Availability.DailyFallbackBudget.Restart` | tradingagents/llm_clients/availability.py:280-288 | A new process goes by the stored spend on its first call of any day, and stored counters and grants are as they were |
| `Availability.PromoterFallback.Evaluate` | tradingagents/orchestrator/promoter.py:242-280 | On the fallback every evaluation uses a grant or raises; only a parsed answer counts as health |
| `Availability.PromoterFallback.EndpointFails` | tradingagents/orchestrator/promoter.py:304-334 | A counted failure swaps the gate's and the secretary's model together, for good, once the run reaches the threshold; if the global model cannot be resolved then, the loop ends instead |
| `Availability.SwapsExactlyOnOutage` | tradingagents/orchestrator/promoter.py:317-334 | The promoter has swapped exactly when the operator was alerted, that is when some failure run lasted max(1, threshold) |
| `Availability.FallbackRouter.CallLlm` | tradingagents/sensing/triage.py:608-629 | Every call sent to the API used one grant and no other call any; the fallback is sticky; an exhausted budget raises |
| `MarketCalendar.ExpectedTradingSessions` | tradingagents/dataflows/market_calendar.py:8-50 | Returns exactly the days of the window that are neither a Saturday, a Sunday nor one of the six fixed holidays, in the specified order |
| `MarketCalendar.AllowedMissingSessions` | tradingagents/dataflows/market_fusion.py:179-184 | Returns exactly the other days of the window |
| `MarketCalendar.SessionsPartitionWindow` | tradingagents/dataflows/market_calendar.py:22-50 | Every day of the window is a session or an allowed closure, never both, and they add up to the window |
| `MarketCalendar.DaysInOrder` | tradingagents/dataflows/market_calendar.py:34-50 | Days come in order, without repeats |
| `MarketFusion.FuseSourceFrames` | tradingagents/dataflows/market_fusion.py:80-121 | Each expected session gets the first frame's first bar; the others are missing; rejected frames are errors |
| `MarketFusion.DateBounds` | tradingagents/dataflows/market_fusion.py:175-176 | The least and the greatest session |
| `MarketFusion.FetchFusedMarketSnapshot` | tradingagents/dataflows/market_fusion.py:187-244 | The incremental fetch over shrinking windows has the bars and missing list of fetching every provider over the full window, and stops at the first prefix of providers that leaves nothing missing. On the providers' data: one bar for each session some provider holds, in order, from the first that holds it, in the order yfinance, akshare, futu, polygon if none are named; no other provider is asked; the other sessions are missing |
| `MarketFusion.TryProvider` | tradingagents/dataflows/market_fusion.py:207-234 | One provider asked for the narrowed window decides every session as the full window would |
| `MarketFusion.WindowIndependent` | tradingagents/dataflows/market_fusion.py:214-220 | A provider's bar for a session does not depend on the window that holds it |
| `MarketFusion.CoverageOfFusion` | tradingagents/dataflows/market_fusion.py:50-54 | The coverage ratio times the number of expected sessions is the number of bars; 1 if none are expected, in [0, 1], and 1 exactly if nothing is missing |
| `MarketFusion.FirstHoldersMean` | tradingagents/dataflows/market_fusion.py:80-121 | Fusing every provider over the full window gives each session's bar from the first provider in order whose data hold it, its first row of that day |
| `MarketFusion.ErrorSources` | tradingagents/dataflows/market_fusion.py:80-121 | A fusion reports the errors it was given, and one for each source whose frame was rejected or empty |
| `ForwardTest.PositionFromDecision` | tradingagents/backtest/simulator.py:19-26 | 1, 0 or -1 exactly for BUY, HOLD or SELL in any case and with any blanks around it; exactly anything else raises |
| `ForwardTest.CaseAndBlanksDoNotMatter` | tradingagents/backtest/simulator.py:16-26 | Each of the three words gives its position in any mixture of cases and with blanks, tabs or newlines around it |
| `ForwardTest.ComputeReturns` | tradingagents/backtest/simulator.py:29-42 | One return per pair of closes, failing exactly on a zero divisor |
| `ForwardTest.TotalReturn` | tradingagents/backtest/simulator.py:45-49 | The return times the entry price is the price change in the position's direction; raises exactly if the entry price is not positive |
| `ForwardTest.ShortMirrorsLong` | tradingagents/backtest/simulator.py:29-49 | A short returns the opposite of a long and a flat position nothing, in total and from bar to bar; a long gains exactly if the price rises |
| `ForwardTest.MaxDrawdown` | tradingagents/backtest/simulator.py:72-89 | For returns above -1 the minimum of all declines between two points of the equity curve, attained, in (-1, 0] |
| `ForwardTest.WinRate` | tradingagents/backtest/simulator.py:92-97 | The share of the strictly positive returns, 0 for none; 1 exactly if there are returns and all are positive |
| `ForwardTest.SharpeTerms` | tradingagents/backtest/simulator.py:58-69 | Degenerate exactly if all returns are equal; otherwise their mean and their positive sample variance |
| `ForwardTest.MeanHasLeastSpread` | tradingagents/backtest/simulator.py:58-69 | The mean is the only point from which the squared distances of the returns sum to the least |
| `ForwardTest.CompoundingTelescopes` | tradingagents/backtest/simulator.py:29-42 | Compounding long returns over positive closes gives the ratio of closes |
| `ForwardTest.CompoundedIsTotalReturn` | tradingagents/backtest/simulator.py:29-89 | Compounded equity is exactly one plus the total return, which bounds the drawdown from above |
| `Maturation.EveryDatabaseIsGood` | tradingagents/backtest/harness.py:44-435 | After any launches and sweeps, cut short anywhere, on any days, under any prices and failing writes: open rows of a backtest share their schedule, rows close on it, no closed backtest has an open row, and each closed row has exactly one outcome-log row with its decision and results, in the log or lost by a failed insert |
| `Maturation.SweepIsSafeAndStable` | tradingagents/backtest/sweep.py:45-112 | A sweep closes no row before its day, alters no closed or errored row, drops no log row, reopens nothing; a second sweep the same day, told the same, changes nothing exactly if in every backtest nothing is due or the first open row is blocked, which is so if the first sweep lost no outcome-log row |
| `Maturation.DueRowLeftOpen` | tradingagents/backtest/sweep.py:78-82 | A due row stays open only at or behind a row of its backtest whose maturing raises or cannot be written, or whose outcome-log row was lost in this sweep |
| `Maturation.ForgottenByLosing` | tradingagents/backtest/sweep.py:76-108 | For every database the harness can build, the sweep of a due backtest leaves it with no open row and not closed exactly if it ends with no open row and lost an outcome-log row |
| `Maturation.ForgottenForGood` | tradingagents/backtest/sweep.py:65-66 | A backtest that has no open row and was not closed is never closed by any later launch or sweep |
| `Maturation.LostLogForgets` | tradingagents/backtest/sweep.py:76-82 | One failed outcome-log insert for its last open row makes a backtest such a one, by a concrete database |
| `Maturation.UnsharedRowsCloseEarly` | tradingagents/backtest/sweep.py:75-79 | Rows with different schedules would close early, by a concrete database |
| `Maturation.ClosedCountsEarlierRows` | tradingagents/backtest/sweep.py:88-98 | The closed count is the rows closed now plus those closed before |
| `Maturation.TotalsMean` | tradingagents/backtest/sweep.py:20-112 | Over any database the harness built: a pass counts as skipped exactly the open rows not due yet; as errored exactly the rows that were due in a backtest in which a due row stays open or an outcome-log row is lost; as closed exactly the closed rows scheduled by today, of any age, in the other backtests that had a due row. So it counts no error exactly if it leaves no due row open and loses no outcome-log row |
| `Maturation.LongRowAddsUp` | tradingagents/backtest/harness.py:339-397 | For every long row over positive closes with a positive entry price: its returns compound to one plus its total return exactly if the entry price is the first close; its drawdown is the worst decline, not above the compounded return |
| `Maturation.EntryBeforeTheWindow` | tradingagents/backtest/harness.py:200-237 | A launch on a day without a bar closes with a total return of -0.5 and no drawdown, by concrete prices |
| `Maturation.Evaluate` | tradingagents/backtest/harness.py:371-397 | Raises exactly on a zero divisor or an entry price that is not positive; otherwise exit price and days, total return on the entry price in the position's direction, the benchmark's last close and return on its own first close (none if it fails, 0 if that is not positive), alpha as their difference, one return a bar, worst decline, win share and Sharpe terms, each read off the closes |
| `Maturation.BenchmarkHasNoAlpha` | tradingagents/backtest/harness.py:371-389 | A long row on the benchmark itself, entered at its first close, has no alpha |
| `Maturation.PositionOf` | tradingagents/backtest/harness.py:272-276 | A row opens long exactly on BUY, short exactly on SELL, in any case and among blanks, and flat on anything else |
| `Maturation.SpotIsLatestClose` | tradingagents/backtest/harness.py:200-237 | Over a history of closes the entry price is the last one up to the day, at most five days old; it fails exactly if there is none |
| `Maturation.LaunchBegins` | tradingagents/backtest/harness.py:239-296 | A launch leaves earlier rows as they are and adds, in order, one row a seed up to the first failed graph run, with its run, decision, position, entry prices and schedule |
| `Maturation.LaunchMatures` | tradingagents/backtest/harness.py:44-75 | A launch matures its rows at once exactly if its window is over: then, unless it raises, none is open and the backtest is closed; otherwise the log and the open rows are left alone |
| `Maturation.Harness.MatureOne` | tradingagents/backtest/harness.py:339-415 | Only this row changes: without bars it errs; a zero divisor, an entry price that is not positive or a failing update raise and leave all as it was; otherwise it closes with all its results, and its outcome-log row, with those results, is stored, or lost if its insert fails |
| `Maturation.Harness.MatureAllOpen` | tradingagents/backtest/harness.py:320-337 | Every open row of the backtest in order, ending at the first that raises |
| `Maturation.Harness.CloseBacktest` | tradingagents/backtest/harness.py:430-435 | The parent is closed, other parents, rows, log and runs stay, and a good database stays good if the backtest has no open row |
| `Maturation.Harness.SweepBacktest` | tradingagents/backtest/sweep.py:45-110 | One backtest of a pass, with its three counters |
| `Maturation.Harness.RunMaturationPass` | tradingagents/backtest/sweep.py:20-112 | The pass over all backtests in id order, with the totals of its three counters |
| `Maturation.Harness.RunWatchlist` | tradingagents/backtest/harness.py:44-75 | Opens one row a seed, in order, with its run, decision, position, entry prices and schedule, up to the first failed graph run; if the window is over and nothing raised, none of its rows is open and the backtest is closed; if it is not over, the backtest is open and no row matured |
| `Maturation.Harness.RunBriefScoped` | tradingagents/backtest/harness.py:77-173 | A missing run raises before anything is written; otherwise as a watchlist launch over its own window |
| `AgreementStatistics.CohenKappa` | scripts/shadow_eval.py:97-116 | Raises exactly on no pairs. For n pairs of which a agree, and of whose n * n cross comparisons h agree, kappa times (n * n - h) is n * a - h, and 1 if h is n * n; so it is 0, and negative, exactly if agreement equals, or lies below, chance. It lies in [-1, 1] and is 1 exactly if all pairs agree; the loop may take the labels in any order |
| `AgreementStatistics.KappaRange` | scripts/shadow_eval.py:97-116 | Kappa lies in [-1, 1] and is 1 exactly if all pairs agree |
| `AgreementStatistics.KappaWeighs` | scripts/shadow_eval.py:97-116 | Kappa by the number of agreeing pairs and of agreeing cross comparisons alone |
| `AgreementStatistics.ChanceAtMostOne` | scripts/shadow_eval.py:108-114 | Chance agreement is at most 1, and 1 exactly if both raters are constant on one label |
| `AgreementStatistics.DefensiveBranchUnreachable` | scripts/shadow_eval.py:114-115 | When chance agreement reaches 1 all pairs agree, so the 0.0 branch is never taken |
| `AgreementStatistics.TwiceChanceBound` | scripts/shadow_eval.py:107-113 | Twice the chance agreement is at most one plus the observed agreement |
| `Percentile.PercentileMonotone` | scripts/shadow_eval.py:84-94 | A percentile does not fall as p grows |
| `Percentile.PercentileEnds` | scripts/shadow_eval.py:84-94 | The 0th percentile is the least value, the 100th the greatest |
| `Percentile.PercentileInterpolates` | scripts/shadow_eval.py:84-94 | A percentile a share f of the way from rank k to the next lies that share of the way between their values, in any ascending arrangement of the values |
| `Percentile.MedianOfTwo` | scripts/shadow_eval.py:84-94 | The 50th percentile of two values is their mean |
| `Percentile.PercentileOfMultiset` | scripts/shadow_eval.py:84-94 | The order of the values does not matter |
| `DebateGraph.BuildPlan` | tradingagents/graph/analyst_execution.py:21-81 | The plan holds the selected keys' analysts in order, each with the analyst, clear and tool node names of its row in the spec table; exactly an unknown key, an empty selection or a limit below 1 raises |
| `DebateGraph.SetupGraph` | tradingagents/graph/setup.py:93-166 | Wires exactly the nodes of the plan and the debates, each with its specified edge |
| `DebateGraph.ShouldContinue` | tradingagents/graph/conditional_logic.py:14-58 | The router of a wire key returns the tool or clear node name of that key's row in the spec table |
| `DebateGraph.RoutesAreDeclared` | tradingagents/graph/setup.py:117-159 | After its own update a node is routed to one of its declared targets |
| `DebateGraph.TargetsAreTaken` | tradingagents/graph/setup.py:117-159 | With at least one round of each debate, every declared target is taken from some state |
| `DebateGraph.RunStaysInside` | tradingagents/graph/setup.py:93-166 | Every edge leads to a node of the graph or its end, so a run executes nodes of the graph only |
| `DebateGraph.DebateStep` | tradingagents/graph/conditional_logic.py:60-69 | A debate turn, routed on its own response, leaves the rest of the predicted debate |
| `DebateGraph.RiskStep` | tradingagents/graph/conditional_logic.py:71-81 | A risk turn, routed on its own speaker, leaves the rest of the predicted stage |
| `DebateGraph.RunsAsPredicted` | tradingagents/graph/setup.py:93-166 | From any node and state, and for any answers of the models, a run executes the predicted nodes |
| `DebateGraph.WholeRun` | tradingagents/graph/conditional_logic.py:60-81 | The tool loops of the analysts in plan order, then Bull and Bear in turn for max(1, 2r) turns, Research Manager, Trader, then the three risk analysts in turn for max(1, 3q) turns, then the closing nodes |
| `DebateGraph.ToolLoopAlternates` | tradingagents/graph/conditional_logic.py:14-58 | An analyst with k tool rounds takes 2k + 2 nodes: it speaks k + 1 times, its tools run after each but the last time, its clearing node after that |
| `Digest.ComposeBody` | tradingagents/secretary/service.py:577-593 | The printed body joins, by newlines, the three header lines and for each section in order its eight lines: heading, consensus, divergence and recommendation, each followed by an empty line |
| `Digest.DecimalMeans` | tradingagents/secretary/service.py:577-581 | The printed count is the decimal numeral of the number, without leading zeros |
| `Digest.ParseTickersFromBody` | cli/morning.py:58-76 | The loop over the lines reads the specified sections |
| `Digest.LinesEnd` | cli/morning.py:62 | Exactly Python's ten line boundaries break a text, and a carriage return with a line feed breaks it once |
| `Digest.ParseOfPrint` | cli/morning.py:58-76 | For all sections, parsing a printed digest gives them in order with their tickers and the first line of each field exactly if each ticker survives its line, no other line opens a section, and for each field the last line that sets it carries its first line |
| `Digest.RoundTrip` | cli/morning.py:58-76 | Single-line fields come back exactly |
| `Digest.SectionsAreCounted` | cli/morning.py:62-75 | For all sections the parser returns one section more for each continuation line starting with "## ", so they come back in number exactly if there is none |

## Left out

- Promoter.Day: local time is a fixed offset, so daylight-saving changes are not modelled.
- ApprovalPipeline.JobsAreCounted: is about one action handler, the deployment the source assumes.
- ApprovalPipeline.EveryStudyIsTraceable: jobs without an action id, and the parent lookup by event for payloads without a parent, belong to the legacy auto-enqueue branch and are not modelled; `insert_queue_job` has no caller.
- Text.Upper: maps only the characters whose upper case is a single letter A to Z; other letters stay as they are.
- ForwardTest.SharpeTerms: gives the mean and the variance; the two square roots, and with them the resolution of the prices, are not taken.
- Maturation.Harness.RunWatchlist: takes the runs of tickers and personas as one list; brief ids, price sources and error texts are not stored.
- Percentile.PercentileOf: covers percentages from 0 to 100; outside them the source indexes past the list or from its end.
- MarketFusion.FetchFusedMarketSnapshot: each fetcher answers from fixed data restricted to its window; normalization of frames, time stamps, freshness, and exceptions other than vendor errors are not modelled.
- DebateGraph.Execute: keeps the routing part of the debate states; transcripts, prompts and reports are not modelled, nor is the graph library's recursion limit.
- Digest.Parsed: reads the text as printed; the newline translation of text files is not modelled.
- StreamConsumer.StreamClient.ReclaimPending: takes the claimed batch as given (idle times are not modelled); the read of new entries in `_consume_once` is in the protocol as its `Read`, `Skip`, `Run` and `Ack` steps, without a method of its own.
- The legacy promoter path without the approval gate, which has no guard inside a batch.
- Embedding geometry: the stage-2 search may return any embedded row that is not a duplicate.
- The salience scorer's parsing and cache, watchlist promotion of mentioned tickers, and raw-file paths.
- SQL text and ISO time strings; rounding of floats.
- Vendor fetchers, language-model clients, prompts, delivery channels, templates, dashboards and configuration.
- The worker's polling of its future: a timeout or a stop leaves the job's thread running or lost, which are the machine's late `Finish` and `Vanish` steps.
- Thread scheduling below the named steps, process signals, and the budget, rate and backpressure guards, which appear as a yes or no.
