# XH Global Control: a verified model

XH Global Control keeps tasks, execution attempts, artifacts, costs and approvals in one SQLite
database, appends every change to an audit log, and runs trusted plugin processes that reach AI
channels only through it. This project models that control plane in Dafny and proves what it promises
about runs that interleave, stall, crash and resume.

- **The store.** `Records`, `Repositories` and `Store` hold the tables, each SQL transaction as a
  function on the whole database, and the database object whose methods update it in place.
  `EventLog` folds the audit log; `Lifecycle` states what every run of validated calls keeps.
- **Fencing.** `TaskService` reads, validates and then commits. `StaleWriters` lets any number of
  clients interleave between those steps; `Fencing` says what a token is worth. `Approvals` is the
  approval sub-protocol.
- **Money and time.** `Calendar`, `Timestamps` and `Spending` connect the day and month windows, the
  text filter on stored timestamps and the sums. `Budget` is the engine, `BudgetTheorems` its answers
  by class of channel; `SpendBound` bounds overspend.
- **Routing.** `ChannelRouter` and `MasterSelector`: filter, score, sort, and the preference fallback;
  `RoutingTheorems` says who is ranked, in which order, what moves a score and who is chosen.
- **Checkpoints.** `CheckpointNames` and `Checkpoints`: numbered files, registered rows, create and
  load; `CheckpointWitnesses` the databases on which they fail.
- **The execution protocol.** `Effects` gives the durable effects and the trail of states between two
  awaits; `ChannelExecution` the fenced channel call; `Protocol` the coroutines of run, pause, resume
  and stop as steps, with `Crash` after any number of effects; `ProcessExecution` the stretches between
  awaits as methods. `ProtocolStates`, `ProtocolSegments`, `ProtocolInvariant` and `ProtocolCommands`
  prove the invariant, `ProtocolTrails` says which effects each action can have, and
  `ProtocolTheorems`, `ProtocolChecks`, `ProtocolOutcomes`, `ProtocolLog` and `ProtocolWitnesses` hold the results.

`dafny verify dfyconfig.toml` checks everything.

## What turned out different

These are properties one would expect that the code does not have. Each has a lemma with a concrete
run, and where a condition decides it, a lemma giving that condition.

- A PAUSED task does not always have a PAUSED attempt. A plugin may answer a pause and still return a
  FAILED result; a crash between the two status changes of that result leaves PAUSED with FAILED
  (`PausedAttemptLost`), and resuming from there ends for good in QUEUED, ASSIGNED or RUNNING with
  FAILED (`EveryPairIsReached`, `EveryPairCanStrand`).
- The recovery branch of resume refuses RUNNING with a PAUSED attempt, which a crash between the two
  status changes of pause leaves; a resume that dies in its channel probes leaves QUEUED. Both are
  stranded (`ResumeMeaning`, `EveryPairCanStrand`).
- A stop before the adapter knows the process is lost, during the plugin healthcheck or while the
  process is being started (`UnheardStop`, `EarlyStopIsLost`).
- create_attempt can add an attempt to a finished task (`AttemptOnFinishedExactlyWhen`,
  `AttemptOnFinishedTask`).
- Plain transitions out of WAITING_APPROVAL, or into it, break the match of waits and approvals
  (`MatchedAfter`, `BypassReleasesTheWrongWait`).
- Timestamps stored with different offsets do not sort by time (`OffsetsMustAgree`,
  `MixedOffsetsDisagree`).
- load does not always return what create wrote: references are collected without checking their
  hashes, so a file that changed since it was registered makes a fresh checkpoint unloadable
  (`LoadAfterCreate`, `FreshCheckpointDoesNotLoad`).
- A crash between the file replace and the registration can lose the latest checkpoint, when that
  refers to an output registered under the name the next file gets (`CrashBeforeRegistration`,
  `CrashLosesCheckpoint`).
- A running task cannot always be paused. A plugin may register an artifact of kind "checkpoint" over a
  file of its own, or overwrite a registered one. When such a file holds JSON that is not an object, has
  an infinite revision or is nested too deeply, create raises an exception that is not a checkpoint
  error; when all revisions shown are negative, the new checkpoint fails its own validation
  (`PrepareFailsExactlyWhen`, `PauseSavesExactlyWhen`, `PluginFileDecidesCreate`,
  `SecondPauseIsBlocked`).

## Assumptions

- One controller process per database for the protocol; the store and the stale writers have none.
- At most one pause in flight per task. The code has no guard; `DoPause` models a second one as refused.
- Callers of `EventService.append` never use the event names the repositories reserve.
- `ApprovalRepository.decide` is one atomic step, although its first SELECT runs before the write
  transaction opens and the row count of the approval UPDATE is not checked.
- Envelopes have the master capability "MASTER"; the column is not stored.
- All cost timestamps are UTC, and day and month windows exist (no year 9999 rollover).
- SHA-256 is symbolic and injective, JSON lossless, a file replace atomic, and a file is not changed
  between its replace and the reading back of its hash.
- Directories and files can be written under any name, and numbers have text of any length; a write that
  fails is the pause failing at its last await.
- Artifacts are listed in insertion order (created_at, id). Task scopes are 24 hex digits.
- Loaded configuration is validated: keys unique, every class and mode present, soft limit at most
  hard limit, hard limits not negative.

## Model

| member | source | states |
|---|---|---|
| StateMachine.TerminalIffStuck | src/xh_control/core/state_machine.py:7-60 | The three terminal statuses are exactly the statuses without a successor, and no status may follow itself |
| StateMachine.TerminalIsLast | src/xh_control/core/state_machine.py:11-60 | On a path of permitted transitions a terminal status can only be the last one |
| StateMachine.EveryStatusOnAPath | src/xh_control/core/state_machine.py:11-60 | Every status lies on a permitted path from CREATED; unless terminal it can still be failed or cancelled |
| Store.Database.CreateTask | src/xh_control/state/repositories.py:86-128 | The insert and its event commit together, or a duplicate id changes nothing |
| Store.Database.Transition | src/xh_control/state/repositories.py:146-199 | Compare-and-set of a task status with its event: it goes through exactly when the status is the expected one and, when an attempt is named, that attempt is the current one of the task with the given generation; a miss changes nothing |
| Store.Database.CreateAttempt | src/xh_control/state/repositories.py:201-273 | The new attempt gets the next number and generation, becomes the current one, and is logged, all or nothing |
| Store.Database.TransitionAttempt | src/xh_control/state/repositories.py:293-367 | Compare-and-set of an attempt row with its event: it goes through exactly when the status is the expected one and the attempt is the current one of its task with the given generation |
| Store.Database.MovedRow | src/xh_control/state/repositories.py:305-342 | The row an attempt update leaves: status, start time when it first runs, end time when it ends, failure and message as given |
| Store.Database.AppendNote | src/xh_control/state/repositories.py:429-452 | An event is appended only for a task and attempt that belong together |
| Store.Database.RegisterArtifact | src/xh_control/state/repositories.py:490-552 | Row, latest-checkpoint pointer and event commit together; a taken id or a foreign attempt changes nothing |
| Store.Database.RecordCost | src/xh_control/state/repositories.py:633-681 | The cost row and its event, which carries the row number, commit together |
| Store.Database.RecordMetric | src/xh_control/state/repositories.py:730-781 | The learning row and its event commit together; a taken id changes nothing |
| Store.Database.RequestApproval | src/xh_control/state/repositories.py:817-894 | A RUNNING task moves to WAITING_APPROVAL together with its PENDING approval and both events, or nothing happens |
| Store.Database.DecideApproval | src/xh_control/state/repositories.py:917-948 | A PENDING approval is decided once, releasing its task only while that waits, or nothing happens |
| EventLog.FaithfulAfter | src/xh_control/state/repositories.py:369-384 | No transaction, whatever its arguments, makes the log and the tables disagree: folding the log still gives every table, histories still end in the stored statuses |
| EventLog.LogIsEventSource | src/xh_control/state/repositories.py:105-126 | After any sequence of transactions, folding task_events rebuilds tasks, attempts, artifacts, costs, approvals and metrics, and the `from` of each status event is the `to` of the previous one |
| EventLog.LogIsAppendOnly | src/xh_control/state/repositories.py:369-384 | A log row is never rewritten or dropped |
| EventLog.SameLogSameTables | src/xh_control/state/repositories.py:369-384 | Two databases with the same log hold the same recorded facts, however they were reached |
| EventLog.CostEventsNameTheirRows | src/xh_control/state/repositories.py:633-681 | After any sequence of transactions every cost event carries the number of its row and the contents of that row |
| Lifecycle.RunsStayValid | src/xh_control/state/repositories.py:210-258 | Over any run of validated calls: attempts are numbered 1..n without gaps with number equal to generation, the current attempt is the highest, the end time is set exactly in terminal statuses, failure details imply FAILED, and every row that names an attempt names one of its own task |
| Lifecycle.RefsAreOwned | src/xh_control/state/repositories.py:61-80 | validate_task_attempt_refs lets through exactly a known task and no attempt or one of that task, and which error it raises otherwise |
| Lifecycle.HistoriesFollowTheTable | src/xh_control/core/state_machine.py:11-60 | Over any run of validated calls the logged history of every task is a permitted path from CREATED to its stored status, and of every attempt one from ASSIGNED |
| Lifecycle.TerminalIsForever | src/xh_control/core/state_machine.py:7-9 | A finished task keeps its status and a finished attempt its whole row, whatever calls follow |
| Lifecycle.SupersededIsFrozen | src/xh_control/state/repositories.py:305-342 | Once a newer generation of the task exists, an attempt row never changes again |
| Lifecycle.StartTime | src/xh_control/state/repositories.py:315-325 | The start time is set exactly when the attempt has been RUNNING |
| Lifecycle.StartTimeStep | src/xh_control/state/repositories.py:315-325 | Once set, the start time is never moved |
| TaskService.Service.ValidateFence | src/xh_control/core/task_service.py:126-145 | The fencing token is accepted exactly for the current attempt of the task with its generation; otherwise the error of the source |
| TaskService.Service.TransitionTask | src/xh_control/core/task_service.py:47-66 | Read, validate and compare-and-set on the shared store; an exception leaves it untouched |
| TaskService.Service.CreateAttempt | src/xh_control/core/task_service.py:68-91 | Refused for an empty worker, an unknown or a finished task; otherwise the repository call |
| TaskService.Service.TransitionAttempt | src/xh_control/core/task_service.py:99-124 | Fence, transition table and failure-detail checks before the repository call |
| TaskPolicy.FenceMeaning | src/xh_control/core/task_service.py:126-145 | validate_fence accepts exactly the current attempt of the task with its generation, and which error each refusal is |
| TaskPolicy.UninterruptedTransition | src/xh_control/core/task_service.py:47-66 | Without interference the call succeeds exactly when the table allows the change and a token, if given, names the current attempt with its generation, read off the tables; it then changes nothing but the status and the log, and otherwise raises the stated error |
| TaskPolicy.UninterruptedCreateAttempt | src/xh_control/core/task_service.py:68-91 | Without interference create_attempt succeeds exactly for a named worker, a known unfinished task, a fresh id and, when given, the next generation; it never leaves an attempt on a finished task |
| TaskPolicy.UninterruptedAttemptTransition | src/xh_control/core/task_service.py:99-124 | The same for attempts with any failure details: exactly when it succeeds, and every field of the row it leaves |
| StaleWriters.CommitsAreLawful | src/xh_control/core/task_service.py:47-66 | Any number of clients interleaving between their reads and their commits reach only databases that some sequence of validated calls reaches |
| StaleWriters.StaleWritersAreHarmless | src/xh_control/core/task_service.py:47-145 | Under every such interleaving the database stays valid, its log complete, and every task and attempt history a permitted path |
| StaleWriters.StaleWritersCannotRevive | src/xh_control/core/task_service.py:99-145 | However stale the readers: terminal statuses are never left, finished attempts never rewritten, superseded attempts frozen, the log only grows |
| StaleWriters.FencedCommit | src/xh_control/state/repositories.py:156-190 | A validated write succeeds exactly when, at commit, the status is still the one read and, for a fenced one, the attempt is the current one of the task and has the generation of the token, read off the tables |
| Fencing.AloneIsUninterrupted | src/xh_control/core/task_service.py:47-124 | A client that nobody interrupts commits exactly what the uninterrupted call gives, and nothing when that raises |
| Fencing.OnlyTheNewestMoves | src/xh_control/state/repositories.py:156-190 | In every interleaving, a log row that moves a status in the name of an attempt comes after the creation of that attempt with no other attempt of the task created in between, and carries its generation |
| Fencing.SupersededTokensAreDead | src/xh_control/state/repositories.py:165-172 | Hence after another attempt of a task was created, no later row moves a task or attempt status in the name of the earlier one |
| StaleWriters.AttemptOnFinishedExactlyWhen | src/xh_control/state/repositories.py:201-273 | The commit of a validated create_attempt adds an attempt to a finished task if and only if the task is terminal at the commit, the id is fresh and the generation absent or next |
| StaleWriters.AttemptOnFinishedTask | src/xh_control/core/task_service.py:68-91 | A finding: the terminal check runs only before the transaction, so a stale client still gets an attempt onto a cancelled task (a concrete schedule) |
| Approvals.MatchedAfter | src/xh_control/state/repositories.py:817-894 | At most one PENDING approval per task, exactly one while it waits, and PENDING only while it waits or has finished: a call breaks this if and only if it moves a task out of, or into, WAITING_APPROVAL past the approval calls to a status that is not terminal |
| Approvals.RequestMeaning | src/xh_control/state/repositories.py:817-894 | request_and_wait goes through exactly for a PENDING approval of a RUNNING task under a fresh id; what it writes, and which error each refusal is |
| Approvals.DecisionMeaning | src/xh_control/state/repositories.py:917-948 | decide goes through exactly for a signed verdict on a PENDING approval; what it writes, and which error each refusal is |
| Approvals.ApprovalsMatch | src/xh_control/state/repositories.py:817-948 | Over every run without such a call, waiting tasks and pending approvals match one to one |
| Approvals.DecidedOnce | src/xh_control/state/repositories.py:917-948 | A decided approval never changes again |
| Approvals.DecisionMovesOnlyWaitingTasks | src/xh_control/state/repositories.py:917-948 | Deciding touches no other task, moves its own only out of WAITING_APPROVAL, and never revives a finished one |
| Approvals.BypassReleasesTheWrongWait | src/xh_control/core/task_service.py:47-66 | A finding: a plain WAITING_APPROVAL to RUNNING transition leaves an orphan approval whose later decision releases a newer wait (a concrete run) |
| Calendar.EarlierIsSmallerInstant | src/xh_control/core/budget_engine.py:211-228 | The field-by-field order of UTC date-times is the order of the instants they denote, leap years included |
| Calendar.WindowEnds | src/xh_control/core/budget_engine.py:211-228 | The next day starts one day after the day start; the next month starts after exactly the days of this month |
| Calendar.Gregorian | src/xh_control/core/budget_engine.py:211-228 | The calendar is the Gregorian one: month lengths, 146097 days in 400 years, and the Unix epoch as day 719163 |
| Calendar.DayWindow | src/xh_control/core/budget_engine.py:211-217 | A moment lies in the day window exactly when it is on the same calendar day |
| Calendar.MonthWindow | src/xh_control/core/budget_engine.py:219-228 | A moment lies in the month window exactly when it is in the same calendar month, December included |
| Timestamps.IsoOrder | src/xh_control/state/repositories.py:36-37 | For UTC isoformat strings, with or without a microsecond part, text order is time order |
| Timestamps.IsoInjective | src/xh_control/state/repositories.py:36-37 | Two date-times have the same stored text only if they are equal |
| Timestamps.IsoReadsBack | src/xh_control/state/repositories.py:36-37 | A stored timestamp has 25 or 32 characters and its fields, read back at their places, are those of the time |
| Timestamps.IsoAtOrder | src/xh_control/state/repositories.py:36-37 | Whatever the offsets, the local time decides the order of two stored texts and only a tie is left to the offsets |
| Timestamps.UtcIsOffsetZero | src/xh_control/state/repositories.py:36-37 | The text of a UTC time is its text at offset zero |
| Timestamps.OffsetsMustAgree | src/xh_control/state/repositories.py:704-715 | Text order is time order between timestamps at two offsets if and only if the offsets are the same: in one direction for offsets in whole minutes (or more than a microsecond apart), in both directions for all offsets datetime accepts |
| Timestamps.MixedOffsetsDisagree | src/xh_control/state/repositories.py:704-715 | A finding: a timestamp stored with another offset sorts on the wrong side of a window (concrete values) |
| Spending.TextWindow | src/xh_control/state/repositories.py:704-715 | The text comparison of sum_estimated selects exactly the cost rows inside the time window |
| Spending.WindowsSumTheCalendar | src/xh_control/core/budget_engine.py:67-73 | The daily and monthly sums the engine queries are the costs of this calendar day and month |
| Spending.SpendOfOneMore | src/xh_control/state/repositories.py:692-716 | The three sums row by row: a cost counts with its whole amount for its task, its calendar day and its calendar month, and for no other |
| Spending.MonthIsItsDays | src/xh_control/state/repositories.py:692-716 | The cost of a month is the sum of the costs of its days, and no day of it costs more than the month |
| BudgetPolicy.QuotationMeaning | src/xh_control/core/budget_engine.py:64-95 | The projected task, daily and monthly totals are spend plus estimate; the exceeded and warning lists are empty exactly within the hard and the soft limits |
| BudgetPolicy.AuthorizeMeaning | src/xh_control/core/budget_engine.py:96-176 | A request on a cheap or premium API is permitted exactly when no hard limit would be exceeded, with a warning exactly when a soft one would be; no cost is recorded |
| BudgetPolicy.AuthorizeEffects | src/xh_control/core/budget_engine.py:129-176 | Permission only logs; a block files one PENDING approval and moves the RUNNING task to WAITING_APPROVAL |
| BudgetTheorems.PaidAnswersExactlyWhen | src/xh_control/core/budget_engine.py:57-176 | For a cheap or premium API: exactly when authorize answers, and which error it raises otherwise, by amount, task, windows, limits, status and approval id |
| BudgetTheorems.PaidAnswer | src/xh_control/core/budget_engine.py:96-176 | Its answer: block, warning or allow by the limits broken and passed, the totals as real spend plus estimate, and exactly those scopes |
| BudgetTheorems.PaidWrites | src/xh_control/core/budget_engine.py:129-176 | What it writes: one event for a permission; for a block the pending approval with the projection, the waiting task and two events |
| BudgetTheorems.UnpaidAnswers | src/xh_control/core/budget_engine.py:75-94 | For a subscription or local channel it answers exactly at zero cost, then always allows, reports the real spends and adds one event |
| BudgetTheorems.RecordedCostCounts | src/xh_control/core/budget_engine.py:178-198 | A recorded cost counts once, with its whole amount, for its task and for the day and month of the call |
| BudgetEngine.Engine.Authorize | src/xh_control/core/budget_engine.py:57-176 | The engine decides, logs and files approvals as the policy says, on the shared store: a cheap or premium request is permitted exactly within all three hard limits, a subscription or local one only at zero and without touching tasks or approvals |
| BudgetEngine.Engine.RecordCost | src/xh_control/core/budget_engine.py:178-198 | A cost row at the UTC time of the call, or the error of the source and no change |
| SpendBound.SpendIsBounded | src/xh_control/core/budget_engine.py:57-198 | With at most k paid authorisations outstanding, none above M, and each recorded cost at most its estimate: no task, day or month ever costs more than its hard limit plus (k-1)*M, over any run and across day and month ends |
| SpendBound.OneAtATimeStaysWithinLimits | src/xh_control/core/budget_engine.py:96-176 | With one authorisation at a time no hard limit is ever exceeded |
| SpendBound.BoundIsReached | src/xh_control/core/budget_engine.py:96-176 | The bound is tight for every k and every positive amount up to the limit: a run spends exactly the limit plus (k-1) amounts, for the task and, with equal limits, for day and month at once |
| ChannelRouter.RankCandidates | src/xh_control/routing/channel_router.py:82-133 | The loop and the in-place sort compute the ranking function; its entries stand in the order of class priority, score, own priority and id |
| ChannelRouter.BeforeIsStrictTotal | src/xh_control/routing/channel_router.py:194-205 | The sort key orders channels with different ids strictly and totally; RoutingTheorems.RankOrder says what each part of it does to a ranking |
| ChannelRouter.SortedIsUnique | src/xh_control/routing/channel_router.py:194-205 | Two sorted arrangements of the same candidates are the same list |
| ChannelRouter.RankMeaning | src/xh_control/routing/channel_router.py:82-133 | The ranking is sorted, repeats no id and holds exactly the eligible channels; it fails exactly when none is eligible |
| ChannelRouter.ConfigurationOrderIsIrrelevant | src/xh_control/routing/channel_router.py:82-133 | Configurations with the same channels in any order rank alike |
| ChannelRouter.ClassComesFirst | src/xh_control/routing/channel_router.py:194-205 | No score or priority lets a channel of a lower class pass one of a higher class |
| ChannelRouter.FirstBeatsAll | src/xh_control/routing/channel_router.py:82-133 | The first channel is the one eligible channel that sorts before all others, and conversely |
| RoutingTheorems.RankedExactlyWhen | src/xh_control/routing/channel_router.py:89-112 | A configured channel is ranked exactly when it is enabled and capable, not cooling down, unavailable or rate limited, not the channel of a disabled subscription, and not premium in a mode that forbids it |
| RoutingTheorems.RankOrder | src/xh_control/routing/channel_router.py:194-205 | Down the ranking class priority never increases, within it score never increases, within that own priority never increases, and full ties are in the order of ids |
| RoutingTheorems.QualityMoves | src/xh_control/routing/channel_router.py:162-179 | The score moves with quality by its weight; unrated counts as 0.8 in MAX_QUALITY and 0.7 otherwise |
| RoutingTheorems.ReliabilityMoves | src/xh_control/routing/channel_router.py:164-179 | The score moves with reliability by its weight, capped by what the present health is worth |
| RoutingTheorems.AffinityMoves | src/xh_control/routing/channel_router.py:156-180 | A channel bound to the worker gains the affinity weight over one bound to others, an unbound one half of it |
| RoutingTheorems.HandoffMoves | src/xh_control/routing/channel_router.py:171-186 | Leaving the current channel adds the handoff weight, staying or having none adds nothing |
| RoutingTheorems.ClassMoves | src/xh_control/routing/channel_router.py:33-38 | Subscription adds its bonus, a cheap API the monetary weight once and a premium API twice |
| RoutingTheorems.CostsMove | src/xh_control/routing/channel_router.py:169-185 | Token cost and latency count with their weights and as zero when not given |
| RoutingTheorems.PlainScore | src/xh_control/routing/channel_router.py:174-186 | The score of a channel without any hint |
| RoutingTheorems.BetterQualityRanksFirst | src/xh_control/routing/channel_router.py:82-133 | In the ranking, of two channels alike but for id and quality the better stands first when quality has a positive weight |
| ChannelRouter.UnchosenIsIrrelevant | src/xh_control/routing/channel_router.py:63-133 | Removing a channel that was not chosen does not change the AUTO choice |
| MasterSelector.SelectMeaning | src/xh_control/routing/master_selector.py:22-57 | select returns the first ranked channel that the preference and the cross-provider policy admit, and fails exactly when there is none |
| MasterSelector.ResolveIsOptimal | src/xh_control/routing/channel_router.py:63-80 | No admissible channel has a higher class priority than the resolved one, then a higher score, then a higher priority of its own, then a smaller id; resolution fails exactly when no channel is admissible |
| RoutingTheorems.AutoTakesTheFirst | src/xh_control/routing/master_selector.py:30-33 | AUTO takes the first channel of the ranking and fails only with it |
| RoutingTheorems.PreferredIsTaken | src/xh_control/routing/master_selector.py:35-41 | A preference for Claude or ChatGPT takes the channel of the subscription "claude" or "chatgpt" whenever that channel is ranked |
| RoutingTheorems.FallbackCrosses | src/xh_control/routing/master_selector.py:43-44 | Otherwise, if providers may be crossed, the first channel of the ranking |
| RoutingTheorems.FallbackStays | src/xh_control/routing/master_selector.py:46-54 | Otherwise the first ranked channel of the preferred channel's provider, and failure exactly when there is none |
| RoutingTheorems.NoFallback | src/xh_control/routing/master_selector.py:46-57 | And failure when the preference names no configured channel |
| CheckpointNames.CheckpointIdInjective | src/xh_control/core/checkpoint_service.py:56-98 | Checkpoint ids of different revisions differ, also beyond four digits |
| CheckpointNames.PathDeterminesRevision | src/xh_control/core/checkpoint_service.py:56-98 | A checkpoint path determines its revision and, for scopes of one length, its task scope |
| CheckpointNames.NameReadsBack | src/xh_control/core/checkpoint_service.py:56-80 | The file is CP-, the revision in at least four digits, .json, under the checkpoints directory of the scope, below 30_Working where that exists |
| CheckpointPolicy.LoadedWasCreated | src/xh_control/core/checkpoint_service.py:100-134 | Whatever happened to the files, a checkpoint that load accepts is field for field one that a registered create wrote for this task and plugin, its attempt is current, and its artifact references have their registered hashes |
| ProtocolOutcomes.ReachableLoadWasCreated | src/xh_control/core/checkpoint_service.py:100-134 | After any schedule of the protocol, whatever was done to the files, the same holds of every checkpoint that load accepts for the task |
| CheckpointPolicy.LoadAfterCreate | src/xh_control/core/checkpoint_service.py:42-134 | load after create gives the same checkpoint exactly when its attempt is still current and every referenced artifact is unchanged; every field of what create returns is the one asked for, under the next revision |
| CheckpointPolicy.LoadsExactlyWhen | src/xh_control/core/checkpoint_service.py:100-134 | Exactly when load succeeds, on the files and rows: where it looks, what the document must say, and what the last row for the file and for each reference must carry |
| CheckpointPolicy.LoadErrors | src/xh_control/core/checkpoint_service.py:100-134 | Which error a refused load raises |
| CheckpointPolicy.NextRevisionMeaning | src/xh_control/core/checkpoint_service.py:145-156 | The next revision is one past the largest any registered checkpoint file of the task shows, or 1; it raises exactly when reading one of those files lets an exception through (JSON that is not an object, an infinite revision, nesting too deep), and then the exception of the first such file |
| CheckpointPolicy.PrepareFailsExactlyWhen | src/xh_control/core/checkpoint_service.py:54-81 | create fails before writing anything if and only if a required field is empty, the task unknown, the workspace not local, a registered checkpoint file of the task raises, or the revisions shown are all negative |
| CheckpointPolicy.CreateSucceedsExactlyWhen | src/xh_control/core/checkpoint_service.py:42-98 | For a known task and attempt, create succeeds if and only if none of that holds and the artifact id is free |
| CheckpointPolicy.CreateRaises | src/xh_control/core/checkpoint_service.py:56-81 | The exceptions other than its own errors: what the first raising file raises, or ValueError exactly for only negative revisions or an empty field on an otherwise usable request |
| CheckpointWitnesses.PluginFileDecidesCreate | src/xh_control/core/checkpoint_service.py:145-156 | A finding, for every content: a plugin-registered artifact of kind "checkpoint" makes create raise if its file is a list, has an infinite or negative revision or is nested too deeply, and otherwise leaves it working (a concrete database and disk) |
| ProtocolOutcomes.PauseSavesExactlyWhen | src/xh_control/core/process_execution_service.py:193-207 | An answered pause reaches PAUSED if and only if task and attempt are RUNNING, handoff, worker and plugin are named, the workspace is local, no registered checkpoint file blocks the numbering and the artifact id is free; otherwise both statuses stay, the run is told, and on a RUNNING task the database is untouched |
| ProtocolWitnesses.SecondPauseIsBlocked | src/xh_control/core/process_execution_service.py:193-207 | A finding: pause, resume, and an overwritten checkpoint file make the second pause save nothing (a concrete schedule, for every such content) |
| CheckpointWitnesses.FreshCheckpointDoesNotLoad | src/xh_control/core/checkpoint_service.py:136-143 | A finding: references are collected without checking hashes, so with an output changed since its registration the checkpoint that create writes does not load (a concrete database and disk) |
| CheckpointPolicy.AccessibleRefsMeaning | src/xh_control/core/checkpoint_service.py:136-143 | The accessible references are the uris of exactly the task rows whose local file exists, each row once and in row order |
| CheckpointPolicy.NextRevisionIsNew | src/xh_control/core/checkpoint_service.py:145-156 | While registered checkpoint files stay readable, the next revision is above every registered one, without bound |
| CheckpointPolicy.CreateNeverOverwrites | src/xh_control/core/checkpoint_service.py:56-98 | create never writes over a file that a registered checkpoint row of the task names |
| CheckpointPolicy.CrashBeforeRegistration | src/xh_control/core/checkpoint_service.py:81-98 | A crash between the file replace and the registration leaves load with the answer it had before if and only if the latest checkpoint refers to no artifact with another recorded hash under the name of the new file; otherwise load fails |
| CheckpointWitnesses.CrashLosesCheckpoint | src/xh_control/core/checkpoint_service.py:81-98 | A finding: with such a reference the crash makes the latest checkpoint unloadable (a concrete database and disk) |
| CheckpointPolicy.TasksAreIsolated | src/xh_control/core/checkpoint_service.py:56-80 | Checkpoint files of tasks with different scopes never coincide |
| CheckpointPolicy.CreateKeepsGenuine | src/xh_control/core/checkpoint_service.py:81-98 | Registration by create keeps every hashed local row one that create made |
| CheckpointService.Service.NextRevision | src/xh_control/core/checkpoint_service.py:145-156 | The pass over the registered checkpoint files computes the next revision and raises exactly when reading one of them lets an exception through |
| CheckpointService.Service.Create | src/xh_control/core/checkpoint_service.py:42-98 | The numbered file first, then its row with the hash and the pointer; which of the two survived each failure is stated |
| CheckpointService.Service.Load | src/xh_control/core/checkpoint_service.py:100-134 | Identity, digest, registered hash and references are checked in the order of the source |
| ChannelPolicy.LateResponseLeavesNothing | src/xh_control/core/channel_execution_service.py:48-115 | Whatever validated calls ran during the await: a response leaves no artifact, cost, metric or event exactly when the attempt is no longer current, the task is no longer RUNNING, or the response is unusable; a superseded attempt is always dropped |
| ChannelPolicy.AcceptedResponse | src/xh_control/core/channel_execution_service.py:74-115 | An accepted response adds its output row, a zero cost with its tokens and its event under the calling attempt, and changes no task or attempt |
| ChannelPolicy.PermitExactlyWhen | src/xh_control/core/channel_execution_service.py:48-67 | A channel is called exactly for a RUNNING task and its current RUNNING attempt of that generation, on a request with the task, capability and workspace of the envelope, through the attempt's configured, capable subscription channel |
| ChannelPolicy.PermitErrors | src/xh_control/core/channel_execution_service.py:48-67 | Which error each refusal is, in the order of the source |
| ChannelPolicy.OutputRowMeaning | src/xh_control/core/channel_execution_service.py:77-95 | The output row, with a hash exactly when the reference is a file: URL of a file that exists |
| ChannelPolicy.MetricAdded | src/xh_control/learning/operational_metrics.py:35-89 | The learning event of a response, field by field |
| ChannelService.Service.Prepare | src/xh_control/core/channel_execution_service.py:48-67 | Every check before the await, with its error; what it lets through has the task, capability and workspace of the envelope and goes to the attempt's subscription channel |
| ChannelService.Service.RecordResponse | src/xh_control/learning/operational_metrics.py:35-89 | A zero cost for a subscription channel, then the learning event |
| ChannelService.Service.Conclude | src/xh_control/core/channel_execution_service.py:71-115 | Fence and status again after the await, then artifact, cost, metric and event in order, stopping at the first that raises |
| ProcessExecution.Transport.CompletePause | src/xh_control/plugins/process_adapter.py:208-211 | The first outcome of a pause stays |
| ProcessExecution.Service.Claim | src/xh_control/core/process_execution_service.py:86-88 | create_task and create_attempt pass through the states of the protocol's claim |
| ProcessExecution.Service.Launch | src/xh_control/core/process_execution_service.py:129-133 | QUEUED, ASSIGNED, RUNNING, the attempt, and the start event, in this order and stopping at the first exception |
| ProcessExecution.Service.Finish | src/xh_control/core/process_execution_service.py:174-176 | The attempt first, then the task under its fence |
| ProcessExecution.Service.Abort | src/xh_control/core/process_execution_service.py:161-170 | A durable PAUSED is kept; anything else is logged and failed |
| ProcessExecution.Service.Conclude | src/xh_control/core/process_execution_service.py:139-158 | Stop flag, learning fields, fence, output hash, result event and finish, in this order |
| ProcessExecution.Service.AccessibleRefs | src/xh_control/core/checkpoint_service.py:136-143 | A uri is in the result exactly when some artifact of the task carries it and its local file exists; CheckpointPolicy.AccessibleRefsMeaning gives the order |
| ProcessExecution.Service.Checkpoint | src/xh_control/core/process_execution_service.py:195-201 | The checkpoint asked for by pause is created as file, then row |
| ProcessExecution.Service.Persist | src/xh_control/core/process_execution_service.py:193-207 | Checkpoint, attempt, task, and the outcome told to the transport in every case |
| ProcessExecution.Service.Recover | src/xh_control/core/process_execution_service.py:213-235 | The recovery branch: attempt, task, event |
| ProcessExecution.Service.Resume | src/xh_control/core/process_execution_service.py:209-246 | Recovery, load, active check and requeue; what the started run is given |
| ProcessExecution.Service.Cancel | src/xh_control/core/process_execution_service.py:178-181 | A stop marks the transport in the active table and no other |
| ProtocolSegments.ClaimRests | src/xh_control/core/process_execution_service.py:86-88 | A run command gets past the claim only when it finds no task; a duplicate has no effect |
| ProtocolSegments.LaunchRests | src/xh_control/core/process_execution_service.py:129-133 | From the healthcheck on, an ASSIGNED or PAUSED attempt is started and a FAILED one is refused, leaving RUNNING with FAILED; every state on the way is a listed pair |
| ProtocolSegments.AbortRests | src/xh_control/core/process_execution_service.py:161-170 | The exception handler leaves PAUSED alone and otherwise fails both rows, unless the attempt has already failed |
| ProtocolSegments.SettleRests | src/xh_control/core/process_execution_service.py:139-158 | Storing a result moves attempt and task to its status together, or neither |
| ProtocolSegments.PersistRests | src/xh_control/core/process_execution_service.py:193-207 | The second half of pause takes a RUNNING task and attempt to PAUSED with the handoff in the latest registered checkpoint, or leaves both statuses alone |
| ProtocolSegments.ReceiveRests | src/xh_control/core/channel_execution_service.py:71-115 | The effects of a channel response move no status and register no checkpoint |
| ProtocolInvariant.RunStep | src/xh_control/plugins/process_adapter.py:72-170 | Whatever ends the await a run waits at, every durable state up to its next await is a resting state and the invariant holds there: a call in flight carries the task, capability and workspace of the envelope, a returned result its checked identity, status, usage and outputs |
| ProtocolCommands.LoadedIsLatest | src/xh_control/core/checkpoint_service.py:100-134 | In a resting state, what load accepts is the most recently registered checkpoint of the current attempt and generation |
| ProtocolCommands.ActionStep | src/xh_control/core/process_execution_service.py:45-246 | Every command, await, pause answer, file change or call about another task keeps the invariant in all durable states it passes through |
| ProtocolCommands.AlwaysInv | src/xh_control/core/process_execution_service.py:45-246 | The invariant holds after every schedule, with a crash possible between any two effects: one owner, the statuses its position allows, a pause that belongs to a live run or a finished task |
| ProtocolTheorems.StatusesAgree | src/xh_control/core/process_execution_service.py:87-247 | In every reachable state: the status pair is one of the listed ones, attempt RUNNING implies task RUNNING, attempt COMPLETED implies task RUNNING or COMPLETED, a finished task has an attempt in the same status, and PAUSED implies a registered checkpoint naming the current attempt |
| ProtocolWitnesses.EveryPairIsReached | src/xh_control/core/process_execution_service.py:87-247 | The set of pairs is exact: for every task that can be checkpointed a schedule reaches each of them |
| ProtocolWitnesses.EveryPairCanStrand | src/xh_control/core/process_execution_service.py:213-237 | Every listed pair except the two PAUSED ones is reached stranded: nobody owns the task and no later schedule changes the pair |
| ProtocolTheorems.OneTransport | src/xh_control/core/process_execution_service.py:49-53 | At most one run of a task is past its probes, and it is the one in the active table |
| ProtocolTheorems.ProtocolIsLawful | src/xh_control/core/process_execution_service.py:45-246 | Every database the protocol produces comes from a sequence of validated repository calls |
| ProtocolTheorems.ReachableIsValid | src/xh_control/core/process_execution_service.py:45-246 | Hence numbering, ownership, permitted histories and the complete log hold in every reachable world |
| ProtocolTheorems.FinishedStaysFinished | src/xh_control/core/process_execution_service.py:192-207 | A finished task is never paused, revived or finished differently, however late a pause completes |
| ProtocolTheorems.CompletionIsEarned | src/xh_control/plugins/process_adapter.py:124-151 | A task becomes COMPLETED only in the step of a run nobody stopped, from RUNNING with RUNNING, whose channel answered successfully and whose result is about the task, has the channel output with an unchanged hash as its only output, reports one subscription call and no API call, spend or retry, no handoff and no learning field that is not allowed |
| ProtocolTheorems.StopMarks | src/xh_control/plugins/process_adapter.py:218-226 | A stop marks the active run exactly when its process is known to the adapter |
| ProtocolTheorems.FlagsStay | src/xh_control/plugins/process_adapter.py:208-211 | While a run lives, a stop mark stays, a pause outcome is set at most once, and a channel response is received at most once |
| ProtocolTheorems.UnheardStop | src/xh_control/plugins/process_adapter.py:218-220 | A stop while no process is known to the adapter changes nothing, then or later, in any schedule |
| ProtocolOutcomes.StoppedRunNeverCompletes | src/xh_control/core/process_execution_service.py:139-140 | Once a stop has found the process of a run, that run never completes the task, whatever happens later |
| ProtocolWitnesses.EarlyStopIsLost | src/xh_control/plugins/process_adapter.py:218-220 | A finding: a stop during the plugin healthcheck, or while its process is being started, when the run is already active, leaves no trace and the task completes (concrete schedules) |
| ProtocolOutcomes.SignalIsDurable | src/xh_control/plugins/process_adapter.py:124-132 | The paused signal, and a true pause outcome, exist only while task and attempt are durably PAUSED |
| ProtocolOutcomes.PausedFailsByResult | src/xh_control/core/process_execution_service.py:159-170 | A PAUSED task is turned FAILED only by a FAILED result accepted after the pause, never by the abort path |
| ProtocolOutcomes.PausedTurnsFailed | src/xh_control/core/process_execution_service.py:154-157 | Without a crash, an action turns a paused task FAILED if and only if it stores such a result |
| ProtocolOutcomes.PausedAttemptLost | src/xh_control/core/process_execution_service.py:174-176 | PAUSED with a FAILED attempt comes into being, from whatever state, if and only if task and attempt were paused and the controller dies between the two status changes of such a result |
| ProtocolOutcomes.ResumeMeaning | src/xh_control/core/process_execution_service.py:209-246 | Resume starts a run exactly when nothing is active, the checkpoint loads and the task is PAUSED, or RUNNING with an attempt still ASSIGNED or RUNNING; the run gets the handoff of the most recently registered checkpoint and the same attempt and generation |
| ProtocolOutcomes.HandoffAtStart | src/xh_control/plugins/process_adapter.py:213-216 | When the process of a resumed run starts, its handoff is still the latest registered one |
| ProtocolOutcomes.ResumableUnlessStranded | src/xh_control/core/process_execution_service.py:209-246 | After a crash, for a task whose checkpoint loads, resume starts a run if and only if any schedule at all ever moves the task again, which is exactly when it is not stranded |
| ProtocolOutcomes.StrandedForever | src/xh_control/core/process_execution_service.py:213-237 | A stranded task (no owner, and CREATED, QUEUED, ASSIGNED, finished, or RUNNING without a pointer or with a PAUSED, FAILED or COMPLETED attempt) keeps its statuses under every schedule |
| ProtocolLog.NoFalseCompletion | src/xh_control/plugins/process_adapter.py:94-151 | In every log the channel answers are at most the plugin starts, and the log of a COMPLETED task holds, after its last start, a successful answer whose output was registered and later accepted with a hash for the current attempt |
| ProtocolLog.CompletionLeavesEvidence | src/xh_control/core/process_execution_service.py:146-157 | The step that completes a task leaves that evidence in the database |
| ProtocolChecks.CallsExactlyWhen | src/xh_control/plugins/process_adapter.py:99-115 | A polling run calls its channel exactly when the fence, both statuses, the envelope and the attempt's subscription channel allow the request; any other request ends the run |
| ProtocolChecks.CallsAreGranted | src/xh_control/core/channel_execution_service.py:48-67 | In every reachable world a call in flight is for this task with its capability and workspace, on behalf of the current attempt, to a capable subscription channel: no schedule calls a paid one |
| ProtocolChecks.LaterRequestsAreIgnored | src/xh_control/plugins/process_adapter.py:98-102 | A request after the answer, the exit or the stop changes nothing |
| ProtocolChecks.ReturnsExactlyWhen | src/xh_control/plugins/process_adapter.py:133-151 | The adapter returns the printed result exactly when identity, status, usage, handoff and outputs are those the channel answer allows; any other result ends the run |
| ProtocolChecks.ReturnedIsChecked | src/xh_control/plugins/process_adapter.py:137-151 | In every reachable world a returned result has all of these properties |
| ProtocolChecks.OtherExits | src/xh_control/plugins/process_adapter.py:118-132 | A handoff waits for the outcome of the pause, anything else ends the run |
| ProtocolChecks.OutcomeDecides | src/xh_control/plugins/process_adapter.py:130-132 | A stored pause gives the paused signal, a failed one ends the run |
| ProtocolChecks.StopAndSignalEnd | src/xh_control/core/process_execution_service.py:159-160 | A stop ends a polling run; the paused signal ends a run without an effect |
| ProtocolChecks.ExceptionsEndTheRun | src/xh_control/plugins/process_adapter.py:152-166 | What an exception, timeout or cancellation at each await leads to: gone before the first effect, unwinding inside the adapter, the exception handler in the service |
| ProtocolChecks.CallEnds | src/xh_control/plugins/process_adapter.py:113-114 | A channel answer is kept and the run polls on exactly when all its effects went through; otherwise the run unwinds |
| ProtocolChecks.MarksTheActiveRun | src/xh_control/plugins/process_adapter.py:218-226 | A stop and the exit of the process mark the active run with a live process and change nothing else |
| ProtocolChecks.StartsExactlyWhen | src/xh_control/core/process_execution_service.py:79-128 | Exactly when a probed run gets to the healthcheck, and the attempt a first run then holds |
| ProtocolChecks.PauseAskedExactlyWhen | src/xh_control/core/process_execution_service.py:183-192 | A pause is taken up exactly for a RUNNING task with a current attempt and a live process, one at a time |
| ProtocolChecks.PauseAnswers | src/xh_control/plugins/process_adapter.py:183-206 | An answer to a pause counts exactly while its run has a live process and only with a handoff, and is stored no earlier than that process has exited |
| ProtocolChecks.PauseEnds | src/xh_control/core/process_execution_service.py:205-207 | A failed pause ends by telling its live run so, unless that has an outcome, and changes nothing else |
| ProtocolChecks.RunCommandStarts | src/xh_control/core/process_execution_service.py:49-50 | A run command starts a first run exactly when no run of the task is active |
| ProtocolChecks.PauseStoresTheAttempt | src/xh_control/core/process_execution_service.py:193-201 | The checkpoint of a stored pause, field by field: attempt, worker, channel, handoff, accessible references, next revision, and no other file touched |
| ProtocolChecks.AbortLogs | src/xh_control/core/process_execution_service.py:161-170 | The exception handler logs the failure first, and writes nothing at all to a PAUSED task |
| ProtocolChecks.StartsAndRecoveriesAreLogged | src/xh_control/core/process_execution_service.py:129-133 | A start and a recovery end with their event |
| ProtocolChecks.ResultIsLogged | src/xh_control/core/process_execution_service.py:146-157 | A stored result adds its acceptance event and both status events, in this order |
| ProtocolTrails.ActionChain | src/xh_control/core/process_execution_service.py:45-246 | The durable states of every action are produced one after the other by effects that its position allows |

## Left out

- `Probing` merges the probes of all channels into one await; the probes have no durable effect.
- A stretch of code between two awaits reads the clock once in the protocol; the store methods take a time each.
- Coroutine bodies are steps of a state machine, not methods, because an await inside a method has no Dafny form; the stretches between awaits are methods in `ProcessExecution`.
- `ProcessExecution.Service` holds one task's configuration per object, where the source passes the task to each method.
- Timeouts: any await may end in an exception at any time; no real time passes.
- Subprocess launching, terminate_tree, transport directories and message files: a process is live or exited and prints something.
- Claude and Codex adapters, health probes, Telegram, HTTP, the Hermes relay, the mock gateway, the CLI and scripts: user interface and transport.
- YAML and Pydantic loading, SQLite and JSON internals: taken as the assumptions above.
- PermissionPolicy, WorkerSelector, PluginRegistry, PluginExecutionService and domain-key rejection are not modelled; in the protocol a refusal by one of them is the probe or healthcheck failing.
- Locators are already split into file URL, bare path and other scheme; urlparse and percent-decoding are not modelled, nor symbolic links or case-insensitive file systems.
- Floating point: money is integer micro-dollars, scores are exact reals; NaN, infinities and rounding do not occur.
- Prompt text of channel requests, and file sizes in bytes.
- EventLog.LogIsEventSource: covers what events carry; envelopes, failure messages, artifact sizes and quality scores are in no event.
- CheckpointPolicy.NextRevisionIsNew: needs the registered files readable with their own revision, because the code takes the next revision from the files and not from the rows.
- SpendBound.SpendIsBounded: covers paid authorisations that go through the engine and are recorded or dropped; a cost recorded without one is taken as zero.
- ProtocolCommands.AlwaysInv: the task itself is changed only by run, pause, resume, stop and channel calls; other clients of TaskService on the same task are covered by `StaleWriters`, other tasks by `Elsewhere`.
- ProtocolWitnesses.EveryPairIsReached: for tasks whose workspace is a local path and whose plugin has a name, since others cannot be checkpointed.
