# Heartbeat, modelled and proved

A Dafny model of the parts of heartbeat that keep state across crashes or rewrite
text that must keep its meaning, and proofs of what those parts promise.

- **The run ledger.** One row per agent run, saved between the steps of starting,
  reconciling, sweeping and cancelling it. `RunLedger` says what each operation
  makes of a row, given what the operating system and the lease helper answered.
  `RunWorld` puts the ledger among processes that start, exit and reuse pids, and
  proves lease conservation, exactly-once draining, slot holding, single ownership
  and finality of a cancel over every sequence of steps. `Dispatch` has the
  operations as they run, saving rows of an agent store. `RunOutcomes` says what each
  operation leaves of a run by what the processes, the file and the helper show, down
  to the state that a supervisor's verdict ends in; `RunStages` that a run dropped by
  mistake and adopted is the run it was.
- **Seats.** `Slots` counts them, `RefillLoop` is the refill loop of a tick,
  `DispatchTick` the tick itself. `Polling` says when a role is asked again,
  `TickRecovery` what a tick makes of the runs it finds. `Overrun`, `TickRisk` and
  `TickOverrun` say exactly when a pass, and when a whole tick, can start more runs
  than it saw seats.
  `LiveBound` follows the tick step by step among everything else that may happen
  and bounds the live providers over whole runs; `TickRun` shows that an
  undisturbed tick's steps compute the refill loop; `LiveOverrun` says exactly from
  which worlds a tick can take the live providers over a limit.
- **Plans.** `Plan` makes them, `PlanLimits` says what their grants and labels mean,
  `PlanOffers` which targets they offer and which reasons they give, `ConfirmedStart`
  starts them.
- **The dispatcher singleton.** `Dispatcher`: any number of processes, every
  interleaving of their atomic steps, crashes, reused and unreadable pids.
- **Event files.** `EventLog` reads them by byte offset, `SupervisedRun` writes them
  and reaches the verdict.
- **Dreaming.** `Transcript`, `Rounds` and `RoundCaps`: extraction in bounded rounds
  against whole extraction, and where each round ends. `DreamMeta`, `MetaSection`,
  `MetaGc`: the metadata file, its parser, its writer and its compaction.
- **Heartbeat jobs.** `JobText` parses them and `JobMeaning` says what a file
  describes; `Migrate*` moves them into one file per project, and accounts for every
  line and every job; `Quota` limits their starts, `JobGroups` runs them in groups.

`Prelude` and `Text` hold what several modules share.

Clocks, process observations, helper exit codes, provider answers, JSON decoding and
redaction are parameters. Every method is proved equal to a function that specifies
it; the lemmas are about those functions.

## Where the code and the expected claim differ

Each of these is a proved statement with its exact condition.

- *A tick starts at most the seats it saw.* Not so: after a start that uses up its
  intent (`continue` at src/heartbeat/agent_dispatch.py:1842) the project and device
  limits are not looked at again, so the next role of the pass may start one more.
  `TickOverrun.TickStaysWithinItsSeatsIff` is the exact condition, computed before
  the tick from the due order, the seats of the project and of the roles, the starts
  left before an execution limit and the distinct manual targets: for all that the
  launches may answer, and for all that one world of distinct processes can make them
  answer, the tick stays within its seats exactly when no role can take the last of
  them with the last start of its intent, in any pass, ahead of a role that can still
  start. `Overrun.PassStaysWithinItsSeatsIff` is the condition of a single pass;
  `TickOverrun.TheSecondPassOverruns` is a tick whose first pass meets it and whose
  second overruns, `Overrun.OneSeatTwoStarts` one that overruns at once.
  `Overrun.OverrunIsAtMostTwo` holds for any tick, and `TickOverrun.TwoMoreAreStarted`
  reaches it.
- *Live providers stay within the limits when only ticks start runs.* Exactly so for
  roles; for the device and a project by two more at most, however the tick's steps
  fall between everything else; and each time a live provider is judged blind, every
  limit gives way by one more: `LiveBound.LiveProvidersStayNearLimits`. Without a blind
  judgement every limit holds as long as no start uses up its intent on the last seat
  with roles still to come (`LiveBound.CarefulTicksKeepTheLimits`), so without execution
  limits and manual intents (`LiveBound.EndlessIntentsKeepTheLimits`), and over runs of
  undisturbed ticks that meet the condition above
  (`TickRun.TicksWithoutRiskKeepTheLimits`). That condition is exact in the world too:
  from a world at rest within its limits whose counted runs all live, a tick can take
  the live providers over the limit its seats come from exactly when it is at risk
  (`LiveOverrun.LiveLimitCanBeExceededIff`). From any empty ledger one tick can leave two
  live providers on a project of one (`LiveOverrun.TwoLiveOnOneSeat`), and another three,
  on the project and on the device (`LiveOverrun.ThreeLiveOnOneSeat`), which is the bound.
- *No live provider is ever uncounted.* Reconciling frees the slot of a live provider
  exactly when it judges one it cannot read, or whose identity was never recorded:
  `RunWorld.ReconcileFreesALiveSlotIffBlind`. The whole-run theorem excludes that
  judgement and nothing else.
- *Nobody else touches a supervised run.* `reconcile_run` observes the supervisor
  twice; the row is left alone exactly when the first look is not blind while the
  second is clear: `RunWorld.TwoLooksMustNotClear`.
- *At most one dispatcher serves.* `ensure_continuous_dispatcher` observes twice and
  releases a live holder exactly when its first look sees the holder and the second
  sees nothing; then two serve: `Dispatcher.EnsureReleasesALiveHolderIff`,
  `Dispatcher.DisagreeingLooksBreakExclusion`.
- *"Slots held by unrecovered runs" means sweeping would help.* Wrong exactly when every
  level has room or an occupied slot while active runs alone fill some level:
  `PlanLimits.LabelIsCounterfactualIff`, with an instance in `PlanLimits.LabelCanMislead`.
- *Rounds are the whole conversation.* For all message and character caps exactly when
  every turn has a uuid, none comes again past a later turn, and no gap between a
  restart and the next turn holds as many compact boundaries as the chunk cap:
  `Rounds.RoundsAreTheWholeIff`.
- *The ledger reads the verdict of a finished run.* Exactly when the last line of its
  event file fits the tail that `last_event` reads, or the verdict was neither success
  nor a cancel; a success whose line is longer is read as a failure:
  `SupervisedRun.LedgerReadsTheVerdictIff`.
- *The newest sealed entries stay in full.* Exactly when all sealed entries were in full
  before compaction fired, hence never once some are compact:
  `MetaGc.NewestStayFullIff`.
- *What is marked in the dream metadata is read back.* The parser holds an entry until
  the next one and drops what it holds when the section ends before the file does
  (skills/dream/meta.py:83-87), so it reads an entry exactly when no other section
  follows or another entry does: `MetaSection.EntryIsReadIff`. New entries are written
  last, so the mark of a new file is read exactly when no section follows:
  `MetaGc.NewMarkIsReadIff`.
- *`migrate` keeps the jobs.* Under unique job names, exactly when every block with a
  prompt that is no longer read from HEARTBEAT.md names, in the parser's reading, the
  project whose file it is in now (or, written outside jobs.d, named none):
  `MigrateKeeps.MigrateKeepsJobsIff`. Existing files in jobs.d do not matter. A write
  that raises, such as one into a missing directory, leaves HEARTBEAT.md as it was and
  the files written before it.
- *No job runs twice at a time.* Exactly when no job changes its group while its old
  group is still at work on it, and no two jobs of one name belong to different idle
  groups: `JobGroups.DispatchKeepsJobsApartIff`. The second happens, because names are
  made unique only among the files in jobs.d and against them
  (src/heartbeat/core.py:236-247): two blocks of HEARTBEAT.md with one name and two
  slugs are both kept, and both start (`JobGroups.OneNameInTwoProjectsStartsTwice`).
- *Groups of different projects never wait for each other.* So within a project, and
  between projects whose names have no slash (`JobGroups.SameKeyIff`); a project `p/g`
  shares the key of group `g` of project `p` (`JobGroups.SlashesMayShareAKey`).
- *A quota keeps its window.* Exactly when the clock never goes back
  (`Quota.QuotaHoldsIffClockGoesForward`). With one that goes back a bounded time the
  starts come closer by no more than a bound (`Quota.StartsAreSpaced`) that is reached
  for every quota (`Quota.SomeRunsAreHasty`).
- *Events are stored once.* A process that dies between appending a batch and saving
  its offset repeats the batch, unless it was empty:
  `EventLog.CrashedDrainRepeatsItsBatch`.

## Model

| member | source | states |
|---|---|---|
| EventLog.Watch | src/heartbeat/providers/process.py:392-416 | returns the complete events after a byte offset and where to resume |
| EventLog.WatchComposesOverAppends | src/heartbeat/providers/process.py:392-416 | reading a file, and after it grew reading on from the returned offset, delivers exactly what one read of the grown file delivers |
| EventLog.DrainExtendsPrefix | src/heartbeat/agent_dispatch.py:1355-1366 | one drain turns "stored are the events up to the offset" into the same for the new offset, never inside a line |
| EventLog.PrefixSurvivesAppend | src/heartbeat/providers/process.py:724-748 | appending to the file changes nothing that an offset already covered |
| EventLog.DrainMovesOnNewline | src/heartbeat/providers/process.py:392-416 | the offset moves exactly when a line was completed since |
| EventLog.ALineMoreIsAnEventMore | src/heartbeat/providers/process.py:407-414 | one more complete line adds its event, if it is not blank and decodes |
| EventLog.CrashedDrainRepeatsItsBatch | src/heartbeat/agent_dispatch.py:1355-1366 | dying between append and save stores the batch twice, exactly when it holds an event |
| EventLog.LastKindReadsTheNewestLine | src/heartbeat/providers/lifecycle.py:335-354 | the last complete line that is not blank is what the last-event reader sees, whatever came before it and however much of a line is incomplete after it, when it begins within the tail window |
| RunLedger.StartKeeps | src/heartbeat/agent_dispatch.py:769-907 | starting, with a crash between any two saves, keeps the row well formed, its lease conserved, its provider the process it spawned |
| RunLedger.ReconcileKeeps | src/heartbeat/agent_dispatch.py:1382-1510 | the same for reconciling, for any observations |
| RunLedger.RecoverKeeps | src/heartbeat/providers/lifecycle.py:281-325 | the same for judging a persisted handle |
| RunLedger.CleanUpKeeps | src/heartbeat/agent_dispatch.py:1608-1633 | the same for running the remaining steps of a dropped row |
| RunLedger.SweepKeeps | src/heartbeat/agent_dispatch.py:1546-1634 | the same for sweeping |
| RunLedger.CancelKeeps | src/heartbeat/agent_dispatch.py:1657-1672 | the same for cancelling, terminal rows included |
| RunLedger.StartConservesItsLeaseIff | src/heartbeat/agent_dispatch.py:834-842 | when the store does not return the saved lease, the start conserves it exactly when its release is answered 0 or 5 |
| RunLedger.ReconcileSlot | src/heartbeat/agent_dispatch.py:1382-1510 | for a live provider, reconciling keeps the slot exactly when it does not judge blind |
| RunLedger.SweepSlot | src/heartbeat/agent_dispatch.py:1586-1607 | a sweep never frees the slot of a live provider |
| RunLedger.CancelSlot | src/heartbeat/agent_dispatch.py:1317-1345 | a cancel frees the slot only of a provider it killed or saw gone |
| RunLedger.SweepAdoptsIff | src/heartbeat/agent_dispatch.py:1570-1607 | a sweep makes a row active exactly when recovery dropped it and its supervisor, or failing that its provider, was seen alive under the recorded identity; an untrusted view changes nothing |
| RunLedger.SweepFinishesIff | src/heartbeat/agent_dispatch.py:1608-1633 | a sweep finishes a row exactly when nobody is left to protect and an open release is given back; otherwise the slot is held |
| RunWorld.TakeKeepsInv | src/heartbeat/agent_dispatch.py:769-1672 | every step of every operation, and of the world, keeps handles, leases and stored events right |
| RunWorld.InvariantOverRuns | src/heartbeat/agent_dispatch.py:769-1672 | so does every sequence of steps |
| RunWorld.FinishedRunsGaveTheirLeaseBack | src/heartbeat/agent_dispatch.py:1488-1504 | over any run: a row with a recorded lease whose release was never answered 0 or 5 is active or recovery-required, and if it occupies its slot the release is still listed |
| RunWorld.EventsAreDrainedExactlyOnce | src/heartbeat/agent_dispatch.py:1464-1504 | over any run: stored events are the parsed complete lines of the file's first lastOffset bytes, in order, each once |
| RunWorld.ReconcileFreesALiveSlotIffBlind | src/heartbeat/providers/lifecycle.py:296-308 | in the world: reconciling frees a live provider's slot exactly when it judges blind |
| RunWorld.TakeKeepsSlots | src/heartbeat/agent_dispatch.py:351-383 | no step but a blind judgement leaves a live provider uncounted |
| RunWorld.LiveProvidersHoldSlots | src/heartbeat/agent_dispatch.py:351-383 | over any run without a blind judgement, every live provider's row is counted active or occupying |
| RunWorld.LiveSupervisorIsLeftAlone | src/heartbeat/agent_dispatch.py:1369-1406 | while the recorded supervisor is alive, another's reconcile changes nothing and a sweep at most restores a recovery-dropped row |
| RunWorld.OwnershipIsUndisturbed | src/heartbeat/agent_dispatch.py:1513-1586 | over any sequence of others' steps the offset, stored events, lease, provider and supervisor of the run stay what they were |
| RunWorld.TwoLooksMustNotClear | src/heartbeat/agent_dispatch.py:1391-1406 | with two observations of the supervisor, the row is left alone exactly when they do not go from blind to clear |
| RunWorld.DownForGood | src/heartbeat/agent_dispatch.py:1546-1634 | a row that is neither active nor dropped by recovery never becomes active again |
| RunWorld.CancelIsFinal | src/heartbeat/agent_dispatch.py:1657-1672 | after a cancel no sequence of steps returns the run to an active state |
| RunWorld.AdoptionIsJustified | src/heartbeat/agent_dispatch.py:1564-1607 | in the world: a sweep adopts exactly when recovery dropped the row and its own supervisor, or with no supervisor left its own provider, is really alive and readable |
| RunOutcomes.ReconcileReadsOn | src/heartbeat/agent_dispatch.py:1382-1466 | reconciling a running run reads its file to the last complete line, all of it then being stored, exactly when nobody else may be attending to it |
| RunOutcomes.SweepReadsOn | src/heartbeat/agent_dispatch.py:1608-1617 | a sweep that closes the events of a run with a provider has read its file to the last complete line |
| RunOutcomes.FinishedRunsAreWhole | src/heartbeat/agent_dispatch.py:1464-1504 | over any run: once reconciling has finished a run, and while its file does not grow, the event table holds every complete line of it, once and in order |
| RunOutcomes.ReconciledRunIs | src/heartbeat/agent_dispatch.py:1382-1510 | by what is seen of supervisor and provider: who may be attended is left alone, a provider that is gone ends the run as its last event says once the lease is back, one that is there leaves it running with its lease renewed, and anything else drops it; with the stage, the steps left and the supervisor recorded |
| RunOutcomes.ReconciledNewbornIs | src/heartbeat/agent_dispatch.py:1451-1462 | the same for a run without a provider |
| RunOutcomes.SweptRunIs | src/heartbeat/agent_dispatch.py:1564-1634 | a sweep finishes a run as its last event says exactly when nobody is left and an open release is given back; when it cannot, nothing but the release stays open; a run it may not touch is untouched |
| RunOutcomes.CancelledRunIs | src/heartbeat/agent_dispatch.py:1657-1672 | a cancel ends cancelled exactly when nothing of the run is left running and its lease is back, and otherwise keeps exactly the steps still open |
| RunOutcomes.StartedRunIs | src/heartbeat/agent_dispatch.py:769-907 | how far a start gets by its answers and its own life: lease recorded, process created, running |
| RunOutcomes.UnstartedRunIs | src/heartbeat/agent_dispatch.py:769-907 | how a start that lived ends without a provider, which stage it names and when it gave its lease back |
| RunOutcomes.LaunchedRunIs | src/heartbeat/agent_dispatch.py:910-990 | what a launch leaves: running exactly when every answer let it, waiting exactly when its worker died unnoticed, no row exactly when it never became an execution |
| RunOutcomes.SupervisedRunEndsAs | src/heartbeat/agent_dispatch.py:1487-1504 | reconciling a supervised run whose provider is gone makes it succeeded exactly when its lines and its exit make a success, cancelled exactly when it was cancelled, each if the verdict's line fits the tail, and failed otherwise |
| RunOutcomes.SupervisedRunIsWhole | src/heartbeat/agent_dispatch.py:1464-1466 | and the event table then holds exactly the events of its lines and its verdict |
| RunStages.StagesOverRuns | src/heartbeat/agent_dispatch.py:1382-1672 | over any run: a run that may still go on names no failure stage, one that failed or was dropped names one |
| RunStages.DroppedRunsComeBack | src/heartbeat/agent_dispatch.py:1535-1607 | a run that reconciling dropped unjudged is, when a later sweep sees its supervisor, or none and its provider, exactly the run it was |
| Slots.HoldingIsActivePlusOccupying | src/heartbeat/agent_dispatch.py:351-383 | no run is counted active and occupying at once |
| Slots.RemainingIff | src/heartbeat/agent_dispatch.py:367-383 | a slot remains in a scope exactly when fewer runs hold one than its limit |
| Dispatch.AgentStore.SaveRun | src/heartbeat/agent_store.py:718-742 | the row is stored under its id, nothing else changes |
| Dispatch.AgentStore.AppendEvents | src/heartbeat/agent_store.py:847-863 | the batch comes after what was stored; an empty one writes nothing |
| Dispatch.AgentStore.DropIntent | src/heartbeat/agent_store.py:601-611 | every entry of that id, and no other, is gone |
| Dispatch.AgentStore.ListRuns | src/heartbeat/agent_store.py:825-845 | exactly the selected runs, each once |
| Dispatch.DrainEvents | src/heartbeat/agent_dispatch.py:1355-1366 | appends what the file holds past the row's offset and moves the offset there |
| Dispatch.RecoverRow | src/heartbeat/agent_dispatch.py:1464-1510 | the store afterwards holds exactly the specified effect of judging the provider |
| Dispatch.ReconcileRun | src/heartbeat/agent_dispatch.py:1382-1510 | the same for one reconciliation, with the four observations it makes |
| Dispatch.SweepRow | src/heartbeat/agent_dispatch.py:1564-1634 | the same for one swept row, and whether it was adopted or finished |
| Dispatch.CleanUpRow | src/heartbeat/agent_dispatch.py:1608-1633 | the same for its cleanup steps |
| Dispatch.ApplyCancel | src/heartbeat/agent_dispatch.py:1657-1672 | the same for a cancel, with what it killed |
| Dispatch.StartRunRow | src/heartbeat/agent_dispatch.py:769-907 | the same for a start, up to the point where its process dies |
| Dispatch.ServeQueuedRun | src/heartbeat/agent_dispatch.py:931-990 | the queued row becomes what the worker, and the launcher that saw it die, make of it |
| Dispatch.QueueAndLaunch | src/heartbeat/agent_dispatch.py:910-947 | the answered row, and a ledger that keeps it unless it never became an execution |
| Dispatch.LaunchOutcomeOk | src/heartbeat/agent_dispatch.py:910-947 | a launch that does not count as started leaves no active row and no provider |
| LiveBound.MoveKeeps | src/heartbeat/agent_dispatch.py:1778-1850 | every step of the tick, and every step of anything else between two of them, keeps: what weighs and the turns the pass has left exceed the shared limits by at most two, and a role about to start is below its limit, each but for one more for every live provider that was judged blind |
| LiveBound.LiveProvidersStayNearLimits | src/heartbeat/agent_dispatch.py:1708-1851 | from an empty ledger, over any interleaving of the tick's own steps with everything else: live providers never exceed a role's limit, nor the device's or a project's by more than two, each but for one more for every live provider that was judged blind |
| LiveBound.CarefulTicksKeepTheLimits | src/heartbeat/agent_dispatch.py:1836-1850 | over the same interleavings no limit is exceeded but by one for every live provider judged blind, as long as no start uses up its intent on the last seat while roles are still to come and failed launches have no provider |
| LiveBound.EndlessIntentsKeepTheLimits | src/heartbeat/agent_dispatch.py:1836-1842 | in particular when intents have no execution limit and name no manual targets |
| TickRun.TurnIsMade | src/heartbeat/agent_dispatch.py:1786-1850 | a turn of the refill loop, launch, worker and tidying included, is a sequence of enabled steps that ends in the specified state |
| TickRun.RefillIsMade | src/heartbeat/agent_dispatch.py:1781-1850 | so is the whole refill loop |
| RunWorld.OnlyTheBlindUncount | src/heartbeat/providers/lifecycle.py:296-308 | a live provider that a step leaves uncounted was uncounted before, or was judged blind by that very step |
| TickRun.TickIsMade | src/heartbeat/agent_dispatch.py:1708-1851 | an undisturbed tick leaves exactly the ledger that the specified refill computes, ends no process, and every provider it started is alive |
| TickRun.TicksWithoutRiskKeepTheLimits | src/heartbeat/agent_dispatch.py:1708-1851 | over any run whose starts come from undisturbed ticks that are not at risk, live providers never exceed any limit but by one for every live provider that was judged blind |
| LiveOverrun.LiveLimitCanBeExceededIff | src/heartbeat/agent_dispatch.py:1781-1850 | from a world at rest within its limits whose counted runs all live: some numbering and answers of a tick's launches that this world can give, and steps after it that queue nothing, leave more live providers than the limit its seats come from, exactly when the tick is at risk |
| LiveOverrun.TwoMoreAreAlive | src/heartbeat/agent_dispatch.py:1836-1850 | one seat and three due roles, each with a seat of its own and what may be its last start: moves lead to exactly two live providers more than the limit |
| LiveOverrun.TwoLiveOnOneSeat | src/heartbeat/agent_dispatch.py:1836-1842 | from any empty ledger, one tick of two due roles can exceed a project limit of one |
| LiveOverrun.ThreeLiveOnOneSeat | src/heartbeat/agent_dispatch.py:1836-1842 | from any empty ledger, moves of one tick of three due roles lead to three live providers on a project of one and a device of one |
| RefillLoop.TryRoleKeeps | src/heartbeat/agent_dispatch.py:1786-1850 | one role's turn takes at most one seat, leaves other roles alone and never saves a dropped intent |
| RefillLoop.PassKeeps | src/heartbeat/agent_dispatch.py:1786-1850 | so does a pass; one that starts nothing empties the due list |
| RefillLoop.PassSpendsSeats | src/heartbeat/agent_dispatch.py:1786-1850 | every start costs a seat while there are any |
| RefillLoop.RefillGoesAllTheWay | src/heartbeat/agent_dispatch.py:1782-1850 | the loop ends with no seat left or no role due, and dropped intents are never saved again |
| RefillLoop.PassIsEven | src/heartbeat/agent_dispatch.py:1778-1786 | a full pass gives each role that stays due exactly one seat |
| RefillLoop.RefillIsFair | src/heartbeat/agent_dispatch.py:1778-1786 | two roles still due when the tick ends won seats that differ by at most one |
| RefillLoop.RefillRespectsRoleLimits | src/heartbeat/agent_dispatch.py:1791-1845 | no role gets more seats than it had left, counts move with starts and never pass the execution limit |
| Overrun.NoRiskNoOverrun | src/heartbeat/agent_dispatch.py:1786-1850 | without a role at risk a pass starts at most the seats there were |
| Overrun.PassStaysWithinItsSeatsIff | src/heartbeat/agent_dispatch.py:1836-1850 | for all answers of its launches, and for all that one world can give, a pass stays within its seats exactly when no open role that may use up its intent on the last seat comes before another open role |
| Overrun.MayGoOnUnlicensedIff | src/heartbeat/agent_dispatch.py:1836-1850 | some answer of a role's launch, or some that a world can give, lets the pass go on without a seat exactly when before the launch at most one seat was left and the start could be the intent's last |
| TickRisk.NoRiskNoTickOverrun | src/heartbeat/agent_dispatch.py:1781-1850 | a tick that is not at risk starts at most any budget that covers its seats |
| TickOverrun.TickStaysWithinItsSeatsIff | src/heartbeat/agent_dispatch.py:1781-1850 | for all answers of its launches, and for all that one world can give, a tick stays within the seats it first saw exactly when it is not at risk, which is computed before it |
| TickOverrun.TheSecondPassOverruns | src/heartbeat/agent_dispatch.py:1781-1842 | three seats, the first of two roles with two starts left: the first pass is not at risk, the tick can start four |
| Overrun.OverrunIsAtMostTwo | src/heartbeat/agent_dispatch.py:1782-1850 | any tick starts at most two more |
| TickOverrun.TwoMoreAreStarted | src/heartbeat/agent_dispatch.py:1836-1850 | one seat and three due roles, each with a seat of its own and what may be its last start: some answers that one world can give start all three |
| TickRisk.LastingIntentsStayWithinSeats | src/heartbeat/agent_dispatch.py:1836-1850 | a tick starts at most its seats when no due intent is manual and each has more starts left than its role has seats |
| Overrun.OneSeatTwoStarts | src/heartbeat/agent_dispatch.py:1836-1842 | one project seat, two due roles, the first with its last start: both start |
| DispatchTick.ReconcileProjectRuns | src/heartbeat/agent_dispatch.py:1513-1531 | every active run of the project is reconciled once unless its supervisor was seen alive; nothing else changes |
| DispatchTick.SweepDroppedRuns | src/heartbeat/agent_dispatch.py:1546-1634 | every occupying run of the project is swept once; nothing else changes |
| DispatchTick.CollectDue | src/heartbeat/agent_dispatch.py:1748-1768 | due are exactly the intents that can start something and whose time has come; stale ones are dropped, due ones rescheduled, waiting ones untouched |
| DispatchTick.SeatFiller.TryOne | src/heartbeat/agent_dispatch.py:1786-1850 | one turn of the loop is the specified turn |
| DispatchTick.SeatFiller.RunPass | src/heartbeat/agent_dispatch.py:1785-1850 | one pass is the specified pass |
| DispatchTick.SeatFiller.FillSeats | src/heartbeat/agent_dispatch.py:1781-1850 | the loop is the specified refill |
| DispatchTick.TickProject | src/heartbeat/agent_dispatch.py:1708-1851 | recover and sweep always, then collect and refill if the project may run |
| TickRecovery.TickSettlesItsRuns | src/heartbeat/agent_dispatch.py:1708-1746 | seeing one state of the processes, a tick keeps a running run of its project, ends it or leaves it its slot exactly as supervisor, provider and lease answers say; one it can judge neither way without a supervisor loses the slot; it touches no run of another project, none without a slot and none whose supervisor it saw first |
| Polling.TurnSettles | src/heartbeat/agent_dispatch.py:1786-1850 | a launched turn counts a start exactly when the run came to be, takes its target off the wish list, and forgets the intent exactly when that start spent it or the request was refused |
| Polling.DueRolesGetTheirTime | src/heartbeat/agent_dispatch.py:1763-1768 | a role that was due, and whose intent outlives the tick, is next due the poll interval after that tick |
| Polling.DueAgainIff | src/heartbeat/agent_dispatch.py:1755-1768 | and it is due again exactly when the interval has passed and it has something left to start |
| Polling.PollsAreApart | src/heartbeat/agent_dispatch.py:1748-1850 | over any number of ticks a role is never due twice within its interval |
| Plan.ValidateManualTargets | src/heartbeat/agent_dispatch.py:386-409 | accepts and answers as specified |
| Plan.AcceptedTargets | src/heartbeat/agent_dispatch.py:386-409 | exactly the well-formed free targets named, each once, and one reason for every other mention |
| Plan.BuildPlan | src/heartbeat/agent_dispatch.py:412-528 | the plans of all requests, each out of what the earlier ones left |
| PlanLimits.GrantFits | src/heartbeat/agent_dispatch.py:449-511 | a grant stays within request, role, budget, execution limit and usable targets, and needs every gate open; a short one has a reason |
| PlanLimits.GrantIsTheMost | src/heartbeat/agent_dispatch.py:449-511 | nothing larger stays within all of them |
| PlanLimits.PlansFitWhatRemains | src/heartbeat/agent_dispatch.py:429-528 | grants add up to at most the device's and the project's remaining slots, each within its role's |
| PlanOffers.UsableAreOffered | src/heartbeat/agent_dispatch.py:474-484 | a plan's targets are exactly those named, well formed, free and eligible, each once, in the order of first mention |
| PlanOffers.PlansAreRight | src/heartbeat/agent_dispatch.py:412-528 | every plan offers exactly those targets, grants the most that request, gates, limits and the plans before it leave, and gives every reason that holds and no other; dropped runs are blamed exactly when one start more could fit without them |
| PlanOffers.PlanGivesReasons | src/heartbeat/agent_dispatch.py:443-514 | the reasons of one plan, each given exactly when it holds |
| PlanLimits.LabelIsCounterfactualIff | src/heartbeat/agent_dispatch.py:433-521 | the label for slots held by unrecovered runs is right, in both directions, exactly outside the stated family of ledgers |
| PlanLimits.LabelIsRightWithinLimits | src/heartbeat/agent_dispatch.py:512-521 | without over-commitment it is always right |
| PlanLimits.LabelCanMislead | src/heartbeat/agent_dispatch.py:512-521 | one active and one occupying run on a project of one: it promises what sweeping cannot give |
| ConfirmedStart.OwnersNeverChange | src/heartbeat/agent_store.py:718-742 | over any run of the ledger an id keeps its project and role |
| ConfirmedStart.EqualRevisionsCountTheSame | src/heartbeat/agent_dispatch.py:331-348 | equal revisions mean equal active and occupying runs in every scope |
| ConfirmedStart.EqualRevisionsPlanTheSame | src/heartbeat/agent_dispatch.py:331-348 | and the same plan for the same answers |
| ConfirmedStart.StartFromPlan | src/heartbeat/agent_cli.py:286-328 | refuses a missing, expired or outdated plan and otherwise starts each role until its grant is used or a start fails |
| ConfirmedStart.StartRoleHoldsItsGrant | src/heartbeat/agent_cli.py:302-322 | starting one role takes at most its grant in any scope, failed starts included |
| ConfirmedStart.ConfirmedStartKeepsLimits | src/heartbeat/agent_cli.py:286-323 | confirming a plan, whatever configuration it was made for, never takes the held slots of a scope above the larger of its limit and what was held before |
| ConfirmedStart.ConfirmAnswers | src/heartbeat/agent_cli.py:286-328 | refused exactly for a plan that is missing, has expired, or was made before anything moved; otherwise a success exactly when no start failed |
| ConfirmedStart.StartRoleTakesInTurn | src/heartbeat/agent_cli.py:297-323 | one role is launched up to its grant, each launch offered the targets that those before it did not take; the first that comes to nothing ends it, noted as waiting when idle and as failed when not |
| ConfirmedStart.NoTargetIsTakenTwice | src/heartbeat/agent_cli.py:298-312 | so no target is taken twice |
| ConfirmedStart.ConfirmedStartsInTurn | src/heartbeat/agent_cli.py:294-328 | a confirmed plan does this for its roles in turn |
| Dispatcher.DispatcherTable.Claim | src/heartbeat/agent_store.py:679-698 | inserts unless there is a row, and says whose row it is |
| Dispatcher.DispatcherTable.Release | src/heartbeat/agent_store.py:700-716 | deletes only the observed row |
| Dispatcher.DispatcherTable.ClaimProcess | src/heartbeat/agent_dispatch.py:1011-1032 | claims exactly when the row is free, its own, or its holder is seen not to be there; otherwise changes nothing |
| Dispatcher.MoveKeepsInv | src/heartbeat/agent_dispatch.py:1011-1111 | every atomic step of any process keeps: serving means the row is mine, and who is about to be released is dead |
| Dispatcher.AtMostOneServes | src/heartbeat/agent_dispatch.py:1249-1298 | in every interleaving, with crashes, reused and unreadable pids, at most one live process serves and the row names it |
| Dispatcher.EnsureReleasesALiveHolderIff | src/heartbeat/agent_dispatch.py:1057-1067 | the second look releases a live holder exactly when the two looks disagree |
| Dispatcher.DisagreeingLooksBreakExclusion | src/heartbeat/agent_dispatch.py:1057-1067 | and from any serving state that leads to two serving processes |
| Dispatcher.SoloClaimServesIff | src/heartbeat/agent_dispatch.py:1011-1032 | an undisturbed claimer serves exactly when the row is empty or its holder is dead and the pid readable |
| Dispatcher.SoloEnsureIff | src/heartbeat/agent_dispatch.py:1057-1078 | an undisturbed ensure ends no process and frees the row exactly of a holder that is dead and whose pid is readable |
| Dispatcher.SoloStopIff | src/heartbeat/agent_dispatch.py:1080-1111 | an undisturbed stop ends exactly the holder, exactly when it lives and can be read and stopped, and frees the row exactly when the pid could be read |
| Dispatcher.ServersFreeTheirRow | src/heartbeat/agent_dispatch.py:1290-1298 | who serves and leaves has freed the row |
| SupervisedRun.Supervised.Consume | src/heartbeat/providers/process.py:682-709 | one line is folded into the stream as specified, and the file stays the encoding of the events |
| SupervisedRun.Supervised.Supervise | src/heartbeat/providers/process.py:632-680 | all lines are folded, the verdict reached and the terminal event written unless it is there |
| SupervisedRun.StreamTells | src/heartbeat/providers/process.py:682-709 | the events are the start and then one for each thing the recognized lines say, in order, redacted; the status observed is the last one told; the complaint kept is the first |
| SupervisedRun.VerdictIs | src/heartbeat/providers/process.py:632-665 | by lines and exit: success exactly when the process ended by itself with code 0, the last status told is no failure and no limit, and something was recognized or nothing unknown came; and so for every other verdict, its kind and its text |
| SupervisedRun.ClosedAdds | src/heartbeat/providers/process.py:667-668 | the terminal event is added last, and only if the last event is not of its kind already |
| EventLog.LastKindReadsACutLine | src/heartbeat/providers/lifecycle.py:335-354 | of a line longer than the tail window only its end is decoded |
| SupervisedRun.LedgerReadsTheVerdictIff | src/heartbeat/agent_dispatch.py:88-93 | the ledger reads success or cancelled exactly for those verdicts whose line fits the tail window, so it is right exactly when the line fits or the verdict was neither |
| SupervisedRun.WatchingReturnsTheRun | src/heartbeat/providers/process.py:392-416 | watching the file of a run returns exactly the run's events, each once and in order |
| SupervisedRun.NoiseChangesTheVerdictIff | src/heartbeat/providers/process.py:585-588 | unknown lines change the status exactly when no line is known, some came on standard output and the process ended well; otherwise neither status nor any event kind changes |
| Transcript.ExtractConversation | skills/dream/extract.py:206-226 | all turns in order |
| Transcript.OneLineMore | skills/dream/extract.py:206-226 | one line more adds its turn at the end, if it is one, and nothing else |
| Transcript.ComputeRoundWindow | skills/dream/window.py:180-276 | start after the last line the cursor names, refuse a missing cursor unless reset is allowed |
| Transcript.ExtractPartialConversation | skills/dream/extract.py:24-109 | one bounded round of the file as it was when the window was taken, whatever was added since |
| Transcript.BoundaryIsTurnIff | skills/dream/window.py:227-236 | a compact boundary is a turn exactly when its text opens with no angle bracket |
| Transcript.BoundaryIsMarkedIff | skills/dream/window.py:236-240 | a compact boundary is a user's text with the whole marker within its first 200 characters |
| Transcript.UserSays | skills/dream/extract.py:129-136 | plain text is a turn only of a user's: what is between the surrounding space, if longer than two characters and not opening with an angle bracket |
| Transcript.OneBlockSays | skills/dream/extract.py:138-163 | what one block of an assistant's says: a text itself, a tool its name in brackets, anything else nothing |
| Transcript.BlocksSayInOrder | skills/dream/extract.py:143-163 | two texts are said one after the other, a text silences tools, two tools are one turn naming both |
| Rounds.RoundReadsPastItsCursor | skills/dream/window.py:258-276 | without reset a round is refused exactly when no line has its cursor's uuid, and otherwise reads turns in order from the line after the last that has it |
| RoundCaps.RoundStarts | skills/dream/window.py:242-274 | a round is refused exactly when its cursor names no user or assistant line and starting over is not allowed, and starts after the last line named, or at the beginning |
| RoundCaps.RoundIs | skills/dream/extract.py:56-99 | it reads to the first line at which a cap is reached, or to the end; turns, characters, boundaries, the cap named and the uuid left are those of what it read |
| RoundCaps.RoundIsBounded | skills/dream/extract.py:63-97 | so it has at most the capped number of turns, all but the last below the capped characters, and leaves turns unread only with a cap reached, which it names |
| Rounds.ScanReads | skills/dream/extract.py:56-92 | a round reads a stretch of turns and leaves the uuid of the last, if that has one |
| Rounds.ScanReadsSomethingIff | skills/dream/extract.py:63-68 | it reads anything exactly when a turn is left and the chunk cap leaves room to reach it |
| Rounds.RoundsAreTheWholeIff | skills/dream/extract.py:24-109 | for all message and character caps the rounds are the whole conversation, in at most as many rounds as turns, exactly when every turn has a uuid, none comes again past a later turn, and the chunk cap leaves room to every next turn |
| Rounds.TidyTranscriptsReadThrough | skills/dream/extract.py:19-22 | distinct uuids and boundaries that are turns suffice from a chunk cap of two on |
| Rounds.OneChunkStopsAtABoundary | skills/dream/extract.py:63-68 | with a chunk cap of one a leading boundary is never passed |
| DreamMeta.ParseMetaV2 | skills/dream/meta.py:55-117 | the table the parser's state machine ends with |
| DreamMeta.MarkLines | skills/dream/meta.py:156-219 | the file's lines after marking |
| DreamMeta.GcCompactOldSealed | skills/dream/meta.py:242-307 | the file's lines after splicing from the last entry to the first |
| DreamMeta.MarkProcessed | skills/dream/meta.py:156-239 | the whole read, change and write, on the file's text |
| DreamMeta.NewLinesRead | skills/dream/meta.py:192-196 | the three lines written for an entry read back as that entry |
| DreamMeta.FileLineReads | skills/dream/meta.py:93-99 | an entry's line reads as that entry however it is indented and spaced, and stays in the section exactly when it opens with a space, a tab or a dash |
| DreamMeta.UuidLineReads | skills/dream/meta.py:105-106 | the same for the line of its uuid |
| DreamMeta.StatusLineReads | skills/dream/meta.py:107-108 | the same for the line of its status |
| MetaSection.ParseReadsTheTable | skills/dream/meta.py:55-117 | of a well-formed section the parser reads exactly the entries, all but the last when another section follows |
| MetaSection.EntryIsReadIff | skills/dream/meta.py:83-87 | an entry is read exactly when no section follows or another entry does |
| MetaSection.MarkChangesItems | skills/dream/meta.py:156-213 | marking replaces or appends one entry and touches nothing around the section |
| MetaSection.MarkUpdatesOne | skills/dream/meta.py:192-209 | exactly the marked file's parsed entry changes |
| MetaSection.MarkKeepsItems | skills/dream/meta.py:156-213 | names, their order and well-formedness survive |
| MetaGc.ReverseSplicing | skills/dream/meta.py:304-305 | cutting from the last to the first by line numbers taken before is cutting one by one |
| MetaGc.GcChangesItems | skills/dream/meta.py:242-307 | compaction cuts exactly the first (total - keep) full sealed entries to one line |
| MetaGc.CompactingKeeps | skills/dream/meta.py:242-307 | names, order, statuses and active entries survive; only a sealed uuid may go |
| MetaGc.GcBoundsFullEntries | skills/dream/meta.py:292-302 | full sealed entries stay within the threshold, and within keep whenever it fired, with their exact number |
| MetaGc.NewestStayFullIff | skills/dream/meta.py:297-302 | the newest keep stay in full exactly when all were before |
| MetaGc.AnyMarksAreKept | skills/dream/meta.py:136-239 | over any sequence of marks the parser sees for every file its last mark, sealed ones possibly without uuid, but for the file that came in last when another section follows |
| MetaGc.MarksAreWritten | skills/dream/meta.py:136-239 | over any sequence of marks the file stays well formed, what is around the section stays, and its entries are all the files marked, in the order they came in, each with its last mark |
| MetaGc.NewMarkIsReadIff | skills/dream/meta.py:201-210 | the mark of a file that was not there yet is read back exactly when no other section follows |
| MetaGc.FirstMarkOpensTheSection | skills/dream/meta.py:211-214 | a mark in a text without the section opens one at the end, which holds that mark alone |
| MetaGc.ActiveEntriesKeepTheirCursor | skills/dream/meta.py:249-254 | an active entry always keeps its uuid, and is read unless it came in last with another section following |
| JobText.ParseJobsText | src/heartbeat/core.py:252-315 | tick and jobs as the grammar says |
| JobText.ParseHeartbeat | src/heartbeat/core.py:206-249 | jobs.d in order first, first of a name wins, then the rest, live ones only |
| JobMeaning.LineMeansIff | src/heartbeat/core.py:258-281 | but for surrounding space, a line opens a job exactly when it is two number signs, a space and the name, sets a key exactly when it is a dash, a space, the key in any case, a colon and the value, cut at the first colon, and says nothing otherwise |
| JobMeaning.TextDescribes | src/heartbeat/core.py:252-315 | a text defines one job for each heading, each field as the last setting of its own key under it says or else as by default, and the tick the last setting before any heading says |
| JobMeaning.HeartbeatDescribes | src/heartbeat/core.py:206-249 | the jobs read are those of jobs.d, each under its file's project, the first of a name, and those of HEARTBEAT.md with other names, all with a project and a prompt |
| Migrate.HeartbeatHome.Migrate | src/heartbeat/cli.py:172-237 | the files after migrating, and after a write that raised |
| Migrate.CutBlocks | src/heartbeat/cli.py:173-181 | preamble and blocks as specified |
| MigrateGrammar.FirstSlugCounts | src/heartbeat/cli.py:187-192 | a block belongs to the project its first slug line names, in any case of the key, or to none |
| MigrateGrammar.OneBlockMore | src/heartbeat/cli.py:194-203 | projects are taken in the order they first come up |
| MigrateGrammar.CommentIff | src/heartbeat/cli.py:183-185 | a comment is a line that, stripped, opens and ends as an HTML comment |
| MigrateGrammar.BeforeIff | src/heartbeat/core.py:218 | file names are ordered by their first difference |
| MigrateGrammar.WritingKeepsOrder | src/heartbeat/core.py:218 | writing files leaves jobs.d in the sorted order it is read in |
| MigrateLines.StripKeepsLines | src/heartbeat/cli.py:217-226 | stripping a text keeps its lines, blank ones aside |
| MigrateLines.CutIs | src/heartbeat/cli.py:173-181 | cutting into preamble and blocks loses no line |
| MigrateLines.BodyIs | src/heartbeat/cli.py:217 | a moved file holds its blocks' lines, in their order |
| MigrateLines.BodiesStandApart | src/heartbeat/cli.py:217 | with one empty line between blocks |
| MigrateLines.NewMainIs | src/heartbeat/cli.py:226-228 | the new HEARTBEAT.md holds the lines of its preamble, the comments of the blocks taken out and the lines of the kept blocks, in this order, or one line when there are none |
| MigrateLines.KeptStandApart | src/heartbeat/cli.py:226-228 | with one empty line before a kept block, unless nothing came before or it is blank |
| MigrateTotals.MigrateKeepsLines | src/heartbeat/cli.py:157-237 | every line that is not blank is there as often as before, in HEARTBEAT.md, in jobs.d or in a file written elsewhere; only an emptied HEARTBEAT.md gains one, and after a write that raised the files written before it repeat theirs |
| MigrateTotals.FilesWritten | src/heartbeat/cli.py:204-220 | migrating adds to jobs.d exactly one file for each project that is a file name, had none and comes before the first write that raises, with the text of its blocks, and changes none |
| MigrateMeaning.StripKeepsMeanings | src/heartbeat/cli.py:217-226 | stripping a text keeps what its lines say |
| MigrateMeaning.BodySays | src/heartbeat/cli.py:217 | a moved file says what its blocks said |
| MigrateMeaning.NewMainSays | src/heartbeat/cli.py:226-228 | the new HEARTBEAT.md says what its preamble and kept blocks said |
| MigrateMeaning.CutSays | src/heartbeat/cli.py:173-181 | cutting into preamble and blocks loses nothing |
| MigrateJobs.TextDefines | src/heartbeat/core.py:252-315 | a text of preamble and blocks defines exactly the blocks' jobs and the preamble's tick |
| MigrateJobs.OneSlugLineAgrees | src/heartbeat/cli.py:187-192 | with at most one slug setting, the parser and migrate name the same project |
| MigrateKeeps.InsertedFileAdds | src/heartbeat/core.py:218-243 | a file with new job names adds exactly its jobs wherever it is sorted in |
| MigrateKeeps.GroupsWritten | src/heartbeat/cli.py:204-220 | up to the first write that raises, jobs.d gains exactly the jobs of the projects without a file yet |
| MigrateKeeps.GroupsEnd | src/heartbeat/cli.py:204-220 | writing ends early exactly when a write raises, and otherwise keeps exactly the blocks of the projects whose file exists |
| MigrateKeeps.MigrateKeepsJobsIff | src/heartbeat/cli.py:157-237 | under unique names the tick stays, and the jobs stay exactly when every block that leaves HEARTBEAT.md is preserved, whether a write raised or not |
| MigrateKeeps.MigrateKeepsJobs | src/heartbeat/cli.py:157-237 | one slug line per block and slugs that are file names suffice, whatever cannot be written |
| MigrateKeeps.RaisingAtOnceKeepsJobs | src/heartbeat/cli.py:204-220 | when the first write raises, every job stays as it was |
| Quota.JobState.QuotaExceeded | src/heartbeat/core.py:425-436 | forgets what left the window and counts the rest |
| Quota.JobState.RecordRun | src/heartbeat/core.py:439-446 | appends and keeps the last twice-count entries |
| Quota.JobState.RunJob | src/heartbeat/core.py:461-528 | starts exactly when not exceeded at the check, recording at the start |
| Quota.ExceededIffWindowIsFull | src/heartbeat/core.py:425-436 | a check refuses exactly when the window holds count of all starts ever made |
| Quota.ListRemembers | src/heartbeat/core.py:425-446 | over any serial runs with a forward clock the list holds the latest starts, at most count of them, and what it has forgotten had left the window |
| Quota.StartsAreSpaced | src/heartbeat/core.py:425-446 | over any serial runs whose clock goes back at most a given time, start k + count comes at least a window after start k, less that time for a quota of one, and less at most twice that for a larger one |
| Quota.SomeRunsAreHasty | src/heartbeat/core.py:425-446 | for every quota and every such time some runs bring two starts exactly that close |
| Quota.QuotaHoldsIffClockGoesForward | src/heartbeat/core.py:425-446 | whatever the runs, starts k and k + count are a window apart, exactly when the clock never goes back |
| JobGroups.GroupRunner.DispatchDueGroups | src/heartbeat/core.py:632-668 | idle groups start with their jobs, groups at work are passed over |
| JobGroups.DispatchStartsGroups | src/heartbeat/core.py:645-667 | a group at work goes on with what it has, any other that is named starts with its jobs in their order, and no other group is at work |
| JobGroups.SameKeyIff | src/heartbeat/core.py:646-649 | jobs share a group exactly when they are of one project and name one group, or both none, within a project and between projects without a slash in their name |
| JobGroups.SlashesMayShareAKey | src/heartbeat/core.py:646-649 | a slash in a project's name can make its group another project's |
| JobGroups.DispatchKeepsJobsApartIff | src/heartbeat/core.py:632-668 | no job is with two groups after a dispatch exactly when none changed its group while at work and no two jobs of one name have different idle groups |
| JobGroups.OneNameInTwoProjectsStartsTwice | src/heartbeat/core.py:206-249 | two blocks of HEARTBEAT.md with one name and two slugs are both read, and both groups start the job |
| JobGroups.JobsRunOneAtATime | src/heartbeat/core.py:623-668 | while jobs stay in their groups, none ever runs twice at a time |

## Left out

- RunWorld.LiveProvidersHoldSlots: excludes runs in which a reconciliation judges a provider it cannot read or whose identity was never recorded; `RunWorld.ReconcileFreesALiveSlotIffBlind` shows that exactly those break it.
- RunWorld.TakeKeepsInv: a step's saves, appends and helper calls are one atomic step; interleavings within one operation of two processes are not modelled, because `save_run` is last-writer-wins. What a crash between append and save does is in `EventLog.CrashedDrainRepeatsItsBatch`.
- RunWorld.InvariantOverRuns: a start reads back the lease it has just saved; what happens when the store does not return it is in `RunLedger.StartConservesItsLeaseIff`.
- LiveBound.LiveProvidersStayNearLimits: one tick at a time, as the dispatcher singleton has it; runs started by confirming a plan are in `ConfirmedStart` and are not mixed in.
- TickRun.TicksWithoutRiskKeepTheLimits: a tick is disturbed by nothing but its own launches; ticks among other steps are in `LiveBound.CarefulTicksKeepTheLimits`.
- LiveOverrun.LiveLimitCanBeExceededIff: of worlds in which every counted run has a live provider; where one is dead, more starts than seats need not be more live providers than the limit.
- RefillLoop.RefillIsFair: the order of the due intents is a parameter; sorting by last assignment is not modelled.
- DispatchTick.CollectDue: the order in which the table lists intents is a parameter, and timestamps are numbers.
- Dispatch.QueueAndLaunch: worker and launcher are one call, so a row that others move while the launcher polls is not covered there; `LiveBound` lets anything happen between a launch and its answer. The launcher's reconciliation of other rows while it waits is a step of its own in `RunWorld`. In-process starts (`start_one_run`) take the same path without the worker.
- SupervisedRun.LedgerReadsTheVerdictIff: a cut line decodes to nothing; one cut within a multi-byte character makes `last_event` raise instead.
- Dispatcher.AtMostOneServes: the two observations of `ensure_continuous_dispatcher` are taken to agree; the exact failure is proved beside it. Every claimer has an identity, as `serve_continuous_intents` demands.
- DreamMeta.MarkProcessed: starts from an existing file, under the lock, with names and values of one line without surrounding space.
- MetaGc.AnyMarksAreKept: of files with at most one `processed_v2` header, whose section holds entries, blank and indented lines and is followed by no stray sub-line of an entry; combining it with the older list of processed names is left out.
- Migrate.HeartbeatHome.Migrate: which targets exist outside jobs.d and which cannot be written are given; a slug with a slash that leads back into jobs.d, like `./x`, counts as outside.
- MigrateTotals.MigrateKeepsLines: lines are compared without the space around them, and the texts of files outside jobs.d are not kept; what was in them before a write is not modelled.
- MigrateKeeps.MigrateKeepsJobsIff: the backup copy, dry runs and printed messages are not modelled; slugs that only a case-insensitive file system identifies are distinct.
- JobText.ParseJobsText: key names are lowered in ASCII; interval and quota values are read by functions left open.
- Quota.StartsAreSpaced: a fixed `max_per` and serial runs, which `JobGroups.JobsRunOneAtATime` gives while jobs keep their groups.
- `prune_history` deleting an old occupying row, and `run.retry`, which looks at no limit.
- Reasons, notes, timestamps and error records stored beside a row.
- The model fallback at start, consent records, configuration validation and request envelopes.
- Event lines are separated by newlines only; `splitlines` knows further separators. JSON decoding, provider line formats and redaction are functions left open.
- Code block compression, tool-call merging and the markdown of a conversation.
- Services, updates, installation, diagnostics and everything done through git, pip, launchd, systemd or schtasks.
