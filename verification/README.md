# Syroce PMS: a verified model of its delicate protocols

This project models the parts of the Syroce hotel system where a mistake is costly and hard to see, and
proves that they do what they are for:

- **Police notifications** (`EgmTransport`, `PoliceAgent`, `PoliceControl`, `PoliceSwitch`, `KbsQueue`,
  `KbsSystem`, `KbsSafety`, `KbsLeases`, `KbsSane`, `KbsGrants`, `KbsCompletion`, `KbsHandBacks`, `KbsDoubles`,
  `KbsTakeover`, `KbsRefusals`, `KbsCounterexamples`, `FeedSweep`, `CursorSweep`). The browser worker is a
  state machine with one step per `await`: its runs, its revision counter and its serial command chain. The
  queue handlers of the server are the compare-and-sets they perform. Any number of workers, the network and
  the authority are put together in one system, in which requests and answers are lost, delayed and overtaken
  and workers die.
- **Release image retention** (`ImagePlan`, `ImagePlanner`, `RetentionStability`, `RetentionGuarantees`,
  `RetentionInventory`, `RetentionExample`, `ImageRetention`). The planner as a specification and as the
  program's loops, and the deletion loop on a host that anybody may change between two operations.
- **Beat dispatch, event sweep, alerts and archival** (`DailyDispatch`, `IsoTime`, `FolioSweep`,
  `AlertSuppression`, `AuditArchive`, `BookingArchive`). Every database operation is one step.
- **Rate limiter and metrics** (`RateLimits`, `SlidingWindow`, `Tallies`, `Metrics`).
- **Tenant cache** (`TtlStore`, `HitWindows`, `GlobPatterns`, `TenantCache`).

Where the source updates state in place the model has a class whose methods are proved against a
specification function; the protocols are proved about those functions, over every run and every
interleaving. Where a promise of the source is false in general, a lemma gives the failing run and another
one the condition under which the promise holds; where the condition is not exact, "Left out" says so.

Things that come from outside are parameters: the replies of the network, the answers of the authority
and of the alert channels, the clock, the listing order of the database, the local-day function of a time
zone, the point at which a process dies, and what other processes do to the Docker host.

## Main results

- Police notifications: `KbsSafety.AtMostOnce`, `KbsSafety.AppliedIsNeverQueuedAgain`,
  `KbsTakeover.CommitIsSafeIffNotReckless`, `KbsLeases.PromptHandlersSendOnce`,
  `PoliceControl.StaleRunIsInert`, `PoliceControl.StaleRunNeverWritesIffNotInSend`,
  `PoliceControl.StopIsFinalUnlessARunSlippedIn`, `PoliceControl.RunsNeverOverlap`,
  `KbsRefusals.DenialIsSafeIffNotHeld`, `KbsCompletion.GrantIsCompleted`, `KbsCompletion.CompletionIsFinal`,
  `KbsQueue.DoneIffReported`, `KbsQueue.GrantsAreBounded`, `PoliceSwitch.LoginSwitchesOff`,
  `FeedSweep.QueuedRowIsTried`, `CursorSweep.RunSweeps`.
- Image retention: `ImagePlanner.BuildPlan`, `ImageRetention.StableRun`, `ImageRetention.Host.Retain`,
  `RetentionGuarantees.TargetsExactly`, `RetentionGuarantees.RollbackSetIsFull`,
  `RetentionGuarantees.HistoryIsLastThree`, `RetentionInventory.AcceptsExactly`,
  `RetentionInventory.RollbackIsNewest`.
- Beat work: `DailyDispatch.NightAuditOnceADay`, `DailyDispatch.IndexedDispatchOnceADay`,
  `DailyDispatch.SafeIffTame`, `DailyDispatch.UnindexedIsSafeIffSettled`, `DailyDispatch.EveryDayIsWon`,
  `IsoTime.IsoOrderIsTimeOrder`, `FolioSweep.UnpublishedIsSelected`, `FolioSweep.SafeIffLoud`,
  `FolioSweep.Sweeper.Run`, `AlertSuppression.AlertsAreTold`, `AlertSuppression.StreakIsQuiet`,
  `AuditArchive.MoveConservesIffAgree`, `AuditArchive.ResumedMoveEndsTheSame`,
  `BookingArchive.BatchCompletes`, `BookingArchive.QueryWithArchive`.
- Limiter, metrics and cache: `SlidingWindow.Replay`, `SlidingWindow.NoMinuteOverspent`,
  `Metrics.StatsAddUp`, `Metrics.GetSummary`, `TtlStore.Store.Get`, `TtlStore.BoundedIffNeverOverflows`,
  `HitWindows.CountsGoOnIffNeverEvicted`, `HitWindows.HitWindow`, `GlobPatterns.Isolation`,
  `GlobPatterns.AcceptedIffGenerated`, `TenantCache.CacheManager.InvalidateTenantCache`.

The other members below are the operations these speak of and the steps to them.

## Model

| member | source | states |
|---|---|---|
| `EgmTransport.EgmRequest` | extension/background.js:359-406 | a lookup never leaves a delivery uncertain, and a write is fulfilled only by a non-HTML answer that confirms it |
| `EgmTransport.DefiniteRejectionIsExplicitRefusal` | extension/background.js:359-406 | a write is reported as definitely rejected if and only if the authority refused it in so many words |
| `EgmTransport.LostReplyIsUncertain` | extension/background.js:373-403 | a lost reply, or a body lost to an abort or a network error, leaves the write uncertain |
| `EgmTransport.SucceedsExactly` | extension/background.js:359-406 | exactly which answers a lookup and a write succeed on, and which mean that a login is missing |
| `PoliceControl.AfterKeeps` | extension/police-agent.js:80-213 | every event of a worker instance keeps its invariant: one working run, saves in the chain belong to waiting runs, revisions never lie ahead |
| `PoliceControl.RunsNeverOverlap` | extension/police-agent.js:80-84 | from any start and over any events, at most one run of an instance is under way, so at most one send is in flight |
| `PoliceControl.StaleRunIsInert` | extension/police-agent.js:38-40 | a run that captured an older revision never enters `send` again, never changes the stored record and never clears the alarm, over every sequence of events until it ends |
| `PoliceControl.StaleRunWritesAtMost` | extension/police-agent.js:114-120 | over every sequence of events until it ends a stale run issues no write, or one if it was inside `send` already |
| `PoliceControl.StaleRunNeverWritesIffNotInSend` | extension/police-agent.js:114-120 | a stale run issues no write to the authority, whatever happens until it ends, if and only if it is not inside `send` already |
| `PoliceControl.StaleEntryIsReachable` | extension/police-agent.js:114-120 | a run inside `send` can become stale: events from a fresh instance that lead there |
| `PoliceControl.CursorMoves` | extension/police-agent.js:97-153 | one await at a time: exactly which answers finish a row, and the cursor moves to a row exactly then and to the start exactly on an empty page |
| `PoliceControl.AsksExactly` | extension/police-agent.js:100-146 | when a run holds a row, enters `send`, writes, reports acceptance or gives the row up, each with an if and only if, and a given-up row is reported as in doubt exactly when the authority may have taken it |
| `PoliceControl.CountsMove` | extension/police-agent.js:126-144 | exactly which answers count as sent and as failed |
| `PoliceSwitch.PausesExactly` | extension/police-agent.js:70-75 | a run hands in a disabled record exactly on a refused login, test mode, a server-managed queue, a profile of another mode, or after the report that follows a refused login |
| `PoliceSwitch.GivingUpSwitchesOff` | extension/police-agent.js:70-74 | from every instance with an empty chain such an answer to a run with the current revision ends with the record disabled and the alarm cleared, if no other command comes between |
| `PoliceSwitch.LoginSwitchesOff` | extension/police-agent.js:136-144 | a write or a lookup that meets the authority's login page is reported to the queue, and then the sender is off |
| `PoliceSwitch.FatalReceiptSwitchesOff` | extension/police-agent.js:127-132 | so it is after an accepted write whose receipt meets a refused login; the row is reported as in doubt first |
| `PoliceSwitch.PauseEnds` | extension/police-agent.js:141-154 | a paused run ends, or hands its record in once more if it paused inside the loop |
| `PoliceSwitch.StartsExactly` | extension/police-agent.js:169-193 | what an undisturbed start does: with consent, for nobody else's sender and in a valid context a new revision, a fresh record and the alarm; without the alarm a disabled record; else nothing |
| `PoliceSwitch.RestoresExactly` | extension/police-agent.js:201-213 | what an undisturbed restore does to an enabled and to any other sender |
| `PoliceSwitch.StopsExactly` | extension/police-agent.js:194-200 | what an undisturbed stop does |
| `CursorSweep.RunSweeps` | extension/police-agent.js:97-153 | along any events of an instance, a run whose transport works and that nobody stops has at all times the cursor of the sweep after the rows it tried, and ends only after its page or at its time limit |
| `PoliceControl.ColdStaysDown` | extension/police-agent.js:194-200 | a switched-off instance that no run and no waiting command can switch on again, or only behind a stop, stays off over every sequence of events without a start |
| `PoliceControl.StopIsFinalUnlessARunSlippedIn` | extension/police-agent.js:194-200 | a switched-off sender, with any commands but a start still waiting, stays off and sends nothing, whatever but a start follows, if and only if neither a working run with the current revision nor an enabled record that such a run has left in the chain gets ahead of a stop |
| `PoliceControl.ARunCanSlipIn` | extension/police-agent.js:83-86 | such a run exists: it starts between the stop's revision change and its write |
| `PoliceControl.AServedStopCanBeUndone` | extension/police-agent.js:38-40 | and so does such a record: events from a fresh instance after which the stop is served, no run could revive the sender, and the next step of the chain does |
| `KbsQueue.BackoffDoubles` | backend/routers/kbs.py:701-704 | the retry delay is a minute doubled with every attempt, capped at an hour |
| `KbsQueue.LeaseExcludes` | backend/routers/kbs.py:1267-1447 | while a lease runs no claim, expiry, other worker's report or operator moves the job |
| `KbsQueue.RetryWaits` | backend/routers/kbs.py:1680-1787 | after a definite failure with an attempt left, whatever is asked before the delay is over changes nothing, and from then on anybody is handed the job for 300 seconds |
| `KbsQueue.OperatorRetriesIffKnown` | backend/routers/kbs.py:1866-1935 | a failure that is not retried, a claim without its data and a claim without an attempt park the job; it is handed out again only by the operator's retry, and then if and only if its delivery is not in doubt and an attempt is left |
| `KbsQueue.UncertainStaysParked` | backend/routers/kbs.py:1866-1935 | a job parked with its delivery unknown is never handed out again over any operations |
| `KbsQueue.DoneStaysDone` | backend/routers/kbs.py:1470-1575 | a done job is final over any operations |
| `KbsQueue.ReportOfHolder` | backend/routers/kbs.py:1470-1575 | the report of the worker that holds the job makes it done and changes no other field; anybody else's changes nothing |
| `KbsQueue.DoneIffReported` | backend/routers/kbs.py:1470-1575 | over any operations a job ends up done if and only if at some time the worker that held it then reported it |
| `KbsQueue.GrantsAreBounded` | backend/routers/kbs.py:1680-1787 | over its whole life, operators' retries included, a job is handed out at most its number of attempts |
| `KbsSafety.DeliveredInputFits` | extension/police-agent.js:120-142 | what a run is told when an answer reaches it: an offer it alone holds, or a refusal of a write that was not applied |
| `KbsSafety.CommitKeeps` | backend/routers/kbs.py:1330-1435 | a claim that takes no job in progress hands out only jobs that nobody can write |
| `KbsSafety.FailKeeps` | backend/routers/kbs.py:1680-1787 | a report of failure re-queues a job only when the reporting run never wrote it or was refused |
| `KbsSafety.NextKeeps` | extension/police-agent.js:80-164 | every guarded step of the whole system keeps the invariant that says where the right to write each job is |
| `KbsSafety.AtMostOnce` | extension/police-agent.js:80-164 | whatever is lost, late or overtaken and whoever dies, the authority applies no queued job more than once, as long as no claim takes a job over that is still in progress and no applied write is refused |
| `KbsSafety.AppliedIsNeverQueuedAgain` | extension/police-agent.js:132-142 | under the same guard an applied job is completed, held by its lease, or parked as uncertain; no claim and no operator's retry can take it |
| `KbsLeases.PromptRunIsGuarded` | backend/routers/kbs.py:1330-1435 | claim handlers that commit within the lease they grant never take a job over |
| `KbsLeases.PromptHandlersSendOnce` | backend/routers/kbs.py:1330-1435 | so prompt handlers are enough for at most one application |
| `KbsGrants.GrantIsUsed` | extension/police-agent.js:103-120 | a grant that is on its way, held or on the wire can always be brought to one more application, leaving another grant as it is |
| `KbsGrants.PendingIsApplied` | backend/routers/kbs.py:1330-1435 | a pending job with an attempt left can always be brought to one more application, by any worker, even one that has to be restarted first |
| `KbsCompletion.CompletionIsFinal` | backend/routers/kbs.py:1470-1575 | a handled report is answered Ok exactly to the holder; then the job is done, nothing else changes, and it stays so over every continuation; the other cases have their own errors and change no job |
| `KbsCompletion.GrantIsCompleted` | extension/police-agent.js:103-130 | from every state, a grant that can still be used, of a job its installation holds, can be brought under the guard to exactly one more application and then to a done job, changing no other job, and its run then gets its receipt, counts the row as sent and goes on behind it |
| `KbsCompletion.PendingIsCompleted` | backend/routers/kbs.py:1330-1435 | and a pending job with an attempt left can be brought to one more application and then to done, by any worker |
| `KbsCompletion.LostStaysLost` | extension/police-agent.js:41-63 | a request the network loses is never handled and never answered, over every continuation |
| `KbsSane.ReachedIsSafeAndSane` | backend/routers/kbs.py:1330-1435 | what the rows on takeovers ask of a state holds in every state reached without a takeover |
| `KbsHandBacks.HandBackIsSent` | extension/police-agent.js:114-142 | a run that was stopped while it held a job, or was refused, can always be brought to send its hand-back, and nothing else changes |
| `KbsHandBacks.PendingWithHandBack` | backend/routers/kbs.py:1680-1787 | a pending job with two attempts left, while a second hand-back of it is on its way, can be brought to two applications |
| `KbsDoubles.TakeoverSendsTwice` | backend/routers/kbs.py:1330-1435 | in every safe state a takeover by a waiting claimant, while the earlier grant can still be used, can be continued to two applications |
| `KbsDoubles.TakeoverOfAppliedSendsTwice` | backend/routers/kbs.py:1330-1435 | and so it can when the earlier grant has been applied |
| `KbsDoubles.StoppedSendsTwice` | extension/police-agent.js:114-120 | so can a takeover by a claimant that was stopped while it waited, if an attempt is left after it: it hands the job back |
| `KbsDoubles.OwnHandBackSendsTwice` | backend/routers/kbs.py:1680-1787 | so can a takeover for an installation that is about to hand the job back itself, if an attempt is left after it |
| `KbsDoubles.HandBackSendsTwice` | backend/routers/kbs.py:1680-1787 | so can a takeover beside any hand-back, if two attempts are left after it |
| `KbsDoubles.RefusalSendsTwice` | backend/routers/kbs.py:1355-1382 | so can a takeover that refuses the job for missing data, by way of the operator's retry |
| `KbsDoubles.RefusalWithHandBackSendsTwice` | backend/routers/kbs.py:1355-1382 | and so can such a refusal beside a hand-back, if two attempts are left |
| `KbsTakeover.OfferedIsSafe` | backend/routers/kbs.py:1330-1435 | a takeover is safe when no grant can be used or was and every hand-back is harmless: no attempt left after it, or one and another owner |
| `KbsTakeover.DeadTakeoverIsSafe` | backend/routers/kbs.py:1330-1435 | so is a takeover by a claimant that is gone |
| `KbsTakeover.StoppedLastIsSafe` | backend/routers/kbs.py:1330-1435 | so is one by a stopped claimant that gets the last attempt |
| `KbsTakeover.StoppedIsSafe` | backend/routers/kbs.py:1330-1435 | and one by a stopped claimant beside a hand-back, with at most one attempt left after it |
| `KbsTakeover.RefusalIsSafe` | backend/routers/kbs.py:1355-1382 | so is a refusal when no grant can be used or was, and beside a hand-back at most one attempt is left |
| `KbsTakeover.LastAttemptIsSafe` | backend/routers/kbs.py:1330-1435 | and so is taking over a job without an attempt left, which only parks it |
| `KbsTakeover.CommitIsSafeIffNotReckless` | backend/routers/kbs.py:1330-1435 | for every claim in every safe and sane state, and so in every state reached without a takeover (`KbsSane.ReachedIsSafeAndSane`): its commit is safe, whatever follows without a takeover, if and only if it is not reckless, which is a condition on who holds, hands back and awaits the job and on the attempts left |
| `KbsCounterexamples.LateClaimHandlerSendsTwice` | backend/routers/kbs.py:1330-1435 | such a takeover is reachable from the start |
| `KbsRefusals.DenialIsSafeIffNotHeld` | extension/background.js:388-393 | in every safe and sane state: the authority's handling of a write is safe, whatever follows under the guard, if and only if it does not refuse a write that it applies while its run waits for the answer, its installation holds the job, and an attempt is left |
| `KbsCounterexamples.DishonestAuthorityAppliesTwice` | extension/background.js:388-393 | such a refusal is reachable from the start, and the job is applied twice |
| `FeedSweep.RowsAfter` | backend/routers/kbs.py:137-149 | the feed lists exactly the rows beyond the cursor, in order |
| `FeedSweep.Worker.Run` | extension/police-agent.js:91-155 | one run tries the first rows beyond the cursor, moves it to the last one tried, and counts what was sent and what failed |
| `FeedSweep.RunAdvances` | extension/police-agent.js:97-153 | a run that finds rows moves the cursor strictly forward, also over rows whose claim is refused |
| `FeedSweep.PatienceShrinks` | extension/police-agent.js:91-155 | each run tries a given row or shrinks the measure of how long it has to wait |
| `FeedSweep.QueuedRowIsTried` | extension/police-agent.js:91-155 | a row that stays in the feed is tried within its measure, whatever other rows come and go |
| `FeedSweep.PatienceIsBounded` | extension/police-agent.js:91-155 | the measure is at most twice the number of rows that ever appear, and one |
| `ImagePlan.Newest` | deploy/image-retention.py:121 | the release with the latest build time, and of those the largest revision |
| `ImagePlanner.AddImage` | deploy/image-retention.py:84-97 | the tag loop fails exactly for a tag taken twice or a managed image without a creation time, and fills the reference table |
| `ImagePlanner.ReadImages` | deploy/image-retention.py:84-97 | the inventory loop refuses exactly an ambiguous inventory, and otherwise yields the reference and alias tables |
| `ImagePlanner.ReadContainers` | deploy/image-retention.py:99-112 | the container loop refuses exactly an unexpected, unhealthy or retagged stack |
| `ImagePlanner.ChooseBootstrap` | deploy/image-retention.py:119-126 | the bootstrap loop chooses what its specification says |
| `ImagePlanner.ChooseTargets` | deploy/image-retention.py:117-137 | from the tables to the specified plan |
| `ImagePlanner.BuildPlan` | deploy/image-retention.py:76-137 | the planner refuses exactly the snapshots that are not plannable and otherwise computes the specified plan |
| `RetentionStability.UntagRemovesRefs` | deploy/image-retention.py:84-97 | deleting tags takes exactly those references out of the reference table |
| `RetentionStability.UntagDeletes` | deploy/image-retention.py:229-230 | only images whose last tag was deleted disappear |
| `RetentionStability.RankedWithout` | deploy/image-retention.py:121 | a release that loses a tag leaves the ranking and moves no other |
| `RetentionStability.TargetIsUnprotected` | deploy/image-retention.py:127-133 | no planned tag belongs to a protected release or to a pinned image |
| `RetentionStability.PlanAfterUntag` | deploy/image-retention.py:213-223 | deleting one planned tag and planning again changes neither the running release, the rollback set nor a protected reference, and keeps every other target |
| `RetentionStability.PlanLater` | deploy/image-retention.py:131-133 | waiting only adds targets |
| `RetentionStability.PlanIsStable` | deploy/image-retention.py:213-223 | the same for a plan made at any later time: the form the deletion loop meets |
| `RetentionGuarantees.TargetsExactly` | deploy/image-retention.py:127-133 | a tag is planned if and only if it is managed, past its grace period, and its image is needed by no container, no foreign tag and no protected release |
| `RetentionGuarantees.RollbackSetIsFull` | deploy/image-retention.py:117-126 | history, running and bootstrap releases are complete and number at least the smaller of three and what there is; bootstrap adds none beyond three |
| `RetentionGuarantees.HistoryIsLastThree` | deploy/image-retention.py:205 | the stored history is the last three of all successes, each release counted at its last one |
| `RetentionGuarantees.RecordedTwice` | deploy/image-retention.py:205 | recording is idempotent, keeps the history distinct, and adds nothing but the candidate |
| `RetentionGuarantees.RecordedStaysPlannable` | deploy/image-retention.py:199-206 | an accepted history is accepted with the running release recorded in it |
| `RetentionInventory.BuildTimes` | deploy/image-retention.py:113-114 | the build time the planner uses is that of the latest of the release's three images in the inventory, and only of complete releases |
| `RetentionInventory.RollbackIsNewest` | deploy/image-retention.py:119-126 | in build times of the inventory: a chosen rollback release is not newer than the running one and not older than any release passed over, and of two built at once the larger revision is chosen |
| `RetentionInventory.UnambiguousIffWellTagged` | deploy/image-retention.py:84-97 | the inventory is accepted if and only if no managed tag occurs twice and every managed image has a creation time |
| `RetentionInventory.AcceptsExactly` | deploy/image-retention.py:76-117 | the planner accepts a host if and only if the history holds at most three releases, each once and complete, the inventory is unambiguous, and one complete release runs healthy on all services, with its own images |
| `RetentionInventory.CurrentRuns` | deploy/image-retention.py:99-112 | the release the plan calls current is the one that runs |
| `RetentionInventory.ReleasesStay` | deploy/image-retention.py:127-133 | no tag of a stored success, of the running release, of the candidate or of a chosen rollback release is ever planned for deletion |
| `RetentionInventory.PostPhaseExactly` | deploy/image-retention.py:195-212 | a run goes on exactly on an accepted host and, in the post phase, with the candidate running and the public route in agreement; only that phase records the candidate, as the newest of at most three |
| `RetentionExample.SomePlanDeletes` | deploy/image-retention.py:76-137 | a concrete host that the planner accepts and on which it plans a deletion, so the promises about plans are not empty |
| `ImageRetention.StableRun` | deploy/image-retention.py:213-223 | after any set of planned deletions and at any later time the plan protects the same and still lists the rest |
| `ImageRetention.OnlyTargetsDisappear` | deploy/image-retention.py:229-230 | the images gone after a complete run are among the planned ones |
| `ImageRetention.Host.Decide` | deploy/image-retention.py:196-206 | the run goes on exactly for an accepted release, with the history recorded in the post phase |
| `ImageRetention.Host.Replan` | deploy/image-retention.py:214-216 | a fresh plan is refused exactly when the host is not plannable or something protected is gone or points elsewhere |
| `ImageRetention.Host.DeleteOne` | deploy/image-retention.py:213-223 | one turn of the loop: at most one deletion, and a justified one |
| `ImageRetention.Host.DeleteTargets` | deploy/image-retention.py:213-223 | every deletion was planned at the start and again on a fresh inventory that held all that is protected; undisturbed, exactly the planned tags go |
| `ImageRetention.Host.Retain` | deploy/image-retention.py:195-233 | the whole run, whatever other processes do; and on an undisturbed host it passes every check of its own, deletes exactly the plan, stores the history, and leaves the rest |
| `DailyDispatch.ClaimMovesForward` | backend/celery_tasks.py:318-337 | a claim wins if and only if the stamp lies before the local day; it moves the stamp forward, and a process from a day gone by loses |
| `DailyDispatch.EveryDayIsWon` | backend/celery_tasks.py:297-341 | claims made in the order of the clock win every local day in which one is made, and nothing else is won |
| `DailyDispatch.TameRunIsSound` | backend/celery_tasks.py:297-341 | over every interleaving of tame steps a tenant is dispatched at most once per local day, for ever later days |
| `DailyDispatch.ClockedRunOnceADay` | backend/celery_tasks.py:297-461 | under a clock that does not run back, claims with instants read at any time before and completions that land in the day of their stamp keep dispatch at most once per local day |
| `DailyDispatch.NightAuditOnceADay` | backend/celery_tasks.py:297-461 | the night audit with its completion writes, over every such run from the start |
| `DailyDispatch.IndexedClockedRunOnceADay` | backend/celery_tasks.py:706-781 | the same behind the unique index, documents being created on the way |
| `DailyDispatch.IndexedDispatchOnceADay` | backend/celery_tasks.py:706-781 | behind the unique index every interleaving of any number of processes dispatches at most once per local day |
| `DailyDispatch.WonAgainIffOpen` | backend/celery_tasks.py:569-582 | a day already won can be won again if and only if some document is older than that day |
| `DailyDispatch.SafeIffTame` | backend/celery_tasks.py:453-461 | with the index a step is safe, whatever claims follow, if and only if it is not a completion stamped before a day already won; an untame step always allows a double dispatch |
| `DailyDispatch.StaleCompletionReopens` | backend/celery_tasks.py:453-461 | a delayed completion write opens a day already won |
| `DailyDispatch.StaleCompletionIsReachable` | backend/celery_tasks.py:453-461 | such a write is reached from the start: a run that closes, with its own stamp, after the next day was claimed |
| `DailyDispatch.FirstTimersWithoutIndexDispatchTwice` | backend/celery_tasks.py:511-582 | from every state without a document two first ticks dispatch a tenant twice without the index, and once with it |
| `DailyDispatch.UnindexedIsSafeIffSettled` | backend/celery_tasks.py:511-582 | without the index, whose failure two dispatchers ignore, a sound state is safe, whatever follows, if and only if the tenant's one document exists and no insert is pending |
| `DailyDispatch.Runs.ClaimDay` | backend/celery_tasks.py:569-582 | the conditional update takes the first document that matches, or none |
| `DailyDispatch.Runs.Dispatch` | backend/celery_tasks.py:551-585 | a due tick is the three steps in order, and queues exactly on a won claim |
| `DailyDispatch.Runs.NightAudit` | backend/celery_tasks.py:297-461 | a due tick of the night audit claims the day and, only if it won, runs and closes with its own stamp |
| `IsoTime.IsoOrderIsTimeOrder` | backend/celery_tasks.py:2043-2054 | UTC timestamps compare as text exactly as the instants do, with and without a fraction |
| `IsoTime.FractionOrdered` | backend/celery_tasks.py:312-317 | a missing fraction comes before any fraction, and fractions compare as numbers |
| `IsoTime.EarlierIsRank` | backend/celery_tasks.py:2043-2054 | the calendar order by fields is the order of the instants as numbers |
| `IsoTime.Prune` | backend/celery_tasks.py:2043-2068 | exactly the runs whose instant, as a number, is smaller than the cutoff's are deleted; the rest keep their order |
| `FolioSweep.MessageIdsDiffer` | backend/core/folio_close_event.py:68-70 | for ids without a colon there is one message id per folio and closing text |
| `FolioSweep.MessageIdsCollide` | backend/core/folio_close_event.py:68-70 | for all ids: two closings have one message id if and only if they are equal or one is the other with a colon and more moved from the id into the text |
| `FolioSweep.NextKeepsSound` | backend/celery_tasks.py:950-1006 | every step of any number of sweeps, of the bus and of reopenings keeps the invariant |
| `FolioSweep.UnpublishedIsSelected` | backend/celery_tasks.py:950-1006 | in every state reached by loud steps a marker on a closing that parses to the watermark or later means its message is in the bus, so an unpublished closing is still selected |
| `FolioSweep.OneMessagePerClosing` | backend/integrations/xchange/bus.py:202-237 | a message is in the bus at most once per partner, and only of closings whose stored text is not empty and parses to the watermark or later |
| `FolioSweep.SilentPublicationIsLost` | backend/integrations/xchange/bus.py:187-200 | from every sound state, publishing to nobody what nobody was told can be continued to a marker without a message |
| `FolioSweep.SilentPublicationIsReachable` | backend/integrations/xchange/bus.py:187-200 | such a publication is reached from the start when the only partner is disabled between the sweep's query and its publication |
| `FolioSweep.SafeIffLoud` | backend/integrations/xchange/bus.py:187-200 | a step is safe, whatever loud steps follow, if and only if it is not a publication to nobody of a message that is not in the bus |
| `FolioSweep.Sweeper.Publish` | backend/integrations/xchange/bus.py:187-237 | one delivery per enabled partner and nothing else |
| `FolioSweep.Sweeper.Run` | backend/celery_tasks.py:944-1006 | an undisturbed sweep handles the first selected folios up to its batch and marks each; those whose closing text is not empty and parses to the watermark or later are in the bus for every partner and counted as published, all others bring nothing into the bus and are counted as tombstoned, and nothing else changes |
| `FolioSweep.EmitsFromWatermark` | backend/celery_tasks.py:966-973 | the sweep publishes exactly the closings whose stored text is not empty and parses to the watermark or later |
| `FolioSweep.NextSweepGoesOn` | backend/celery_tasks.py:950-963 | after a sweep the next one finds exactly the folios that were not handled, in order |
| `FolioSweep.ReclosedIsSelected` | backend/celery_tasks.py:950-959 | a reopened folio is left alone, and closed again it is selected unless that very closing is marked |
| `FolioSweep.MarkIsGuarded` | backend/celery_tasks.py:992-1004 | a sweep changes no folio but to set the marker of a closed one to the closing time it has, which takes it out of the query |
| `FolioSweep.EnabledIsTold` | backend/integrations/xchange/bus.py:187-200 | a partner enabled before a publication reads the partners is told by it, and one disabled before is not |
| `FolioSweep.CrashedIsTakenUp` | backend/celery_tasks.py:985-1004 | a sweep that dies changes nothing but itself, and any sweep at rest can take up a selected folio |
| `AlertSuppression.Monitor.Notify` | backend/celery_tasks.py:2250-2447 | what a run stores and answers, in numbers: zero clears, less than five above the last alerted count of a streak is suppressed, anything else is told if a channel takes it and becomes the new last count, as an escalation during a streak and a first detection otherwise |
| `AlertSuppression.AlertsAreTold` | backend/celery_tasks.py:2270-2447 | over every history the delivered alerts are the first run of each streak that can deliver and then each that can and lies at least five above the last told |
| `AlertSuppression.BacklogIsKnown` | backend/celery_tasks.py:2277-2447 | in a streak whose channel always delivers the backlog lies after every run less than five above the last alerted count |
| `AlertSuppression.StreakSoFar` | backend/celery_tasks.py:2270-2447 | during a streak the document remembers the first delivery as the start and the last delivered count |
| `AlertSuppression.StreakIsQuiet` | backend/celery_tasks.py:2270-2447 | a streak is told at most once, and once more for every five the backlog grew since |
| `AlertSuppression.FirstChanceIsTaken` | backend/celery_tasks.py:2364-2397 | while nothing was delivered the next run tries again |
| `AlertSuppression.ClearedStreakAlertsAgain` | backend/celery_tasks.py:2277-2304 | a run without a backlog ends the streak, and the next one with a backlog is told again |
| `AlertSuppression.FailedDeliveryIsRetried` | backend/celery_tasks.py:2364-2397 | a failed delivery changes neither the streak nor the alerted count |
| `AuditArchive.Archiver.MoveOld` | backend/celery_tasks.py:1191-1225 | wherever the move dies, only rows before the cutoff leave the hot collection, each with its id in the archive, and they are counted; a completed move of up to 50000 rows has moved every old one, and a move with four operations for each row never dies |
| `AuditArchive.UnderwayConserves` | backend/celery_tasks.py:1193-1224 | at every point of the move no audit row is lost, invented or changed, if archived old rows agree |
| `AuditArchive.ResumedMoveEndsTheSame` | backend/celery_tasks.py:1216-1224 | a move that died and is run again ends where an undisturbed one ends |
| `AuditArchive.MoveIsIdempotent` | backend/celery_tasks.py:1216-1220 | running a completed move again changes nothing |
| `AuditArchive.DisagreeingRowIsLost` | backend/celery_tasks.py:1218-1224 | any old row whose id is archived with other contents is lost once the move deletes it |
| `AuditArchive.MoveConservesIffAgree` | backend/celery_tasks.py:1212-1224 | the move conserves every row if and only if the old rows that are archived already are the same there |
| `BookingArchive.BatchCompletes` | backend/data_archival.py:60-77 | a batch completes if and only if none of its bookings is archived already, and never loses one |
| `BookingArchive.DuplicateIsStuck` | backend/data_archival.py:68-71 | a booking left in both collections by a crash makes every later batch that holds it fail |
| `BookingArchive.Manager.ArchiveOldBookings` | backend/data_archival.py:36-83 | one run, dying anywhere: nothing is lost, only bookings checked out before the cutoff and finished leave, and archived ones are stamped; a dry run counts the bookings due, a completed run has moved up to 1000 of them, it fails exactly on a duplicate, and with two writes for each it never dies |
| `BookingArchive.QueryWithArchive` | backend/data_archival.py:85-113 | with a limit, the page of active and archived matches as one list; with limit zero the rest of the active list alone |
| `BookingArchive.MatchingIsFilter` | backend/data_archival.py:98-111 | the matches of a list are those of its documents that the query accepts, in order |
| `BookingArchive.PagesTile` | backend/data_archival.py:98-113 | successive pages tile the list without gap or repeat |
| `RateLimits.LimitOf` | backend/apm_middleware.py:418-460 | every category has a positive limit over a window of a minute, whose size `RateLimits.LimitIsBudget` gives |
| `RateLimits.LimitIsBudget` | backend/apm_middleware.py:418-460 | the table of each profile gives each budget its limit: outside development 15 for login and registration, 60 without a credential, 120 for room codes; in production 10 for exports, 60 for reports, 120 for writes, 600 for edit locks and 300 for the rest |
| `RateLimits.CategoryIsBudget` | backend/apm_middleware.py:492-517 | the category of a request names a budget if and only if path, verb and credential charge it to that budget |
| `RateLimits.OneBudget` | backend/apm_middleware.py:492-517 | every request is charged to exactly one budget |
| `RateLimits.CategoryIsKnown` | backend/apm_middleware.py:492-517 | every request falls into a category of the tables, and no category holds a colon |
| `RateLimits.AnonymousIsThrottled` | backend/apm_middleware.py:492-517 | without a credential the method never decides, and the exact cases in which such a request is not held to 120 a minute |
| `RateLimits.KeysDiffer` | backend/apm_middleware.py:573 | two requests share a bucket if and only if identifier and category are the same |
| `SlidingWindow.NoWindowOverfull` | backend/apm_middleware.py:566-600 | no interval of a window's length holds more admissions than the limit |
| `SlidingWindow.NoBucketOverfull` | backend/apm_middleware.py:566-600 | the same for every bucket of a limiter in use |
| `SlidingWindow.Handle` | backend/apm_middleware.py:634-643 | one request is admitted if and only if its identifier has spent less than its budget in the minute that ends now, and the answer gives the budget and what is left of it |
| `SlidingWindow.NoMinuteOverspent` | backend/apm_middleware.py:566-600 | over every run no minute holds more of an identifier's requests of one budget than it may spend, so outside development at most 15 logins and registrations |
| `SlidingWindow.TrimmedIsWindow` | backend/apm_middleware.py:578-583 | after the popleft loop the deque holds exactly the admissions of the window |
| `SlidingWindow.Trim` | backend/apm_middleware.py:578-581 | the popleft loop forgets only admissions before the cutoff, and leaves none of them in front |
| `SlidingWindow.CheckBucket` | backend/apm_middleware.py:578-600 | one check of one bucket counts the window and keeps the bucket's invariant |
| `SlidingWindow.Limiter.CheckLimit` | backend/apm_middleware.py:566-600 | a request is admitted if and only if fewer than the limit were admitted in the window that ends now, counted in the log of all admissions; the answer's remainder is what the window still has room for |
| `SlidingWindow.Limiter.CleanupOldWindows` | backend/apm_middleware.py:603-612 | exactly empty and stale buckets are dropped, and no log changes |
| `SlidingWindow.Replay` | backend/apm_middleware.py:566-612 | every run of requests and cleanups is decided as by a limiter that remembers every admitted request by path, verb and credential, and knows no categories, no tables and no cleanup |
| `Metrics.StatsAddUp` | backend/apm_middleware.py:118-135 | for every history the status codes add up to the count, those from 400 on to the errors, and the total lies between count times minimum and count times maximum |
| `Metrics.TotalsAreSums` | backend/apm_middleware.py:118-135 | the total is the sum of the durations, the codes are their tally, and the last call is the last one |
| `Metrics.ExtremesAreReached` | backend/apm_middleware.py:125-126 | the minimum and the maximum are the shortest and the longest request of the history |
| `Metrics.Store.RecordRequest` | backend/apm_middleware.py:96-135 | buffers and endpoint statistics are at all times what the whole history gives: the newest 5000 requests and the newest 500 server errors |
| `Metrics.Store.RecordRateLimitHit` | backend/apm_middleware.py:137-141 | the hits per endpoint add up to the hits |
| `Metrics.PickIsPercentile` | backend/apm_middleware.py:261-264 | the index is in range, and the value picked has the rank of the percentile |
| `Metrics.GetSummary` | backend/apm_middleware.py:143-284 | classes, endpoints and minutes each add up to the total, errors and slow requests are counted, and the percentiles are ordered and have their ranks |
| `Metrics.Recent` | backend/apm_middleware.py:145-150 | exactly the requests after the cutoff, each as often as it was recorded |
| `Metrics.Failed` | backend/apm_middleware.py:174 | exactly those with a status from 400 on |
| `Metrics.Slow` | backend/apm_middleware.py:175 | exactly those that took more than half a second |
| `Tallies.TallyFacts` | backend/apm_middleware.py:178-190 | a counting loop's table holds each key as often as it occurs and adds up to the number of keys |
| `TtlStore.Store.Get` | backend/cache_manager.py:81-90 | a value if and only if the timed map holds the key unexpired and it was not evicted, and then the last value set |
| `TtlStore.Store.SetEx` | backend/cache_manager.py:92-99 | what is set, what is evicted, and the table after it |
| `TtlStore.Store.Delete` | backend/cache_manager.py:101-107 | exactly the given keys are removed, and the number of them that were there is answered |
| `TtlStore.Store.ScanKeys` | backend/cache_manager.py:109-111 | exactly the keys the pattern matches |
| `TtlStore.Store.Incr` | backend/cache_manager.py:123-139 | one more while the key is live and holds a number, otherwise one; the table grows exactly by a fresh key |
| `TtlStore.Store.Expire` | backend/cache_manager.py:141-148 | the time to live is replaced if and only if the key is present, and the size stays |
| `TtlStore.Store.IncrWithTtl` | backend/cache_manager.py:241-268 | one hit: it counts on from a live number and starts at one otherwise; a hit that counts one sets the window and no other moves it |
| `TtlStore.SizeAfter` | backend/cache_manager.py:81-148 | the exact size after each operation |
| `TtlStore.BoundedIffNeverOverflows` | backend/cache_manager.py:92-139 | over every run of operations the size bound is kept if and only if the counter never adds a fresh key to a full table |
| `TtlStore.FreshCountersPileUp` | backend/cache_manager.py:123-139 | without that nothing bounds the table: every fresh counter adds an entry |
| `HitWindows.CountsGoOnIffNeverEvicted` | backend/cache_manager.py:92-139 | among any operations of other callers that neither write nor delete the counter's own key the hits of a window count on one at a time if and only if no fresh key is set in a full table of whose oldest 500 entries the counter is one |
| `HitWindows.WindowStays` | backend/cache_manager.py:241-268 | without such an eviction the counter stands where the hits have brought it, and the end of the window stays |
| `HitWindows.NextHit` | backend/cache_manager.py:123-139 | after one operation of another caller the next hit answers one more, or 1 if that operation evicted the counter |
| `HitWindows.EvictedCounterStartsAgain` | backend/cache_manager.py:92-99 | from the empty store: two hits in one window that both answer 1, with 5000 fresh keys between them |
| `HitWindows.Serve` | backend/cache_manager.py:81-148 | the store serves hits and other callers' operations as the specification says |
| `HitWindows.HitWindow` | backend/cache_manager.py:241-268 | a first hit and a run in its window: 1, 2, 3 and so on and the end set by the first hit, if nothing evicts; and if the run ends with a hit, only then |
| `GlobPatterns.LiteralPrefix` | backend/cache_manager.py:109-111 | a literal in front of a pattern matches itself and the rest matches the rest |
| `GlobPatterns.StarThen` | backend/cache_manager.py:109-111 | a star matches any text before the rest |
| `GlobPatterns.Isolation` | backend/cache_manager.py:278-304 | every key an accepted pattern matches lies in that pattern's own tenant namespace |
| `GlobPatterns.AcceptedIffGenerated` | backend/cache_manager.py:270-296 | the guard admits exactly the patterns the grammar generates: a tenant of 1 to 128 plain characters and one to eight plain words or lone stars, with or without a closing newline |
| `GlobPatterns.NamespacesDisjoint` | backend/cache_manager.py:343-353 | safe tenants' namespaces share no key |
| `GlobPatterns.PatternsAccepted` | backend/cache_manager.py:278-296 | the built patterns pass the guard if and only if tenant and entity are safe |
| `GlobPatterns.EntityPatternReaches` | backend/cache_manager.py:317-320 | the entity pattern matches exactly the keys of the entity |
| `GlobPatterns.RolePatternReaches` | backend/cache_manager.py:323-328 | the role pattern matches exactly the keys with some text between tenant and entity |
| `GlobPatterns.RoleVariantIffOneSegment` | backend/cache_manager.py:323-328 | a matched key is a role variant of the entity if and only if some text between tenant and entity holds no colon |
| `GlobPatterns.RolePatternTakesMore` | backend/cache_manager.py:323-328 | the role pattern takes a key of another entity if and only if the key mentions the name as a later segment |
| `GlobPatterns.SomeKeyIsTakenToo` | backend/cache_manager.py:323-328 | such a key, which is not a role variant |
| `GlobPatterns.KeysAreReached` | backend/cache_manager.py:503-538 | the keys the cache writes for an entity, with and without a role, are matched |
| `GlobPatterns.RoleKeysSurvivePlain` | backend/cache_manager.py:593-596 | plain invalidation leaves every role-aware key |
| `TenantCache.CacheManager.DeletePattern` | backend/cache_manager.py:283-304 | deletes exactly what an admitted pattern matches, and an accepted tenant pattern touches only its own tenant |
| `TenantCache.CacheManager.InvalidateTenantCache` | backend/cache_manager.py:306-329 | succeeds if and only if the names are safe, and removes exactly the tenant's, the entity's or also its role variants' keys |
| `TenantCache.CacheManager.SafeInvalidate` | backend/cache_manager.py:359-378 | succeeds if and only if both names are safe, removes exactly the entity's keys, and counts the outcome |
| `TenantCache.OtherTenantsKeep` | backend/cache_manager.py:306-329 | no invalidation of a tenant touches another safe tenant's key |
| `TenantCache.OtherEntitiesKeep` | backend/cache_manager.py:306-329 | of another entity's keys an invalidation takes exactly those that mention the name further on, and only with role variants |
| `TenantCache.OtherRoleKeysKeep` | backend/cache_manager.py:323-328 | and so of another entity's role-aware keys |
| `TenantCache.NothingLeft` | backend/cache_manager.py:306-329 | after an invalidation with role variants no key the cache writes for the entity is left |

## Left out

- `PoliceControl.StaleRunIsInert`: speaks of runs with an older revision; a run that starts between the stop's revision change and its write holds the new one, and `PoliceControl.StopIsFinalUnlessARunSlippedIn` says exactly when that run, or the record it has left in the chain, switches the sender on again.
- `FeedSweep.QueuedRowIsTried`: progress is stated for runs that reach their page; a run that fails earlier leaves the cursor where it is.
- `DailyDispatch.NightAuditOnceADay`: at most once, not exactly once; the tenant's time zone does not change, and local midnight happens once a day. It speaks of tenants with at most one schedule document; schedules are upserted without a unique index (`backend/domains/pms/night_audit/service.py:824-828`), so two first saves can leave two, and `DailyDispatch.UnindexedIsSafeIffSettled` says what follows then.
- `FolioSweep.OneMessagePerClosing`: the bus is taken to have its unique index; the source only tries to create it.
- `HitWindows.HitWindow`: a hit's count and the expiry it sets are one step, although the source takes the store's lock twice for them.
- `SlidingWindow.Limiter.CheckLimit`: for a clock that does not run backwards; the lock is not modelled because a check is one step.
- `BookingArchive.QueryWithArchive`: both collections are lists in the database's order that do not change during the query.
- Worker details: failures of the browser's own storage, reasons and times in the stored record, and what the consent and context checks of the start command look at.
- The server's own senders on the same queue, the cloud takeover inside a claim, test mode, enqueueing rules, the idempotency-key replay cache, and dead-letter alarms. A claim is two steps: reading the clock, and the compare-and-set with the read that follows it.
- The text rule that calls an error permanent is a parameter of the failure report.
- Retention: Docker is taken to remove a tag it is told to remove; the format checks of prefix and revision, the state file's own checks, locks, the printed events, and the order of the target list. A commit is a number; the release table is the reference table regrouped and is not kept twice.
- The comment on role variants promises that only one whole segment varies; the code lets any text vary, and the model follows the code.
- `?` and `[` in patterns outside the tenant namespace: what the matcher makes of them is a parameter. Redis itself, and failures of the cache backend.
- Identity extraction of the rate limiter, response headers, static paths, and the whitelist.
- Metrics: durations are whole microseconds, so rounding and averages are left out, as are the sorted top lists.
- Booking and folio moves of the Celery archival task, which copy and delete in bulk.
- The enabled and autopilot flags of the dispatchers and the work that is queued; the hour and minute test is a parameter, so claims at repeated or shifted wall-clock minutes are covered.
- Time-zone rules, JSON, hashing, logging and environment parsing.
