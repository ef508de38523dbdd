# A verified model of the durable agent runtime

This project models how the runtime keeps its promises when workers crash, stall,
retry and overlap: leased Runs over one store, scheduled fires, background ticks,
tool checkpoints, the per-chat send lane, the stream coalescer, the restart
handshake, the pending-memory ledger, catch-up arithmetic, and the ranking and
budgeting of memory hits. Check it with `dafny verify dfyconfig.toml`.

## How it is laid out

- **The store.** `RunRow` is one Run's row with its event stream, and the journal
  reading of that stream. `StoreSpec` holds the tables as a value (`Db`) and each
  store method as one atomic transaction; UUIDs, the clock and the rows the
  database picks are parameters. `CloudStoreTables.CloudStore` is the store object:
  tables in fields, rows read, checked, changed and written back, each method proved
  to be exactly its transaction. A history is any sequence of transactions by any
  callers, so a statement about `Exec` covers every interleaving, lapsed lease, retry
  and crash between two transactions.
- **What histories keep.** `StoreInvariant` proves the invariant of all tables.
  `RunHistory`, `RunWorkers`, `ScheduleFires` and `AutomationTicks` draw the results:
  cancellation, the journal, fencing of old attempts, the accounting of fires, ticks.
  `RunRecovery`, `JobLife` and `TickLeases` say what becomes of abandoned, failed and
  cancelled work and how long each lease lasts; `FireContents` and `MailContents` what
  messages say, and that repeated requests store nothing.
  `RunRound`, `ScheduleWorker` and `AutomationRound` are one round of each worker as a
  program over the store object, proved to be a path of the machines above.
- **Schedules.** `CatchUp` has the closed form of every catch-up loop, `CloudSchedule`
  creation and the next fire, `SchedulePhase` the due times over whole plays,
  `LocalSchedule` the single-process scheduler with restarts.
- **The smaller protocols.** `ToolCheckpoints`, `ChatLane`, `RunStream`, `Restart` with
  `Supervisor`, `PendingLedger` and `RateLimit` each have an object whose methods are
  proved against functions on its value, a machine that interleaves its callers, and
  theorems over all runs of that machine.
  `ToolSlots` says which calls share a checkpoint.
- **Memory.** `RankFusion` (over real numbers) and `InjectionBlock`, with `FusionRules` and
  `InjectionRules` for what their answers mean in the configuration's terms.
- `Prelude` and `Text` are shared vocabulary and Python's blank-trimming.

## Where the code and its documentation differ, or a caller might be surprised

- A claim's read is not an arbiter: `RunHistory.SnapshotReadIsNotEnough` shows two Runs
  of one conversation claimable in the same snapshot. The partial unique index decides.
- `RunStream` shows that a timer that has flushed finds no registration of its Run left
  to clear. `ChatLane` shows that the clamp on passive sends and the skip on arrival never
  have an effect, and the clamp on turns only if a turn is ended that is not open;
  `RateLimit` shows that the clamp on the waiting time never has one.
- Checkpoints are the first of a chain of tool hooks. A hook behind them that rewrites the
  arguments makes recording fail silently: the model goes on with an outcome that a retry
  is refused (`ToolCheckpoints.RewrittenCallIsNotRecorded`). At most one execution per slot
  holds regardless; what else holds, and exactly when, is in `RecordingSucceedsIff`,
  `SeesOneCrashFreeRunIff` and `RetriesAgreeIff`, with a run in `NoteMakesRetriesDiffer`.
- Notes in a Run's stream are accepted from anybody, so an executor that outlives its lease
  still writes them; that is all it can do (`RunWorkers.ZombiesOnlyLeaveNotes`).
- After `create_cloud_schedule` has parsed its input the trigger is never empty, so its
  last defaulting of the trigger has no effect.
- A postponed cloud fire starts a new grid five seconds ahead, on purpose. Nothing else
  moves a cloud interval job off its grid (`SchedulePhase.PhaseIsKeptIff`); the local
  scheduler keeps one phase for the life of a job.
- The local scheduler fires from a list it collected before, so `cancel_schedule` can
  answer that a job is cancelled and its message still go out (`CancelledButSent`), or the
  row end completed or failed (`CancelledInFlight`). Exactly when a cancellation silences
  the job, and when the status lasts, is in `LocalSchedule.CancellationSilencesIff` and
  `CancellationLastsIff`.
- In the local scheduler a crash between sending and saving repeats a one-shot message that
  is recovered within the grace (`CrashRepeatsOneShot`); exactly when a slot is left due is
  in `CrashRepeatsIff`. An interval job does not repeat the slot, but keeps the repeat for
  later. The ledger `LocalSchedule.Accounted` counts such losses.
- A torn commit frame stays in the pipe. A later whole frame of the same boot then
  shares its line and is refused (`Supervisor.TornThenWholeIsRefused`), unless the torn
  write left nothing at all (`CommitIsHonouredIff`). A frame torn of just its line end is
  accepted although the coordinator gave up (`FrameWithoutLineEndIsAccepted`); that is the
  only way (`AcceptedMeansCommittedIff`), and every renewal was earned all the same.

## Model

| member | source | states |
|---|---|---|
| CatchUp.AdvancePast | cloud/store.py:987-990 | The catch-up loop ends because the step is positive, and yields the closed form. |
| CatchUp.NextSlotIsLeast | agent/scheduler.py:308-323 | The closed form is on the original grid, after now, and no other future slot is earlier. |
| CatchUp.CatchingUpFromALaterSlot | agent/scheduler.py:444-451 | Catching up from any later due slot lands on the same slot, so restarts do not shift it. |
| RunRow.MaxOfNumbered | cloud/store.py:1298-1306 | In a gap-free stream the highest number is the length, so the next event gets the next number. |
| RunRow.LegalStreamsEndOnce | cloud/store.py:1289-1310 | A stream the journal accepts holds one terminal event exactly if it reads as ended. |
| RunRow.LogKeepsJournal | cloud/store.py:1289-1310 | Appending an event that the journal reads as the column change keeps stream and columns in step. |
| RunRow.EvolvesTransitive | cloud/store.py:2240-2262 | The direction in which rows may change (attempts grow, streams grow, ends and requested cancellations stay) composes. |
| RunRow.StepKeepsRow | cloud/store.py:2069-2262 | Every row transition keeps lease, end time, output and error columns consistent with status and stream, and only moves the row in the allowed direction. |
| StoreInvariant.PostKeeps | cloud/store.py:1837-1847 | Appending a message with the conversation's next number keeps all tables sound. |
| StoreInvariant.StepKeeps | cloud/store.py:2141-2238 | A row transition that does not complete a Run keeps all tables sound. |
| StoreInvariant.CompleteKeeps | cloud/store.py:2069-2139 | Completing a Run keeps all tables sound, its output numbered after its input. |
| StoreInvariant.SubmitKeeps | cloud/store.py:1926-1970 | Message and queued Run together keep all tables and the idempotency index sound, or nothing changes. |
| StoreInvariant.RequeueKeeps | cloud/store.py:2177-2211 | Recovering any set of expired Runs keeps all tables sound. |
| StoreInvariant.ClaimJobKeeps | cloud/store.py:936-1003 | Sweeping, skipping misfires and claiming a fire keep lease and token columns consistent. |
| StoreInvariant.FinishJobKeeps | cloud/store.py:1135-1167 | Finishing a fire keeps lease and token columns consistent. |
| StoreInvariant.DeliverKeeps | cloud/store.py:1022-1133 | Delivering a fire keeps all tables sound. |
| StoreInvariant.ConfigureKeeps | cloud/store.py:1459-1543 | Reconfiguring keeps at most one enabled automation per user. |
| StoreInvariant.ActionKeeps | cloud/store.py:1872-2304 | Every store transaction keeps the whole invariant. |
| StoreInvariant.ReachableIsSound | cloud/models.py:512-535 | Every state reachable from the empty store by any history satisfies the whole invariant. |
| RunHistory.ActionEvolves | cloud/store.py:2001-2262 | One transaction changes existing Runs only in the allowed direction. |
| RunHistory.HistoryEvolves | cloud/store.py:2001-2262 | So does every history. |
| RunHistory.LeasesAreExact | cloud/models.py:519-525 | In every reachable state: leased exactly while running, end time exactly when ended, output exactly when completed, one running Run per conversation. |
| RunHistory.CancellationDominates | cloud/store.py:2088-2096 | After a recorded cancellation every history leaves the Run running under the same attempt or cancelled, and no conversation ever holds output of it. |
| RunHistory.RequestedCancellationDominates | cloud/store.py:2240-2262 | Once the owner asked to cancel a running Run, no history completes it, fails it, queues it again or lets it answer. |
| RunHistory.EndingsAreFinal | cloud/store.py:2158-2175 | An ended Run never changes again except for notes appended to its stream. |
| RunHistory.JournalIsFaithful | cloud/store.py:1289-1310 | In every reachable state a stream is numbered 1..n, replays to status, attempts, cancel flag and output, and has one terminal event exactly when the Run ended. |
| RunHistory.OutputsMatchCompletions | cloud/store.py:2104-2138 | A Run is completed exactly if its conversation holds an output of it; that one is unique in the store and numbered after the input. |
| RunHistory.MessageNumbersAreExact | cloud/store.py:1926-1954 | In every reachable state message numbers are exactly 1..next-1 without repeats, over all eight writers, and delivery keys are unique per conversation. |
| RunHistory.SnapshotReadIsNotEnough | cloud/store.py:2038-2042 | Two Runs claimable in one snapshot: the second commit is refused, and carrying it out would break the index. |
| RunRecovery.LapsedRunsAreRecovered | cloud/store.py:2177-2211 | Column by column: a picked Run whose lease lapsed is queued again with owner and lease cleared and its attempts counted, or cancelled if that was requested; every other row stays. |
| RunRecovery.AbandonedRunsAreTriedAgain | cloud/store.py:2202-2210 | A recovered Run without a cancellation request can be claimed at once, and the claim is its next attempt. |
| RunRecovery.QueuedRunsWait | cloud/store.py:2001-2043 | Over every history a queued Run stays queued at its attempt until it is claimed or its cancellation is requested. |
| RunRecovery.QueuedCancellationIsFinal | cloud/store.py:2249-2254 | A queued Run cancelled by its owner is, over every history, cancelled at the same attempt without output; it cannot be claimed and its stream shows no later start. |
| RunRecovery.LateRequestsChangeNothing | cloud/store.py:2240-2262 | A request by somebody else or on an ended Run changes nothing. |
| RunRecovery.FailuresAreKept | cloud/store.py:2213-2238 | Over every history the owner's failure stays, with its text cut to 8000 characters, or as a cancellation if one was requested; anybody else's is refused. |
| RunRecovery.LeasesLastExactly | cloud/store.py:2141-2156 | After a claim or an accepted heartbeat the worker owns the Run through every history in which it does nothing more about it and no reaper is past the lease of at least ten seconds; any reaper past that takes it. |
| RunRecovery.ClaimedColumns | cloud/store.py:2001-2067 | A claim is granted exactly if the Run is claimable, and then it is the next attempt, leased to the claimer, with its first start remembered. |
| RunRecovery.HeartbeatTells | cloud/store.py:2141-2156 | Taken from the owner of the running Run only, it moves lease and heartbeat and tells whether to stop. |
| RunRecovery.CompletionTells | cloud/store.py:2069-2139 | The owner's completion under a new message id completes the Run with that output, or ends it cancelled if that was requested, and says which. |
| RunRecovery.NotesAreKept | cloud/store.py:2292-2304 | A note stands behind what the stream held, under the next number, over every history. |
| RunWorkers.MoveKeeps | cloud/worker.py:52-171 | Every move of every worker, zombie or not, and of everybody else keeps: claims were made, attempts are held by one worker, an owned Run is at its owner's attempt. |
| RunWorkers.PlayKeeps | cloud/worker.py:52-171 | So does every interleaving. |
| RunWorkers.ZombiesOnlyLeaveNotes | cloud/store.py:2292-2304 | Whatever a worker or executor does for an attempt that is no longer the latest, every table stays as it was, but for notes its executor appends to the stream of its own Run, which the store accepts from anybody. |
| RunWorkers.ZombiesStayZombies | cloud/store.py:2001-2043 | Over every interleaving an attempt that is not the latest never is again. |
| RunWorkers.EmptySystemIsSound | cloud/worker.py:173-200 | The empty store with idle workers satisfies the invariant. |
| RunWorkers.OnlyTheLatestAttemptFinishes | cloud/store.py:2213-2238 | A worker's move ends a Run only if that worker owns it and holds its latest attempt. |
| RunWorkers.OtherRowsUntouched | cloud/store.py:2141-2175 | A worker's transaction leaves all other Runs alone, and changes its own only as owner, by claiming it, or by a note. |
| RunRound.RunOnce | cloud/worker.py:52-171 | One undisturbed round is a path of the worker machine; it claims a Run exactly if one is claimable, whichever the database picks, and that Run has ended when the round returns. |
| RunRound.Conclude | cloud/worker.py:124-151 | Completing, or recording the failure when the executor or the completion raises, ends the Run. |
| ScheduleFires.CreateKeepsLedger | cloud/store.py:860-910 | A planned job enters the accounting with nothing fired. |
| ScheduleFires.ClaimFromSteady | cloud/store.py:957-1003 | Skipping misfires and claiming changes no account; the claimed row has the claimer's lease and a token. |
| ScheduleFires.DeliverEffect | cloud/store.py:1022-1133 | A delivery by the owner either finds its token fired and changes nothing, or adds exactly that token's key, or is refused without effect. |
| ScheduleFires.DeliverKeepsLedger | cloud/store.py:1022-1133 | A delivery keeps deliveries equal to the repeats used up plus the open delivered fire. |
| ScheduleFires.SettleMoveKeepsLedger | cloud/scheduler.py:247-289 | Finishing, postponing and giving up keep that balance. |
| ScheduleFires.DeliverMarks | cloud/scheduler.py:247-275 | An answered delivery has fired its token, one that found the conversation busy has not. |
| ScheduleFires.MoveKeeps | cloud/scheduler.py:240-289 | Every move of the schedule workers and of everybody else keeps the invariant and the accounting. |
| ScheduleFires.PlayKeeps | cloud/scheduler.py:240-289 | So does every interleaving, with crashes, lapsed leases and re-claims. |
| ScheduleFires.FiresMatchRepeats | cloud/scheduler.py:240-289 | For a finite job deliveries = initial repeats - remaining + (1 if the open token was delivered); never more than the repeats, and exactly that many when completed. |
| ScheduleFires.FiredOnceForAll | cloud/store.py:1046-1090 | A token that fired stays fired over every play, and every later delivery of it, by anybody, changes nothing. |
| ScheduleFires.OneEffectPerToken | cloud/store.py:1022-1133 | Across the store a fire token stands on at most one message or at most one Run, never both. |
| FireContents.FiresSayWhatTheirJobsSay | cloud/store.py:1022-1133 | In every reachable state a message under a fire's key is the assistant's with the job's message, and the input of a Run under a fire's key is a user message with the job's prompt. |
| FireContents.FiredTokensWereSaid | cloud/store.py:1022-1133 | Every token counted as fired has its message, or its Run with its input, in the job's conversation. |
| MailContents.OthersDoNotDeliver | cloud/store.py:1031-1045 | Whoever does not hold the running fire under its token delivers nothing. |
| MailContents.InstantFireLandsIff | cloud/store.py:1048-1079 | The holder of a fresh instant fire stores its message exactly if the conversation has no queued or running Run; otherwise it is refused as busy without effect. |
| MailContents.SoftFireLands | cloud/store.py:1080-1133 | The holder of a fresh soft fire stores its prompt and queues a Run on it, whether the conversation is busy or not. |
| FireContents.CreationStoresThePlan | cloud/store.py:860-910 | A job is created exactly in the user's own conversation below ten active ones, and its columns are the arguments. |
| FireContents.FiresSayWhatWasScheduled | cloud/store.py:1022-1133 | From creation on, over every history, the fires of a job say the very texts it was created with. |
| JobLife.EndedJobsStayEnded | cloud/store.py:921-934 | Over every history a completed, cancelled, failed or missed job stays as it ended and fires no more. |
| JobLife.CancelledJobsNeverFire | cloud/store.py:921-934 | A job its user cancelled while pending stays cancelled, and no history adds a fire of it. |
| JobLife.AtMostTenActive | cloud/store.py:886-892 | In every reachable state a user has at most ten pending or running jobs. |
| JobLife.FinishedColumns | cloud/store.py:1135-1167 | The holder's finish stores status, repeats, next time and error, gives the lease back, and spends the token exactly if the job waits again. |
| JobLife.FirstCandidateIsClaimedIff | cloud/store.py:965-1003 | The first due candidate is leased to the claimer under its old token or the new one, unless it was never attempted and is more than 300 seconds late; then it is skipped or missed. |
| JobLife.SkippedIsNotRunning | cloud/store.py:976-992 | A late first attempt of a repeating job moves to the least slot past now or the next cron time, any other is missed. |
| JobLife.HeartbeatLeasesFire | cloud/store.py:1005-1020 | Accepted exactly from the worker and token that hold the running fire, and moves only the end of the lease. |
| JobLife.FireLeasesLastExactly | cloud/store.py:1005-1020 | A lease on a fire holds through every history in which its holder does nothing more and no claim is past its end; a sweep past it gives the fire back with its token. |
| ScheduleWorker.RunOnce | cloud/scheduler.py:240-289 | One undisturbed round over the store object is a path of the machine and keeps invariant and accounting. |
| ScheduleWorker.Settle | cloud/scheduler.py:248-261 | Decrement, next fire and status computed as in the machine; a refused finish is followed by a recorded failure. |
| SchedulePhase.MoveStaysOnGridIff | cloud/scheduler.py:240-289 | Every move of every worker keeps an interval job on its grid, but for an accepted postponement that lands off it. |
| SchedulePhase.PhaseIsKeptIff | cloud/scheduler.py:262-270 | Over any play an interval job is always due on the grid it started on if and only if no accepted postponement landed off that grid. |
| SchedulePhase.PostponingLeavesTheGrid | cloud/scheduler.py:262-270 | From the empty store, concretely: a ten-second job found busy is due at second five. |
| CloudSchedule.ChooseTiming | cloud/scheduler.py:59-101 | Which requests have a timing at all; and trigger, first fire, interval and repeat count as they were asked for, repeats kept within 1 and 1000. |
| CloudSchedule.PlanSchedule | cloud/scheduler.py:25-112 | A schedule is accepted exactly under the documented conditions; every accepted one has the trimmed texts and the timing asked for, can start the accounting and is due in the future. |
| Text.TrimmedOnce | cloud/scheduler.py:46-53 | What stripping a text yields is its only blank-free-ended middle part, so the stored message and prompt are determined. |
| CloudSchedule.NextRunAt | cloud/scheduler.py:306-318 | The loop ends and computes the next fire of the machine. |
| CloudSchedule.NextRunIsNextSlot | cloud/scheduler.py:306-318 | That fire is the least slot of the job's grid after both the present one and now. |
| LocalSchedule.ScheduledMessage.FireNow | agent/scheduler.py:266-329 | Firing changes the row as the transition function says, on all paths including a failed publish. |
| LocalSchedule.ScheduledMessage.RecoverAtStart | agent/scheduler.py:418-456 | Recovery changes the row as the transition function says; an answer of false means nothing changed. |
| LocalSchedule.EventKeepsPhase | agent/scheduler.py:308-323 | Each event, cancellations between collecting, publishing and saving included, keeps all due times on the grid of the first one, and no slot served twice. |
| LocalSchedule.ScheduledJobsStayInPhase | agent/scheduler.py:418-456 | Over any mix of fires, failures, cancellations, restarts and crashes an interval job is due only on slots of its first due time and serves no slot twice. |
| LocalSchedule.SendsMatchRepeats | agent/scheduler.py:300-324 | Messages sent = repeats used up + saves lost in crashes + one that is out and not yet saved; a finite job is completed exactly when no repeat is left. |
| LocalSchedule.ScheduledJobsSendTheirRepeats | agent/scheduler.py:131-244 | A finite job as scheduled sends, no save being lost, at most its repeats, and exactly these plus the lost saves when completed. |
| LocalSchedule.CancellationSilencesIff | agent/scheduler.py:255-264 | Whatever happens after a cancellation, no further message goes out if and only if the loop does not hold the job in a list of due jobs collected before. |
| LocalSchedule.CancellationLastsIff | agent/scheduler.py:255-329 | Whatever happens after a cancellation, the row stays cancelled if and only if the loop is not about the job, or its message is out and settling it moves the job on: by interval with a repeat left, or by a cron text that has a next fire at every later time. |
| LocalSchedule.CancellationLastsIffWithoutCron | agent/scheduler.py:255-329 | The same without a cron text, where the row alone decides. |
| LocalSchedule.CancelledButSent | agent/scheduler.py:114-123 | From a job as scheduled, concretely: cancelled after it was collected, its message goes out. |
| LocalSchedule.CancelledInFlight | agent/scheduler.py:266-329 | From a job as scheduled, concretely: cancelled while being published for the last time, it ends completed, or failed when publishing fails. |
| LocalSchedule.CrashRepeatsIff | agent/scheduler.py:418-456 | A restart after a message went out unsaved leaves the same slot due if and only if the row is pending, has no next slot by interval, and is within the grace, or its cron text names the same instant. |
| LocalSchedule.NextSlotAfterRestart | agent/scheduler.py:444-455 | Otherwise an interval row has moved to its next slot past the restart, and a row without one is missed exactly beyond the grace. |
| LocalSchedule.FireColumns | agent/scheduler.py:266-329 | A failed send ends the job where it stood; a sent one uses up a repeat and waits for the least later slot or the next cron time, or is completed exactly when nothing is left to repeat. |
| LocalSchedule.CrashRepeatsOneShot | agent/scheduler.py:418-456 | From a job as scheduled, concretely: a one-shot message sent twice over a crash within the grace. |
| LocalSchedule.NoBurst | agent/scheduler.py:418-456 | After a fire or a restart a repeating interval job is not due at once. |
| AutomationTicks.HistoryKeepsTicks | cloud/store.py:1655-1710 | In every history a tick token belongs to one conversation only. |
| AutomationTicks.OneMessagePerTick | cloud/store.py:1784-1850 | In every reachable state there is at most one message per source and tick token. |
| AutomationTicks.OneEnabledPerUser | cloud/store.py:1459-1543 | In every reachable state at most one automation of a user is enabled, and only an enabled one with a token is leased. |
| AutomationTicks.TokenSurvives | cloud/store.py:1687-1710 | Every transaction but an error-free finish and a reconfiguration leaves the token in place, revocation by user input included. |
| AutomationTicks.TokenSurvivesHistory | cloud/automation.py:124-186 | So every retry of an uncleared tick sees the same token. |
| AutomationTicks.BackgroundLandsOnlyWhenIdle | cloud/store.py:1784-1850 | Of all transactions only an append by the holder of the tick lands a background message, and only while no Run of the conversation is queued or running. |
| AutomationTicks.PassiveWorkGoesFirst | cloud/store.py:1819-1834 | Through every history in which a Run of the conversation is always queued or running no background message lands in it. |
| AutomationTicks.UserInputFences | cloud/store.py:1947-1954 | Through every history behind a message from the user in which nobody is granted the automation anew, nobody owns its tick and no background message lands. |
| TickLeases.TickIsLeasedIff | cloud/store.py:1655-1685 | A tick is leased exactly if it is enabled, due, not under a running lease and without queued or running Runs; it keeps a token it has. |
| TickLeases.HeartbeatLeasesTick | cloud/store.py:1712-1734 | Accepted exactly from the holder under the tick's token, and moves only the end of the lease. |
| TickLeases.FinishedTick | cloud/store.py:1687-1710 | The holder gives the tick back until its next time; the token is cleared exactly without an error. |
| TickLeases.UserInputRevokes | cloud/store.py:1946-1953 | A message taken from the user clears the lease of its conversation's automation, makes it due at once and keeps its token; no other automation changes. |
| TickLeases.ConfiguredColumns | cloud/store.py:1459-1543 | The configured automation starts over, and the user's other enabled ones are switched off without lease or token, if anything was switched on. |
| TickLeases.TickLeasesLastExactly | cloud/store.py:1655-1734 | Through every history that spares it no claim gets a leased tick before the lease ends, and from its end on one does as soon as the tick is free otherwise. |
| AutomationRound.Dispatch | cloud/automation.py:49-63 | A dispatched message goes through the tick's lease under the source its metadata names. |
| AutomationRound.RunOnce | cloud/automation.py:124-186 | One undisturbed round is a history of store transactions that gives the lease back; the token is cleared exactly without error and otherwise stays the one of the earlier attempt, and the next tick is set accordingly. |
| CloudStoreTables.CloudStore.AppendRunEvent | cloud/store.py:1289-1310 | The event is appended with the highest stored number plus one. |
| CloudStoreTables.CloudStore.AppendUserMessageAndRun | cloud/store.py:1872-1990 | All refusals, the replay of a known idempotency key, and otherwise message, queued Run and revoked tick lease together, leaving every other table as it was. |
| CloudStoreTables.CloudStore.IngestChannelMessage | cloud/store.py:667-784 | A known event id answers its first message; otherwise message, queued Run and event record are stored together or refused without effect. |
| CloudStoreTables.CloudStore.CommitClaim | cloud/store.py:2001-2043 | A Run still queued, in a conversation with none running, becomes running under the worker with a new attempt and a start event; otherwise nothing changes and no Run is answered. |
| CloudStoreTables.CloudStore.CompleteRun | cloud/store.py:2069-2139 | The owner appends the output and completes the Run, or ends it cancelled without output when that was requested; anyone else is refused without effect. |
| CloudStoreTables.CloudStore.HeartbeatRun | cloud/store.py:2141-2156 | The owner extends the lease and learns whether cancellation was requested; anyone else is refused without effect. |
| CloudStoreTables.CloudStore.CancelOwnedRun | cloud/store.py:2158-2175 | The owner ends the Run cancelled with its event; anyone else is refused without effect. |
| CloudStoreTables.CloudStore.RequeueExpiredRuns | cloud/store.py:2177-2211 | The loop over locked expired rows requeues exactly these, or ends them cancelled where requested, and counts them. |
| CloudStoreTables.CloudStore.FailRun | cloud/store.py:2213-2238 | The owner ends the Run failed with the clipped error, or cancelled when that was requested; anyone else is refused without effect. |
| CloudStoreTables.CloudStore.RequestCancel | cloud/store.py:2240-2262 | A queued Run ends cancelled, a running one keeps running with the request recorded, an ended one stays; other users are refused. |
| CloudStoreTables.CloudStore.AppendRuntimeRunEvent | cloud/store.py:2292-2304 | A note is appended with the next number and changes nothing else of the Run. |
| CloudStoreTables.CloudStore.CreateScheduledJob | cloud/store.py:860-910 | Creates a pending job under the limit of ten active ones per user, in a conversation of the user, or refuses without effect. |
| CloudStoreTables.CloudStore.CancelScheduledJob | cloud/store.py:921-934 | Cancels a pending job of the user; any other status is refused. |
| CloudStoreTables.CloudStore.SweepLapsed | cloud/store.py:942-956 | The loop gives exactly the locked lapsed leases back, keeping their tokens. |
| CloudStoreTables.CloudStore.ClaimNextScheduledJob | cloud/store.py:936-1003 | After the sweep the loop over due rows skips misfires and leases the first other one, keeping a token it already has. |
| CloudStoreTables.CloudStore.HeartbeatScheduledJob | cloud/store.py:1005-1020 | Extends the lease of a fire for the worker and token that hold it, and refuses everyone else. |
| CloudStoreTables.CloudStore.DeliverScheduledJob | cloud/store.py:1022-1133 | For the holder of the fire: a known key answers at once; an instant job in a busy conversation is refused; otherwise one message, or one message with its Run, is stored under the token. |
| CloudStoreTables.CloudStore.FinishScheduledJob | cloud/store.py:1135-1167 | For the holder: status, remaining, next due time and error are stored, the lease given back, and the token cleared exactly if the job is pending again. |
| CloudStoreTables.CloudStore.ConfigureAutomation | cloud/store.py:1459-1543 | The loop over the user's other automations disables exactly these before the new one is set. |
| CloudStoreTables.CloudStore.ClaimNextAutomation | cloud/store.py:1655-1685 | Leases a due automation whose conversation is idle, keeping a token it already has; otherwise nothing changes. |
| CloudStoreTables.CloudStore.FinishAutomation | cloud/store.py:1687-1710 | For the lease owner: next tick and error are stored and the lease given back; the token is cleared exactly if there was no error. |
| CloudStoreTables.CloudStore.HeartbeatAutomation | cloud/store.py:1712-1734 | Extends the lease for the worker and token that hold it, and refuses everyone else. |
| CloudStoreTables.CloudStore.AppendAutomationMessage | cloud/store.py:1784-1850 | For the holder of the tick: a known source and token answer at once, a busy conversation is refused, otherwise one message is stored. |
| CloudStoreTables.CloudStore.EnqueueChannelPush | cloud/store.py:623-665 | One message under a new key, if the target is linked and the conversation exists. |
| CloudStoreTables.CloudStore.DeliverSubagentResult | cloud/store.py:544-564 | One message per background task, keyed by the task. |
| MailContents.NewMessageIsTakenIff | cloud/store.py:1872-1970 | Under an unused key a message is taken exactly if it has text or found files, a key of at most 128 visible characters or none, and a conversation of its own; it is stored last under the next number with its text, and a new Run is queued on it. |
| MailContents.ResendingStoresNothing | cloud/store.py:1887-1903 | Once a keyed message was answered, sending anything under the key again after any history stores nothing and gets the same message and Run; in another conversation it is a conflict. |
| MailContents.NewEventIsStored | cloud/store.py:667-762 | A new channel event is stored with its text for the linked user, queued, and recorded, or nothing changes. |
| MailContents.EventsArriveOnce | cloud/store.py:679-693 | After any history an answered channel event gets its first message again and stores nothing. |
| MailContents.PushedIsStored | cloud/store.py:623-665 | A push appends one assistant message with its text and touches no Run, or changes nothing. |
| MailContents.AutomationMessageIsStored | cloud/store.py:1784-1850 | Under an unused source and token, one assistant message with the given text and key is appended, or nothing changes. |
| MailContents.SubagentResultIsStored | cloud/store.py:544-564 | A task's result is appended as an assistant message with its text under the task's key, or nothing changes. |
| MailContents.ResultsArriveOnce | cloud/store.py:544-564 | Over every history after a stored result, a further result of the same task is refused without effect. |
| MailContents.MessagesAreForever | cloud/store.py:1926-1954 | From any reachable state on, every message keeps its place, number and text. |
| ToolCheckpoints.CheckpointStore.BeginToolCheckpoint | cloud/store.py:1212-1256 | Fencing a slot answers new, replay, ambiguous or diverged, and only new changes a row. |
| ToolCheckpoints.CheckpointStore.FinishToolCheckpoint | cloud/store.py:1258-1287 | Recording is refused exactly when the slot is missing or has another signature. |
| ToolCheckpoints.PreToolUse | cloud/tool_checkpoints.py:35-64 | The body may run only if the slot had no row at all. |
| ToolCheckpoints.PostToolUse | cloud/tool_checkpoints.py:66-75 | With the arguments the body ran with: recorded exactly if the slot has their signature, and then the same call is answered with this outcome; otherwise nothing changes. |
| ToolCheckpoints.StepKeeps | agent/tool_hooks/__init__.py:87-170 | Every step of every attempt, with later hooks that rewrite, add to or stop a granted call, raising hooks and swallowed refusals, keeps: one execution per slot, finished rows tell what it produced, entries agree with the rows as far as they were recorded. |
| ToolCheckpoints.ToolBodiesRunAtMostOnce | cloud/store.py:1212-1287 | Over all interleavings of attempts, crashes, aborts and interfering hooks a tool body runs at most once per slot. |
| ToolCheckpoints.RecordingSucceedsIff | cloud/store.py:1258-1287 | Recording succeeds if and only if the store is reached and no later hook left other arguments than those granted. |
| ToolCheckpoints.RewrittenCallIsNotRecorded | agent/tool_hooks/__init__.py:97-118 | The rewriting hook, concretely: the body runs, the model sees its outcome, no row records it, and a retry is turned away. |
| ToolCheckpoints.SeesOneCrashFreeRunIff | cloud/tool_checkpoints.py:35-75 | What an attempt whose checkpoint hook never raised has seen is what a single uninterrupted attempt would see, the tools answering as recorded, if and only if every entry was replayed, or performed under the granted arguments with nothing added and recorded. |
| ToolCheckpoints.RaisesAgreeByChanceOnly | agent/tool_hooks/__init__.py:102-113 | In general an entry for which the checkpoint raised agrees only where its error happens to be what somebody recorded there. |
| ToolCheckpoints.RetriesAgreeIff | cloud/tool_checkpoints.py:35-75 | A retry that decides alike has seen the same history as the attempt it replaces, as far as both got and while no checkpoint hook raised, if and only if no later hook added messages for either. |
| ToolCheckpoints.NoteMakesRetriesDiffer | agent/tool_hooks/__init__.py:152-168 | Concretely: a hook adds a note behind the body; the first attempt has seen it, the retry has not. |
| ToolCheckpoints.SeenOutcomesHaveSources | agent/tool_hooks/__init__.py:87-170 | Replayed and performed entries show, up to added messages, what the one execution of their slot produced; where a later hook stopped the call no body ever ran. |
| ToolSlots.SlotsAreExact | cloud/store.py:1229-1242 | Two calls share a slot exactly if Run, iteration and call index agree, negative numbers counting as zero. |
| ToolSlots.OtherCallsAreUnaffected | cloud/store.py:1226-1256 | Beginning one call leaves the answer to every other call as it was. |
| ToolSlots.OtherRecordsAreUnaffected | cloud/store.py:1258-1287 | Recording what a call produced leaves them as they were, too. |
| ToolSlots.SecondAnswer | cloud/store.py:1251-1256 | A call begun twice is ambiguous under the same signature and diverged under another. |
| ToolSlots.CountingIsApart | cloud/tool_checkpoints.py:39-53 | A model that numbers its calls by its steps never repeats a pair of numbers. |
| ToolSlots.LoneAttemptsAreNeverTurnedAway | cloud/tool_checkpoints.py:39-70 | The only attempt at a Run that does not crash, with its calls numbered apart, is answered new for every call that asked, over every interleaving with other Runs and whatever its hooks do. |
| ChatLane.SkipStopsAtFirstLive | bus/queue.py:97-103 | The skip loop ends at the first ticket not cancelled and drops just the cancelled ones before it. |
| ChatLane.LaneState.SkipCancelled | bus/queue.py:97-103 | The loop terminates and computes the skip. |
| ChatLane.LaneState.MarkPassiveSendPending | bus/queue.py:67-74 | Issues the next passive ticket and counts it as pending. |
| ChatLane.LaneState.TryPassive | bus/queue.py:83-88 | A passive task is admitted exactly on its turn with nothing sending. |
| ChatLane.LaneState.FinishPassive | bus/queue.py:89-95 | The end of a passive send, failed or not, passes the turn on. |
| ChatLane.LaneState.Join | bus/queue.py:115-129 | A ticket is drawn and the guard judged after skipping. |
| ChatLane.LaneState.Retry | bus/queue.py:120-129 | A woken task is admitted exactly if nothing sends, nothing passive is pending, and its ticket is served. |
| ChatLane.LaneState.Leave | bus/queue.py:131-141 | Leaving serves the next live ticket, after a send as after a cancellation. |
| ChatLane.StepKeeps | bus/queue.py:55-141 | Every step keeps: tickets, counters and the cancelled set agree with the tasks, and no sleeping task could be sending. |
| ChatLane.RunKeeps | bus/queue.py:55-141 | So does every run, whenever waiting non-passive tasks are cancelled. |
| ChatLane.NothingToSkip | bus/queue.py:118-128 | An arriving or woken task finds nothing to skip: the served ticket is live. |
| ChatLane.SendsExclude | bus/queue.py:76-141 | At most one send per chat is in flight in every reachable state. |
| ChatLane.OthersYield | bus/queue.py:119-127 | A non-passive send starts only with no passive turn open, every passive ticket sent, and all earlier tickets settled. |
| ChatLane.SendClampNeverFires | bus/queue.py:89-95 | Pending passive sends are exactly next minus serving, and the clamp on them never has an effect. |
| ChatLane.TurnsAreBalancedIff | bus/queue.py:55-65 | The turn counter is turns begun minus turns ended if and only if no turn was ended while none was open. |
| ChatLane.SomeoneCanAdvance | bus/queue.py:55-141 | Deadlock freedom: with no turn open some task that is not asleep can advance while any ticket is unsettled; an open turn never blocks passive sends. |
| ChatLane.WorkCountsUnsettled | bus/queue.py:55-141 | The remaining work is never negative, and zero exactly if every ticket is settled. |
| ChatLane.AdvancingLowersWork | bus/queue.py:55-141 | Every advancing step lowers it, so a lane without arrivals runs dry. |
| ChatLane.SettledForGood | bus/queue.py:131-141 | A non-passive ticket is sent or cancelled once and stays so. |
| ChatLane.SendsStartInTicketOrder | bus/queue.py:67-141 | In every run passive sends start as 0, 1, 2, … and the others in strictly increasing ticket order. |
| RunStream.DurableRunStreamBridge.OnDelta | cloud/run_stream.py:45-69 | A piece is accepted as the function says, with the flushes on switch and on size. |
| RunStream.DurableRunStreamBridge.FlushLocked | cloud/run_stream.py:124-135 | Buffer and timer are taken away and what was buffered is written once. |
| RunStream.DurableRunStreamBridge.OnToolStarted | cloud/run_stream.py:71-80 | Buffered output is written before the tool start. |
| RunStream.DurableRunStreamBridge.DelayedFlush | cloud/run_stream.py:113-122 | A timer flushes its Run. |
| RunStream.DurableRunStreamBridge.Close | cloud/run_stream.py:101-111 | Shutdown writes every buffer, loses nothing, and leaves no registered timer alive. |
| RunStream.FlushConserves | cloud/run_stream.py:124-135 | A flush changes no Run's output, stored and buffered together. |
| RunStream.AcceptConserves | cloud/run_stream.py:45-69 | An accepted piece appears once, at the end, in its own Run, marked with its own iteration. |
| RunStream.WritesOnlyWhenDue | cloud/run_stream.py:45-69 | A piece writes what another iteration left over, and its own buffer as one event exactly when that reaches the limit; otherwise it waits with a timer. |
| RunStream.StepKeeps | cloud/run_stream.py:45-135 | Every step keeps conservation, a living timer for every buffer, buffers under the flush size, and output before tools. |
| RunStream.RunKeeps | cloud/run_stream.py:45-135 | So does every run, even if cancelled timers still fire. |
| RunStream.QuietMeansStored | cloud/run_stream.py:113-135 | When no timer is alive all accepted output is stored. |
| RunStream.OutputPrecedesTools | cloud/run_stream.py:71-80 | All output accepted before a tool started stands before its start in the stream. |
| Restart.RestartCoordinator.ArmRestart | agent/restart.py:155-206 | Arming refuses, repeats or creates a request exactly as documented, and freezes only when it creates. |
| Restart.RestartCoordinator.MarkTurnTerminal | agent/restart.py:208-221 | The end of a turn counts, cancels or is ignored. |
| Restart.RestartCoordinator.MarkDelivered | agent/restart.py:223-232 | A delivery counts for the pending turn only. |
| Restart.RestartCoordinator.MarkDeliveryFailed | agent/restart.py:234-242 | A failed delivery cancels the pending turn's request only. |
| Restart.RestartCoordinator.TryCommit | agent/restart.py:253-271 | One frame is written once both conditions hold; a failed write cancels. |
| Restart.RestartCoordinator.Cancel | agent/restart.py:273-288 | Cancelling clears the request and resumes admission once. |
| Restart.RestartCoordinator.WatchdogFires | agent/restart.py:290-297 | A watchdog acts only for its own request. |
| Restart.EventKeeps | agent/restart.py:155-297 | Every event, late watchdogs included, keeps: frozen exactly while pending, a running watchdog of its own while uncommitted, one whole frame exactly if committed. |
| Restart.CommittedIsFinal | agent/restart.py:208-271 | Nothing changes a committed coordinator. |
| Restart.WatchdogsEndTheirOwn | agent/restart.py:290-297 | Any watchdog ever started changes something if and only if its own request is pending, and then ends just that. |
| Restart.OldWatchdogsAreHarmless | agent/restart.py:290-297 | No watchdog started before a request was armed ends it, in any state the request lives to see. |
| Restart.OnlyItsOwnWatchdogCouldUndoACommit | agent/restart.py:266-271 | A committed coordinator could be changed by one event only, its own watchdog, and that one is cancelled. |
| Restart.OneEarnedFramePerBoot | agent/restart.py:155-297 | At most one whole frame per boot; every frame follows, after its request was armed, the turn's completion and its delivery; each freeze is matched by at most one resume. |
| Restart.ArmsIff | agent/restart.py:155-206 | Armed exactly if supervised and bound with nothing pending, a reason of 1 to 300 characters, a turn with its context, and quiet admission; otherwise nothing changes. |
| Restart.OthersDoNotInterfere | agent/restart.py:208-297 | While a request waits, no sequence of arms, of events of other turns and of other watchdogs changes anything. |
| Restart.EarnedRestartsCommit | agent/restart.py:208-271 | A granted request whose turn completed and whose answer was delivered, in either order, commits with its one frame if the write is whole; a failed write lets go of it and resumes admission. |
| Restart.UnearnedRestartsAreGivenUp | agent/restart.py:208-297 | A failed turn, a failed delivery or the own watchdog of a request ends it, and admission resumes. |
| Supervisor.WaitChild | agent/supervisor.py:203-253 | The polling loop reports lateness, readiness and the validity of everything received, exactly. |
| Supervisor.RunSupervisor | agent/supervisor.py:105-196 | The loop awaits each child by the polling loop and starts a new generation only after a renewal, for which a round showed its own boot and pid ready and its pipe held one line genuine for its own boot and nonce; payloads of different boots differ; otherwise it ends with the last life's exit code. |
| Supervisor.VerdictInNumbers | agent/supervisor.py:180-201 | Zero when stopped, the child's code, 128 plus the number of the signal that killed it, and 70 for a child late or without proof of its restart. |
| Supervisor.OneLine | agent/supervisor.py:277-291 | One frame with its line end is one line. |
| Supervisor.RenewalWasEarned | agent/supervisor.py:189-196 | If a child is renewed whose pipe holds what its coordinator wrote, some armed turn of it had completed and delivered. |
| Supervisor.AcceptedMeansCommittedIff | agent/restart.py:89-108 | The coordinator behind an accepted pipe is committed if and only if no write was torn of just its line end. |
| Supervisor.FrameWithoutLineEndIsAccepted | agent/restart.py:104-108 | Concretely: a frame torn of just its line end, the coordinator gave up, the pipe is accepted. |
| Supervisor.CommitIsHonouredIff | agent/supervisor.py:277-291 | The pipe of a committed child is valid if and only if every write torn before the commit left no character. |
| Supervisor.TornThenWholeIsRefused | agent/restart.py:104-108 | Concretely: a frame torn after at least one character, then a whole one; committed, and refused. |
| Supervisor.CommittedChildIsRenewedIff | agent/supervisor.py:189-196 | A committed child that was ready in time and exits with the restart code is renewed just when no torn write left a trace. |
| Supervisor.FlatFramesAreUnambiguous | agent/restart.py:92-103 | Frames written as flat objects, read by a parser of flat objects, leave no fragment that could be taken for a frame. |
| PendingLedger.FactsOfJoined | cloud/markdown_memory.py:117-149 | Joining documents by a line break keeps their facts, in order. |
| PendingLedger.FactsOfTrimmed | cloud/markdown_memory.py:233-249 | Trimming a document's end keeps its facts. |
| PendingLedger.MarkdownStore.AppendPendingOnce | cloud/markdown_memory.py:79-112 | Accepts a nonblank fact text once per source and kind. |
| PendingLedger.MarkdownStore.SnapshotPending | cloud/markdown_memory.py:117-149 | Takes pending over, in front of it any snapshot left over. |
| PendingLedger.MarkdownStore.RollbackPendingSnapshot | cloud/markdown_memory.py:154-173 | Puts the snapshot back in front of what is pending. |
| PendingLedger.AppendAddsFacts | cloud/markdown_memory.py:233-249 | An append adds exactly its facts at the end. |
| PendingLedger.MergeKeepsFacts | cloud/markdown_memory.py:122-133 | Merging a snapshot with pending keeps the facts of both, in order. |
| PendingLedger.NothingIsLost | cloud/markdown_memory.py:79-173 | Over any sequence of operations, facts appended = committed, then in the snapshot, then pending. |
| PendingLedger.EachSourceOnce | cloud/markdown_memory.py:79-112 | Over any sequence each source and kind is accepted at most once. |
| PendingLedger.AcceptedIff | cloud/markdown_memory.py:79-112 | After any run an append is accepted exactly if facts, source and kind are not blank and no earlier one with facts named both the same source and the same kind. |
| PendingLedger.LedgerFromTheStart | cloud/markdown_memory.py:79-173 | Both from the empty profile on. |
| PendingLedger.SnapshotIsWhatCommits | cloud/markdown_memory.py:117-152 | What a snapshot hands out is what a later commit counts as done. |
| PendingLedger.RollbackUndoesSnapshot | cloud/markdown_memory.py:117-173 | After a rollback all facts are pending again, as if no snapshot had been taken. |
| RateLimit.RateStore.ConsumeRateLimit | cloud/store.py:2306-2360 | The counter method is the transaction, and the waiting time is at least a second. |
| RateLimit.PlayKeepsCount | cloud/store.py:2315-2353 | Each counter is the number of grants in its window and within the limit, whatever other buckets do. |
| RateLimit.AtMostTwiceTheLimit | cloud/store.py:2315-2353 | At most the limit per aligned window, and at most twice that in any interval of a window's length. |
| RateLimit.RemainingIsExact | cloud/store.py:2324-2353 | Remaining plus granted is the limit, and a call is granted exactly if the window has room. |
| RateLimit.WaitingAsToldHelps | cloud/store.py:2317-2320 | Waiting as told lands on the start of the next window, where an unused bucket is granted. |
| RateLimit.SharedBucketIff | cloud/store.py:2319-2331 | Two callers share a counter exactly if the first 256 characters of their subjects and the first 64 of their scopes agree. |
| RateLimit.OtherBucketsAreUnaffected | cloud/store.py:2323-2331 | A call on one counter leaves the answer of every other as it was. |
| RateLimit.FirstCallIsGranted | cloud/store.py:2332-2341 | Whatever others did, a caller's first call is granted with the rest of its limit left. |
| RankFusion.RrfMerge | memory2/retriever.py:522-574 | Refused exactly if a hit lacks id or score; otherwise the top-n of both lanes in the final order, each entry the chosen hit of its id. |
| RankFusion.FirstRanks | memory2/retriever.py:531-545 | The first rank of every id in a lane. |
| RankFusion.Represent | memory2/retriever.py:547-557 | Each id is represented by its last vector hit, else its last keyword hit with a normalised score. |
| RankFusion.ByScoreIsStable | memory2/retriever.py:533-536 | The vector lane is ranked by score and equal scores keep their order. |
| RankFusion.TopIsUnique | memory2/retriever.py:559-568 | A top-n list is unique: no tie survives. |
| RankFusion.OrderDoesNotShow | memory2/retriever.py:559-568 | However the set of ids is walked, the result is the same. |
| RankFusion.Dominance | memory2/retriever.py:560-566 | A candidate no worse in both lanes and better in one comes first. |
| FusionRules.LexIsDictionaryOrder | memory2/retriever.py:568 | Ids are compared by code points: a proper prefix or the smaller character at the first difference comes first. |
| FusionRules.FusedListInNumbers | memory2/retriever.py:522-574 | Every entry is the last vector hit of its id, or the last keyword hit under its own or its keyword score, with 1/(60+rank) and 0.5/(60+rank) added; entries follow by that, then score, then id. |
| FusionRules.VectorBeatsKeywordIff | memory2/retriever.py:559-566 | A vector-only hit at rank p beats a keyword-only one at rank q exactly if p < 60 + 2q, and ties at equality. |
| FusionRules.BothLanesBeatOne | memory2/retriever.py:559-566 | Being found by both lanes beats being found by one at the same rank. |
| RankFusion.RememberVectorHit | memory2/retriever.py:454-463 | The best hit of an id stays, the earlier one on a tie; raises exactly without an id or when a needed comparison lacks a score. |
| RankFusion.RememberBest | memory2/retriever.py:179-184 | Over all lanes one hit per id, the best, in order of first appearance; raises exactly if two hits cannot be merged. |
| InjectionBlock.SelectSections | memory2/retriever.py:279-380 | Of each class the best hits up to its cap and no others, with the lines of just those; raises exactly if a hit has no score. |
| InjectionBlock.CapsHold | memory2/retriever.py:312-345 | No class exceeds its cap, for every candidate list. |
| InjectionBlock.ApplyCharBudget | memory2/retriever.py:415-439 | The running total is the length of the joined text; text and ids are those of the parts taken. |
| InjectionBlock.BudgetHolds | memory2/retriever.py:428-433 | The text exceeds the limit only when it is a forced section alone. |
| InjectionBlock.NothingThatFitsIsDropped | memory2/retriever.py:428-433 | A part left out would not fit behind the final text. |
| InjectionBlock.ReportedIds | memory2/retriever.py:434-439 | Ids reported are exactly the non-empty ids of included sections. |
| InjectionBlock.BuildInjectionBlock | memory2/retriever.py:266-273 | The whole: the greedy text, its bound, and its ids, each once. |
| InjectionRules.SelectedIff | memory2/retriever.py:306-342 | Only forced rules and hits at or above their kind's threshold are selected; an eligible one is left out only if its class is at its cap with hits that score no less. |
| InjectionRules.SelectionIsBounded | memory2/retriever.py:306-342 | Each class selects hits only, and no more than its cap. |
| InjectionRules.SelectionIsBest | memory2/retriever.py:279-380 | What the loop selects is the best of the three classes together. |
| InjectionRules.AtLeastOne | memory2/retriever.py:71-75 | However low the caps are set, an eligible rule or norm gets in, and the text may have 200 characters. |
| InjectionRules.LinesAreWritten | memory2/retriever.py:321-378 | A section has exactly the lines of its hits whose summary is not blank. |
| InjectionRules.SectionReadsBack | memory2/retriever.py:382-413 | Split at line ends, a section is its title and its lines in order, and its ids are the non-empty ones of its lines. |
| InjectionRules.SectionsStandInOrder | memory2/retriever.py:382-413 | Forced rules, norms and history stand in this order under their own titles, empty ones left out. |
| InjectionRules.ForcedIsAlwaysThere | memory2/retriever.py:415-440 | A leading forced section is in the text, however long it is. |
| InjectionRules.TakenOneByOne | memory2/retriever.py:415-440 | Sections are taken or dropped one by one, in their order. |

## Left out

- HTTP routes, user interfaces, channel adapters, credentials, model calls, embeddings, metrics and logging.
- SQL: every store method is one serialised transaction. The busy checks (cloud/store.py:1483-1494, 1819-1834) and the first-row races of `_locked_document` and `consume_rate_limit` hold only under that assumption; in particular, two first appends racing to create a user's pending document can make `append_pending_once` answer false without appending.
- UUIDs are taken as new when minted (`StoreSpec.Lawful`), and a schedule worker finishes a fire as pending, completed or failed, the only states `run_once` passes.
- Idempotency keys of clients, channels, schedules and automations are kept apart as different constructors; a client key that spells a generated one is not modelled, and a channel key is clipped to 120 characters of provider and event.
- Start order of Runs: `skip_locked` lets a newer Run of a conversation start first, so no order is claimed.
- Deleting users or conversations, which removes rows, and the other tables of the store (files, links, plugins, skills, background tasks apart from their message, worker liveness, channel deliveries).
- Conversation metadata, the consolidation mark and timestamps that no decision reads.
- Cron evaluation, dates, durations and time zones are parameters; a cron step in the cloud scheduler is taken to succeed.
- RunRound.RunOnce: nothing happens between its transactions; interference, stalls and abandonment are in the machine of `RunWorkers`. The loop `run_forever` around it is there as repeated moves.
- ScheduleWorker.RunOnce: nothing happens between its transactions; interference is in the machine of `ScheduleFires`.
- AutomationRound.RunOnce: nothing happens between its transactions but its own; renewals of the lease are left to the histories, and a refused dispatch ends the tick.
- CloudStoreTables.CloudStore.ClaimNextScheduledJob: asks that a repeating job has a cron text or a positive interval, as every created one has; without either the original's loop would not end.
- Restart.RestartCoordinator.ArmRestart: the constructor's checks of its arguments are not modelled; the commit channel exists exactly when the process is supervised.
- Lanes of different chats: they share nothing, so one lane stands for all.
- Cross-conversation clean-up when the automation target switches (cloud/store.py:1483-1524), the inbox of proactive events, and the engine behind a tick.
- ToolCheckpoints.RecordingSucceedsIff: attention marks, which the hook never records, and the rendering of results as text are not modelled. Hashing is taken as injective, and the checkpoint hook as the first of the chain, as it is registered.
- ToolCheckpoints.RetriesAgreeIff: compared while no checkpoint hook raised; a raise shows its own error, and an attempt that saw one has asked nothing of the record.
- ToolCheckpoints.PreToolUse: a begin that raises for another reason than a missing Run is a step of the machine, not of this method.
- Cancellation of a passive send while it waits: `run_passive` does not handle it (bus/queue.py:84-87), and the lane would stop. Each `finally` block of the lane is one step.
- The receipts of `publish_outbound_and_wait` and the subscribers a message is handed to; for the lane, publishing issues a passive ticket and dispatching runs it.
- RunStream.RunKeeps: appends to the store succeed; a failed append loses the buffer it was flushing. An asynchronous lock per Run makes accepting and flushing single steps.
- The signals, locks, process handling and file formats of the supervisor; reading JSON is a parameter. A child whose frame is not valid UTF-8 makes the supervisor fail, which is not modelled.
- Supervisor.RunSupervisor: the lives of children, with what each round of polling observes, are a given script, so that the loop can be followed to any length.
- Supervisor.CommitIsHonouredIff: asks of the parser that fragments in front of a frame are not genuine, and of the renderer that frames parse back; `FlatFramesAreUnambiguous` gives frames and parsers of which the first holds. That a child exits with the restart code only when committed is up to its own main program.
- Restart.WatchdogsEndTheirOwn: any watchdog may fire late but the one its own commit cancelled; that this one is stopped in its sleep is what the event loop promises.
- PendingLedger.NothingIsLost: `clear_pending`, which drops facts on purpose, is not among the operations, and one user's documents stand for all.
- LocalSchedule.SendsMatchRepeats: cron jobs have no grid, and a job edited by hand in the file need not satisfy what `schedule` guarantees. Parsing the file and its row-by-row recovery are not modelled.
- RankFusion.RrfMerge: scores are real numbers, so rounding and values that are not numbers are not modelled.
- InjectionBlock.SelectSections: how a line is written is a parameter, with the confidence label, the steps of a procedure and its errors.
- Undoing memories by message source, and the completeness of the live event feed: the claims one would want do not hold under interleaving (cloud/api.py:792-807, cloud/memory_store.py:843-924).
