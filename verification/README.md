# heos-control, verified

`heos-control` drives one HEOS speaker over a protocol whose notifications carry no
origin, whose readback lags behind its replies, and which other controllers use at the
same time. This project models the parts of it that decide anything under those
conditions, and proves what they are for:

- `Heos`: the shared values (snapshots, queues, tokens, mutations, notifications).
- `Client`: the counters behind the observation token, and why a used guard never matches again.
- `Delivery`: the race between a caller and the connection owner over one request.
- `Observer`, `ObserverRuns`: the event-maintained cache, and its agreement with a plain
  replay of the evidence in every interleaving; `Publishing`: what the guard of its early
  confirmation says.
- `Queue`, `Buffered`: exact native queue evidence, and the admission arithmetic of a
  manifest streamed through a bounded queue.
- `Playback`: the worker that writes, appends, prunes and navigates.
- `QueueStart`, `Transition`, `Scalar`: the three confirmation machines.
- `Journal`, `JournalRuns`: admission, transitions, epoch recovery and retention, over runs
  of any number of stores.
- `Lane`, `SkipChild`: who may write to one player, and the child command passed to a
  running worker.
- `Envelope`, `Broker`, `Paging`: the volume envelope, the replaying event broker, and
  bounded page traversal.

Each mutex-protected section and each journal transaction is one atomic step. Reads,
clocks, the journal's availability, the socket and cancellation are inputs: every theorem
holds for all of their values. Times are integers, `None` where the code uses the zero
time; counters are unbounded naturals. Methods that change state are proved against
functions of the old state, and the theorems are about those functions and all runs of them.

`dafny verify dfyconfig.toml` checks the whole project.

## What the proofs found

Some promises in the code's comments or structure hold only under a condition, which is
stated and proved exactly:

- Publishing a scalar confirmation does not transfer the play state. Under the obligation
  written on it the four scalars always agree with the evidence, and the state does if and
  only if the last unconsumed state notification carries the cached one
  (`ObserverRuns.ConfirmAgreesExactly`, `ObserverRuns.NextState`, example in
  `Observer.ConfirmCanHideStop`). Its one caller publishes only with no unread hint and no
  open wait. That guard is enough whenever the cache was caught up at the last quiet moment
  (`Publishing.GuardSettlesState`); after a transition it is enough exactly when nothing but
  Play came late to the resuming read or a state notification followed
  (`Publishing.GuardAfterTransition`, `Publishing.LateStopPassesGuard`).
- A second setter's debts replace the first one's. Nothing is forgotten if and only if
  whatever was owed is owed again or settled by the same event
  (`Observer.SetterDebtsKeptExactly`, `Observer.SecondSetterForgetsFirst`); the writer sends
  one confirmed setter at a time, which avoids it.
- A newer Stop blocks an older Play read if and only if that Stop is the one that opened
  the wait; a repeated Stop leaves no trace (`Transition.RepeatedStopIsForgotten`).
- A write's guard is checked in one mutex section and the write counted in a later one. The
  guard is still current then if and only if neither an interrupt nor an eviction fell in
  between (`Client.GuardAtStamp`).
- A request that ends while it waits for the worker it revoked never reaches the deferred
  cleanup. Every unfinished operation keeps somebody to finish it if and only if the revoked
  operation was already finished, or its worker had been cancelled for another reason before
  (`Lane.AbandonedJoin`); otherwise it keeps the reservation until a takeover
  (`Lane.ReservationLeftBehind`).
- After the join the operation is read again into the variable that the deferred cleanup looks
  at, and a failed read blanks it. Somebody is left to finish the operation if and only if it
  was finished or its worker was not the one found in the lane (`Lane.FailedReread`,
  `Lane.RereadLeavesBehind`).
- A child Skip whose commit took effect while both its reply and the resolving lookup failed
  is dropped from the slot although its row exists. After closing, a created child has its
  one finalizer if and only if its admission was not left unresolved
  (`SkipChild.ClosedMeansFinalized`, `SkipChild.ChildLeftBehind`); the row stays unfinished
  until a newer epoch recovers it.
- Traversal without a count is exact if and only if no page is short before the list ends,
  and the longest list differs by count mode: 10000 with a true count, 9900 with a zero
  count, 9999 without one (`Paging.BrowseAll`, `Paging.ShortPageExample`).

## Model

| member | source | states |
|---|---|---|
| `Client.StepOrder` | internal/heos/client.go:192-235 | no step moves a player's token backwards, and it moves forwards in (Revision, Player, Write) order exactly on the steps that must consume outstanding guards |
| `Client.RunOrder` | internal/heos/client.go:366-474 | the same over whole runs of events, reconnects, interrupts, gaps, evictions and counted writes: the token has moved exactly if some step consumed the guards |
| `Client.GuardNeverRecurs` | internal/heos/client.go:647-688 | a guard consumed anywhere in a run never passes a check again, however the run continues |
| `Client.AcceptedGuardsDiffer` | internal/heos/client.go:673-688 | two accepted writes to one player never used the same guard, although check and count are separate sections |
| `Client.GuardAtStamp` | internal/heos/client.go:673-688 | a write is counted under a guard that is still current exactly when neither an interrupt nor an eviction fell between check and count |
| `Client.Owner.ViewOf` | internal/heos/client.go:192-200 | the view combines the global counters with this player's own two |
| `Client.Owner.ObservePlayer` | internal/heos/client.go:201-219 | observing a player, with eviction of a full table, never moves any player's token backwards |
| `Client.Owner.InterruptAll` | internal/heos/client.go:221-235 | an interrupt advances the fence, cancels the active request, disconnects and moves every player's token forwards |
| `Client.Owner.DialConnection` | internal/heos/client.go:366-374 | a new connection advances generation, revision and catalog |
| `Client.Owner.DropConnection` | internal/heos/client.go:376-392 | only the current connection's loss moves the token |
| `Client.Owner.CountEvent` | internal/heos/client.go:433-474 | a notification is stamped with the counters after it was counted, per player or globally by kind |
| `Client.Owner.Activate` | internal/heos/client.go:617-622 | a request submitted before an interrupt is cancelled when it becomes active |
| `Client.Owner.CheckGuard` | internal/heos/client.go:673-678 | the check passes exactly for the current token of a connected player before the guard expires, and changes nothing |
| `Client.Owner.CountWrite` | internal/heos/client.go:680-688 | counting a write consumes every guard its player had |
| `Delivery.Exchange` | internal/heos/client.go:476-562 | NotSent exactly when no byte of the command was written; Accepted and Rejected only for a complete command answered by the settling frame within the context |
| `Delivery.NextInv` | internal/heos/client.go:254-314 | every step of caller and owner keeps claim, result slot, byte count and answer consistent |
| `Delivery.NotSentIsTruthful` | internal/heos/client.go:289-314 | in every race a NotSent answer is true when given and for ever after, the stale-guard error goes only to guarded requests and only with NotSent, Accepted and Rejected mean bytes were written, and a command is exchanged at most once |
| `Delivery.WriteAnswerTruthful` | internal/heos/writes.go:119-137 | what a writer may conclude from the answer to a guarded write, whatever race produced it |
| `Delivery.ReadNeverStale` | internal/heos/client.go:247-252 | a read is never answered with the stale-guard error |
| `Delivery.SettledForGood` | internal/heos/client.go:601-613 | once nobody will write the command, its byte count never changes |
| `Delivery.DoneMeansAnswered` | internal/heos/client.go:302-312 | a caller that finds the owner gone and no answer always has an unowned request |
| `Observer.ConfirmCanHideStop` | internal/heos/scalar_observation.go:114-143 | a published confirmation can present Play over an unconsumed Stop that is then skipped as covered |
| `Observer.SetterDebtsKeptExactly` | internal/heos/observation_events.go:36-44 | a new setter keeps every older debt if and only if each is owed again or settled by this event |
| `Observer.SecondSetterForgetsFirst` | internal/heos/observation_events.go:36-44 | otherwise a field still owed a confirmation is presented as current |
| `Observer.Cell.Notify` | internal/heos/observation_events.go:11-59 | one event is skipped, applied to exactly its fields, or invalidates the cache |
| `Observer.Cell.Read` | internal/heos/observations.go:217-228 | staleness of the returned snapshot |
| `Observer.Cell.BeginFull` | internal/heos/observations.go:268-271 | a complete read first invalidates the cache |
| `Observer.Cell.BeginScalars` | internal/heos/scalar_observation.go:26-40 | a targeted scalar read starts exactly over a valid baseline behind at most the one setter it can confirm |
| `Observer.Cell.BeginPlayback` | internal/heos/playback_observation.go:27-34 | a playback read starts exactly over a valid, caught-up baseline with nothing owed |
| `Observer.Cell.CommitFull` | internal/heos/observations.go:370-397 | a complete read is installed only under one token that is still current |
| `Observer.Cell.CommitScalars` | internal/heos/scalar_observation.go:44-97 | a targeted read settles exactly its fields, and only if every reply and the client are at its token and the cache is at the captured one |
| `Observer.Cell.CommitPlayback` | internal/heos/playback_observation.go:36-74 | a playback read replaces state and media only if replies, client and cache are all at the token it captured |
| `Observer.Cell.CommitMedia` | internal/heos/observation_events.go:144-176 | a media read whose reply, client or cache is at another token invalidates instead |
| `Observer.Cell.ConfirmScalars` | internal/heos/scalar_observation.go:114-143 | an early confirmation is a compare-and-set that transfers the four scalars and the token |
| `ObserverRuns.CacheAgreement` | internal/heos/observations.go:217-228 | after any interleaving of stamped events, delayed, repeated or lost deliveries, counted writes, every kind of read and every publication that meets its written obligation, a snapshot that is not stale equals the replay of the evidence since the last complete read; the play state too, unless a publication hid it |
| `ObserverRuns.NextState` | internal/heos/scalar_observation.go:114-141 | every step keeps the play state in agreement, except exactly a publication over an unsettled one |
| `ObserverRuns.ReadRestoresState` | internal/heos/playback_observation.go:59-74 | a complete or playback read brings a hidden play state back |
| `ObserverRuns.UnchangedTargetPublishes` | internal/heos/scalar_observation.go:109-113 | a setter with an unchanged target may be published at its reply's token with no event, and leaves a fresh snapshot |
| `ObserverRuns.NextInv` | internal/heos/observation_events.go:11-59 | every step keeps the unconsumed evidence equal to what separates the cached token from the client's |
| `ObserverRuns.CoveredIsIncluded` | internal/heos/observation_events.go:61-73 | after any run, an event skipped as covered was replayed or had been counted by the token of the last complete read, in this revision or an earlier one; and the events ahead of the cache are exactly the pending ones |
| `ObserverRuns.NextLogged` | internal/heos/observation_events.go:11-59 | every step keeps each event stamped after the last complete read in the log |
| `ObserverRuns.ConfirmAgreesExactly` | internal/heos/scalar_observation.go:109-141 | under the written obligation (required events or an unchanged target) the scalars always agree, and the state does if and only if the pending notifications lead back to the cached one |
| `ObserverRuns.ChainGrows` | internal/heos/client.go:433-474 | the pending evidence accounts for the whole distance between two tokens |
| `Publishing.GuardSettlesState` | internal/control/scalar_confirmation.go:142-156 | under every policy, with a caught-up cache showing the expected state at the last quiet moment, the caller's guard implies that the published confirmation agrees |
| `Publishing.GuardAfterTransition` | internal/control/scalar_confirmation.go:142-156 | after a transition it does so exactly when nothing but Play came late to the resuming read or any state notification came after it |
| `Publishing.LateStopPassesGuard` | internal/control/queue_policy.go:61-68 | for every resumption, a Stop that comes late to its read passes the guard unsettled |
| `Queue.OrderedQueue` | internal/control/queue_append.go:87-99 | true exactly for the complete queue with these media in order and multiplicity and its own queue IDs |
| `Queue.AppendQueueProblem` | internal/control/queue_append.go:103-118 | no problem exactly for the old queue followed by part of what was asked for |
| `Queue.RemovedQueuePrefix` | internal/control/queue_remove.go:12-26 | valid exactly for the old queue without a prefix, renumbered only once something was removed |
| `Queue.CompleteOwnedQueue` | internal/control/ownership.go:47-59 | true exactly for a complete, well-numbered, nonempty queue of selected media |
| `Queue.IndexOf` | internal/control/skip.go:55-65 | the first entry with the exact pair, or that there is none |
| `Queue.OccurrenceUnique` | internal/control/skip.go:55-65 | with distinct queue IDs an occurrence has one position |
| `Queue.BufferedPosition` | internal/control/buffered_plan.go:165-175 | a position exists exactly for confirmed Play of a member of the expected queue, and names the playing media |
| `Queue.RemovalAllowed` | internal/control/buffered_execution.go:158-176 | true exactly for a proper prefix that leaves the playing entry and the retained history |
| `Queue.RemovableLeavesHistory` | internal/control/buffered_execution.go:158-176 | in a well-numbered queue that is a statement about the position itself |
| `Queue.AppendObservation` | internal/control/queue_append.go:120-157 | what each readback says of a pending append, against its specification |
| `Queue.RemoveObservation` | internal/control/queue_remove.go:28-75 | what each readback says of a pending removal, against its specification |
| `Queue.RemovalKeepsOccurrence` | internal/control/queue_remove.go:43-73 | a confirmed removal moves the playing occurrence by exactly the number removed, although queue IDs are reassigned and media repeat |
| `Queue.MembershipIsNotPosition` | internal/control/queue_remove.go:47-56 | membership of the old pair in the renumbered queue would not prove that |
| `Buffered.Validate` | internal/control/buffered_plan.go:28-49 | accepts exactly the policies whose parts all fit beside reserve, history and current entry and whose total is bounded |
| `Buffered.CapacityNeverBlocks` | internal/control/buffered_execution.go:119-133 | for every accepted policy and position the plan is to rest, to append within the bound, or to prune so that exactly this part then fits |
| `Buffered.LargestPartIsTight` | internal/control/buffered_plan.go:38-44 | one more track in the largest part and some queue has no capacity for it |
| `Buffered.WindowGrows` | internal/control/queue_append.go:57-69 | appending the next part extends the window by exactly it |
| `Buffered.WindowShrinks` | internal/control/buffered_execution.go:136-154 | pruning a prefix moves the window by exactly its length |
| `Buffered.WindowIndex` | internal/control/buffered_execution.go:26-33 | a position in the window is an absolute index into the manifest, and pruned plus resident is what was loaded |
| `Playback.OwnedKeepsQueue` | internal/control/ownership.go:19-29 | an owned comparison that finds no change keeps queue, state and connection |
| `Playback.SourcedIsFaithful` | internal/control/execution.go:154-177 | what a single attempt relies on follows from any race over its request and any completed reads |
| `Playback.Run.PrepareSkip` | internal/control/skip.go:124-138 | at a boundary nothing is sent and the reconciled position is kept |
| `Playback.Run.Prepare` | internal/control/execution.go:62-147 | every check before a send; a command goes on only uncancelled, safe, owned, journaled, in time twice, and with a removable prefix or skippable entry of the guarded state |
| `Playback.Run.ConfirmReadback` | internal/control/confirmation.go:25-106 | success only on a readback that the command's own policy confirms |
| `Playback.Run.Settle` | internal/control/execution.go:185-248 | a confirmed command becomes the expected state only if nothing but its own effect changed |
| `Playback.Run.Send` | internal/control/execution.go:148-177 | what the wire's answer does to delivery, uncertainty and the expected token |
| `Playback.Run.WriteOnce` | internal/control/execution.go:62-249 | at most one delivery, only when cleared, and always accounted for as confirmed, rejected or uncertain; none for a moved timeline, a boundary or an unsent stale guard |
| `Playback.Run.Write` | internal/control/execution.go:45-60 | the whole call delivers its command at most once; another attempt follows only a truthful unsent stale guard |
| `Playback.Run.UpdateBufferedProgress` | internal/control/buffered_execution.go:15-39 | the published index names the playing media in the manifest, and pruned plus buffered tracks are the confirmed ones |
| `Playback.Run.ConfirmPart` | internal/control/queue_append.go:37-56 | accounts for exactly the part the queue was confirmed to hold |
| `Playback.Run.Start` | internal/control/playback.go:9-31 | a start sends Stop if playing, then level, mode, unmute and replacement, each only after the one before was confirmed; a confirmed start is a window holding exactly the first part |
| `Playback.Run.AppendNext` | internal/control/queue_append.go:57-69 | a confirmed append extends the window by the next part; an unsent one leaves window and counts as they were |
| `Playback.Run.PruneBuffered` | internal/control/buffered_execution.go:136-154 | a confirmed removal drops that prefix, keeps the retained history and the absolute position of the occurrence it was guarded by; an unsent one changes nothing |
| `Playback.Run.BufferedStep` | internal/control/buffered_execution.go:102-134 | at most one command, never for want of room, window conserved whenever the worker goes on |
| `Playback.Run.CheckOwnership` | internal/control/automation.go:54-83 | navigation inside the owned queue moves the position only |
| `Playback.Run.ServiceSkip` | internal/control/progressive_skip.go:116-160 | a skip for a child never touches the window, and sends nothing at a boundary |
| `Playback.Run.LoadBuffered` | internal/control/buffered_execution.go:43-98 | however turns interleave, the window is conserved at each, capacity is never the reason to fail, and success means the whole manifest has passed through the queue |
| `Playback.Run.AutomateBuffered` | internal/control/automation.go:85-208 | the automation loop around the same steps conserves the window at every turn and never ends for want of room |
| `QueueStart.ItemsLoading` | internal/control/queue_start_policy.go:98-109 | true exactly when every entry was there before or was asked for |
| `QueueStart.ResultSelected` | internal/control/queue_start_policy.go:111-129 | true exactly for the selected result, complete and containing the playing pair when bounded |
| `QueueStart.DecideQueueStart` | internal/control/queue_start_policy.go:39-78 | first matching rule over one readback, against its specification |
| `QueueStart.Starting.HandleEvent` | internal/control/events.go:83-133 | which notifications belong to the pending replacement and what each uses up |
| `QueueStart.Starting.ObserveQueueState` | internal/control/confirmation.go:140-152 | a read that shows Play closes the loading-stop allowance |
| `QueueStart.Starting.QueueStartObservation` | internal/control/confirmation.go:108-135 | the readback decision, with exact order for an ordered plan |
| `QueueStart.RunCrosses` | internal/control/events.go:105-127 | every run of notifications and reads crosses the Play boundary at the first sign of Play and never back |
| `QueueStart.OneWayStart` | internal/control/confirmation.go:241-252 | after any run that showed Play, a Stop or Pause notification revokes and a Stop or Pause observation neither waits nor confirms |
| `QueueStart.ConfirmationEstablishes` | internal/control/queue_start_policy.go:55-66 | confirmation implies Play, time left, covered events, unchanged controls, for bounded runs the complete selected queue with the playing pair, and for ordered plans exactly the first part |
| `QueueStart.LoadingStopIsIdle` | internal/control/events.go:102-107 | before Play a repeated loading Stop changes nothing |
| `Transition.Gate.AcceptQueueEvent` | internal/control/events.go:71-81 | a notification never moves an open limit, opens one only at its own time, and when accepted leaves the wait unchanged exactly if it is unchanged Play outside a wait or a repeated Stop inside one |
| `Transition.DecideQueueEvent` | internal/control/queue_policy.go:46-78 | the event table by first matching row, against its specification |
| `Transition.DecideQueueObservation` | internal/control/queue_policy.go:84-130 | the observation table by first matching row, against its specification |
| `Transition.Gate.QueueObservationDecision` | internal/control/queue_transition.go:81-97 | an observation closes an open limit only by resuming on exact Play, keeps it otherwise, and opens one only for a transition it shows |
| `Transition.LimitIsFixed` | internal/control/queue_policy.go:46-130 | over any interleaving an open limit is the opening input's time plus 12 seconds, unmoved since |
| `Transition.NewerEventBlocks` | internal/control/queue_policy.go:53-130 | every accepted notification keeps a read begun before it from confirming, except unchanged Play outside a wait and a repeated Stop inside one, which leave no trace |
| `Transition.RepeatedStopIsForgotten` | internal/control/queue_policy.go:61-68 | a further Stop does so if and only if no wait was open |
| `Transition.ResumeConfirms` | internal/control/queue_policy.go:98-117 | a resumption means exact confirmed playback of the unchanged queue and controls, before both limits |
| `Transition.Gate.AwaitOwnedPlayback` | internal/control/queue_transition.go:25-79 | with a transition open the gate succeeds only on such a resumption before the limit fixed at its start, and then closes the wait; otherwise it keeps that limit |
| `Scalar.AttributeTracks` | internal/control/scalar_confirmation.go:56-113 | seen flags only rise, seen values never change, unrequested fields are untouched |
| `Scalar.NoReversal` | internal/control/scalar_confirmation.go:82-105 | a field at its target accepts exactly that value; another accepts its old value or moves to its target |
| `Scalar.RunTracks` | internal/control/scalar_confirmation.go:56-113 | the same over whole runs of notifications |
| `Scalar.ReadyMeansRequested` | internal/control/scalar_confirmation.go:37-52 | after any accepted run a ready setter reports the expected state with only its requested fields changed (a volume may clear a mute) |
| `Scalar.RequestedPredicted` | internal/control/execution.go:185-229 | and the writer's own comparison of such a report passes |
| `Scalar.Setter.AcceptScalarEvent` | internal/control/scalar_confirmation.go:56-113 | a field already seen accepts exactly what it holds, another its old value or its target, and nothing seen is taken back |
| `Scalar.Setter.ConfirmScalar` | internal/control/scalar_confirmation.go:120-225 | success, by notifications or by the fallback read, is only ever the requested state, in time and uncancelled |
| `Journal.AdmitInv` | internal/journal/operations.go:153-273 | an admission keeps every table invariant, changes no finished row, and records the request with the new operation |
| `Journal.AdmitHandsOver` | internal/journal/operations.go:218-258 | the reservation was free or held by exactly the operation named, which ends with it unless it is being cancelled; other devices keep theirs |
| `Journal.TransitionInv` | internal/journal/operations.go:300-347 | a transition keeps the invariants and advances one unfinished row by one revision |
| `Journal.AlbumInv` | internal/journal/operations.go:361-387 | selecting an album does too |
| `Journal.RecoveredInv` | internal/journal/operations.go:413-447 | a batch ends exactly its foreign rows, and the last one leaves no foreign work |
| `Journal.PrunedInv` | internal/journal/operations.go:451-474 | pruning with cascading deletion keeps the invariants |
| `Journal.FinishInv` | internal/journal/operations.go:349-357 | releasing and extending repair what ending rows left open |
| `JournalRuns.EveryRun` | internal/journal/operations.go:45-73 | in every run of any number of stores, all table invariants hold, epochs never repeat, and no operation is reported created twice |
| `JournalRuns.NextInv` | internal/journal/operations.go:153-274 | every action keeps them, including commits whose reply is lost |
| `JournalRuns.NextAdvances` | internal/journal/dbgen/operations.sql.go:416-422 | finished rows are immutable, every change of a row adds one to its revision, records keep operation and hash |
| `JournalRuns.SupersededForever` | internal/journal/operations.go:65-73 | an epoch once superseded is never active again |
| `JournalRuns.ReadyIsClean` | internal/journal/operations.go:437-442 | when ready, every unfinished operation and reservation is of the live epoch |
| `JournalRuns.RecoveryProgress` | internal/journal/operations.go:393-447 | while an epoch recovers nobody adds foreign work and each committed batch finishes or ends a full batch of it |
| `JournalRuns.RecoveryTerminates` | internal/journal/operations.go:393-411 | however other stores interleave, an epoch commits no more full batches than the foreign work it started with |
| `JournalRuns.RetentionKept` | internal/journal/dbgen/operations.sql.go:278-286 | a finished operation stays unchanged and replayable until some pruning clock passes its finish by seven days |
| `JournalRuns.ReplayIsTheAnswer` | internal/journal/operations.go:166-172 | a recorded operation answers its own request before any other check, and another body under its key is refused |
| `JournalRuns.EveryOperationIsRecorded` | internal/journal/dbgen/operations.sql.go:59-62 | every operation has the record that replays it |
| `JournalRuns.Journaling.AdmitRequest` | internal/journal/operations.go:153-274 | the statement sequence with rollback, against the admission function |
| `JournalRuns.Journaling.ResolveRequest` | internal/journal/operations.go:259-272 | after a failed commit, created exactly for this very admission, still untouched, in the live epoch |
| `JournalRuns.Journaling.RecoverBatch` | internal/journal/operations.go:413-447 | one batch, with the remembered predecessor surviving an abort |
| `JournalRuns.Journaling.Recover` | internal/journal/operations.go:393-411 | terminates; a recovery succeeds only with the journal ready for this epoch, and an initialized store, superseded or not, answers at once and touches nothing |
| `Lane.NextInv` | internal/control/coordinator.go:375-413 | every step of submitters, workers and finishers keeps the single-writer invariant |
| `Lane.SingleWriter` | internal/control/coordinator.go:527-596 | in every run a worker issues commands only while its operation is unfinished and reserved, and no two can |
| `Lane.NextHeld` | internal/control/coordinator.go:396-413 | nobody else is ever asked to finish the operation of the lane's own worker or of the worker a submitter found, which is done once it has joined |
| `Lane.NextCovered` | internal/control/coordinator.go:598-644 | only shutdown, an unresolved commit, a request that ends while joining or a failed re-read after it can leave an unfinished operation to nobody |
| `Lane.RunCovered` | internal/control/execution.go:313-399 | so over every run without those, each unfinished operation has somebody who will finish it |
| `Lane.AbandonedJoin` | internal/control/coordinator.go:399-413 | in every run, a request that ends while joining leaves every unfinished operation with somebody to finish it if and only if the revoked operation was already finished or its worker had been cancelled for another reason before and finishes it itself |
| `Lane.FailedReread` | internal/control/coordinator.go:409-418 | in every run, a failed re-read, which blanks the operation that the deferred cleanup looks at, does so if and only if that operation was finished or the worker found in the lane was not its own |
| `Lane.UnresolvedLoses` | internal/control/coordinator.go:532-535 | a commit that nobody could confirm always leaves its new operation to nobody |
| `Lane.TakeoverReachesJoin` | internal/control/coordinator.go:396-402 | an ordinary takeover of a writing playback reaches that wait |
| `Lane.ReservationLeftBehind` | internal/control/coordinator.go:399-413 | if the request ends there, the run ends with the worker gone, the reservation held and nobody left |
| `Lane.RereadLeavesBehind` | internal/control/coordinator.go:414-418 | if it waits the worker out and then cannot read the operation again, the run ends the same way |
| `SkipChild.NextInv` | internal/control/progressive_skip.go:26-198 | every step of submitter, worker and closing keeps slot, status and counts consistent |
| `SkipChild.ChildProtocol` | internal/control/progressive_skip.go:15-25 | one child in the slot, at most one dispatch and one finalizer each, none dispatched by submitter or closer, none dispatchable after closing |
| `SkipChild.NoDispatchAfterClose` | internal/control/progressive_skip.go:162-177 | after closing, dispatch counts are final in every continuation |
| `SkipChild.LostExactly` | internal/control/progressive_skip.go:79-85 | a created child is lost exactly if its admission was left unresolved, and then for good |
| `SkipChild.ClosedMeansFinalized` | internal/control/progressive_skip.go:77-98 | after closing, a created child has exactly one finalizer if and only if its admission was not left unresolved; one still in flight that turns out created will get one |
| `SkipChild.ChildLeftBehind` | internal/journal/operations.go:259-268 | a run in which the commit took effect, reply and lookup failed, and nobody finalizes the child |
| `Envelope.RampIsFloor` | internal/control/automation.go:130-132 | the ramp is the ideal line rounded down, between initial and target |
| `Envelope.FadeIsCeiling` | internal/control/automation.go:124-129 | the fade is the ideal line to zero rounded up, above zero until the deadline |
| `Envelope.ProductsFit` | internal/control/automation.go:113-133 | the nanosecond products fit a signed 64-bit integer |
| `Envelope.PhaseMonotone` | internal/control/automation.go:115-133 | phases only move forward with the clock |
| `Envelope.Automate` | internal/control/automation.go:85-171 | for every nondecreasing clock with late, quiet and retried turns, every level that was or may have been sent stays in bounds, they rise and then only fall, are zero only at the deadline, and a stopped run with a fade ended at zero |
| `Broker.AllowedConcat` | internal/api/events.go:97-108 | filtering distributes over the boundary between replay and channel |
| `Broker.AllowedIncreasing` | internal/api/events.go:97-108 | a replay is exactly the allowed events, in order and without duplicates |
| `Broker.EvictionIsGap` | internal/api/events.go:93-96 | the arithmetic gap test is exactly that the ID is foreign or a later event was evicted |
| `Broker.DeliverAll` | internal/api/events.go:74-83 | exactly the subscribers with room, or who may not see the event, stay open, the former with it at the end of their channel |
| `Broker.Events.Publish` | internal/api/events.go:61-84 | keeps, for every open subscriber told of no gap: replayed, received and waiting events are together exactly the allowed ones after the named event |
| `Broker.Events.Subscribe` | internal/api/events.go:85-112 | a gap notice exactly when some later event is gone, otherwise every allowed event after the named one |
| `Broker.Events.Receive` | internal/api/events.go:31-36 | the reader takes the head of its channel into what it received, and exactness is kept |
| `Broker.Events.Remove` | internal/api/events.go:46-52 | closes one subscription and touches no other |
| `Broker.Events.Close` | internal/api/events.go:53-60 | closes all of them for good |
| `Paging.BrowseAll` | internal/heos/catalog.go:140-166 | within 100 pages returns exactly the device's list or reports bounds; exact limits per count mode, and exactness without a count if and only if no early short page |
| `Paging.CompleteQueue` | internal/control/ownership.go:63-95 | the first page and the fetched ones, of one token and total, exactly as long as the total says, or failure |
| `Paging.SlicesConcat` | internal/control/ownership.go:69-85 | consecutive slices of one list concatenate to a prefix of it |
| `Paging.CompletedIsWhole` | internal/control/ownership.go:86-95 | so a queue served in slices of one list under its length as total is completed to exactly that list |
| `Paging.ShortPageExample` | internal/heos/catalog.go:84-86 | two items served one to a page without a count: the second is lost |

## Left out

- HTTP handlers, authentication, generated OpenAPI code, documentation serving, configuration, certificates, CLI and doctor probes: plumbing.
- TLS, sockets, JSON and URL encoding: only "how many bytes were written" and decoded values remain.
- Logging, metrics and diagnostic evidence: they decide nothing.
- Display fields of a snapshot (playhead, stale media, group list) and player identity resolution: they do not enter control decisions.
- Observation timers and debounce: a read may happen at any step.
- Catalog references, source resolution and source-level paging: the manifest is an input of playback.
- Device liveness: nothing is claimed to happen eventually because a device answers.
- Wire time at the start of a fade: the guard's expiry is read from the clock a second time after the remaining time was computed, so no exact bound is stated.
- Stop and cancel commands with a manual fade, and the outcome codes written to the journal: each is one branch over what is proved here.
- Transaction isolation and the database itself: each transaction is atomic because it locks the control row first; batch order by ID is not modelled, any full batch is.
- Clocks of different processes: retention is stated in terms of the clock that prunes.
- Playback.SourcedIsFaithful: of a completed read it uses only that the queue has no next page; a first page without one is passed on unchecked by the code too.
- Playback.Run.WriteOnce: models the bounded worker, whose reads complete the queue; an unbounded command makes a single attempt and never retries.
- Playback.Run.Write: the event callback's updates of the expected token during a write enter only as the `current` flag of a readback, because no window fact depends on them.
- Playback.Run.ConfirmReadback: the verdicts on an initial replacement and on setters are inputs here; they are decided in QueueStart and Scalar, and the result is compared again afterwards.
- Playback.Run.AutomateBuffered: the level of each turn is an input here; which levels an envelope asks for is proved in Envelope.
- Playback.Run.ServiceSkip: the child's journal checks before the write are one flag; its outcome is SkipChild's concern.
- Queue.AppendObservation: cancellation, the wait's deadline and device safety are one flag, since each of them only rejects.
- Queue.RemoveObservation: cancellation, the wait's deadline and device safety are one flag, since each of them only rejects.
- JournalRuns.Journaling.AdmitRequest: text, kind and JSON checks are one flag; resolving a failed commit is a separate transaction, ResolveRequest.
- JournalRuns.Journaling.Recover: runs its rounds without other stores in between; with them, termination is RecoveryTerminates.
- Lane.SingleWriter: covers one player within one journal epoch; a partitioned process of an older epoch is fenced in the journal, not on the device.
- SkipChild.ChildProtocol: the journal retries of a finalizer are one step; one that gives up at shutdown or in an old epoch leaves its row to recovery.
- Journal.AdmitInv: request fingerprints, text limits and JSON checks are one validity flag.
