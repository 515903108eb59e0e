# Verified models of the harness

This project models the stateful heart of the harness in Dafny and proves what it promises over
whole runs. Nothing here runs the program: locks, channels, timers, the network, the tokenizer and the
cipher appear as steps, parameters or ideal objects.

Three clusters are covered.

- **Runs and cards.** The scheduler that admits runs under a global and a per-connection limit, parks a
  run that waits for a card and fences late finishers (`Scheduler*.dfy`: admission, lifecycle, the loss of
  runs and the queue's progress, and in `SchedulerOutcomes.dfy` and `SchedulerHolds.dfy` what each section
  leaves behind, chat by chat); the gate that races decisions, answers, supersession and cancellation for
  a card (`Gate*.dfy`, with what a card's event says in `GateEvents.dfy`); the helper semaphore with its
  replaced wake channel (`Delegates.dfy`).
- **Delivery over the broker.** Frames (`Wire.dfy`), the paced writer (`Link*.dfy`, with the account of
  every frame of both kinds in `LinkFrames.dfy`), counters, nonces and texts (`Sealing*.dfy`, with what
  the other end reads in `SealingTexts.dfy`) and both together down to the socket (`Outgoing.dfy`),
  deduplicated execution (`Executions.dfy`), retained messages (`Retention.dfy`) and pairing codes
  (`Pairing.dfy`, `PairingSpelling.dfy`).
- **Accounting and history.** Exact token accounting (`Budget.dfy`, `BudgetMeter.dfy`), fitting tool
  results into the window (`Fitting.dfy`), loop detection (`Guards.dfy`), ids across a restart (`Ids.dfy`,
  `Reminting.dfy`, `Restart.dfy`) and directory names (`Names.dfy`).

`Common.dfy` holds what several of them share.

Code that updates fields in place is modelled twice: a value-level specification, whose functions are
the locked sections and loops, and a class or method with the source's loops, proved equal to it; the
gate, the link and the endpoint keep their proved invariant as `Valid()`. The theorems are about the
specification, over every list of steps, so they hold for every interleaving of the atomic sections.

## What the proofs found

The code is modelled as it is. Where a property one would expect does not hold, there is a lemma that
shows the input and a theorem that says exactly when it does hold.

- A second queued run of a chat can start while the chat's first run is still running; the first run is
  then never reported stopped (`SchedulerDisplacement.LostRun`). An unreported run can still be reported
  if and only if no run of its chat has started since (`SchedulerReports.ReportableIffLatest`); a start
  loses a run if and only if its chat is still in the map of active runs
  (`SchedulerProgress.StartLosesIffActive`); and a running run can be lost, by whatever comes next, if and
  only if the queue holds another run of its chat (`SchedulerProgress.LosableIffQueued`).
- A card opened under the call id of a card still open leaves a card nobody can decide, or one the
  session does not name; that is exactly what breaks the registration (`GateProofs.FreshCallIffRegistered`).
- A message that was sealed and then not handed to the link, because its frame is over the payload limit
  or the link is gone, makes every later message of its session unreadable at the other end
  (`SealingLimits.OverLimitUnreadable`). While every message is within the limit and goes to its own link
  everything sent is read (`SealingLimits.WithinLimitReadsAll`), and whether one message breaks the session
  depends on exactly that (`SealingLimits.OneMessageDecides`).
- A message that cannot be retained still evicts everything evictable first (`Retention.EvictedForNothing`,
  `Retention.RetainIsExact`).
- Rounding a group's tokens can leave its last message a negative share (`Budget.NegativeShare`): for a group
  of a given size that never happens if and only if the size is at most three
  (`Budget.NonnegativeIffUpToThree`).
- At the top of the 64-bit range a reminted id can repeat one the chat already holds
  (`Reminting.WrapRepeats`). The list is free of repetitions if and only if no message that needs a new id
  is given one an earlier message holds (`Reminting.DistinctIffNoClash`), and with a sufficient floor only an
  id counted past the top can be one (`Reminting.OnlyWrappedClash`).
- A label such as "CON", many spaces and one more character becomes the reserved name "CON"
  (`Names.ReservedWitness`, `Names.ReservedExactly`).
- A dash before a leading tab (or after a trailing one) keeps the tab from being trimmed, so the pairing
  code is refused (`PairingSpelling.DashBeforeTab`, `PairingSpelling.DashExactly`).
- The fitted results of a turn can take more than the room (`Fitting.NoteOverRoom`): they stay within it if
  and only if none of them is cut to a bare note larger than all that is left when its turn comes
  (`Fitting.WithinRoomExactly`).

## Model

| member | source | states |
|---|---|---|
| `SchedulerAdmission.EveryHistorySafe` | internal/agent/scheduler.go:314-385 | in every reachable state the active unpaused sessions are within the global limit and each connection's limit, and no queued run and no answered run left waiting could be admitted |
| `SchedulerAdmission.DrainConserves` | internal/agent/scheduler.go:363-385 | one pass over the two lists reaches a state in which nothing more can be admitted, because admission only gets harder as runs start |
| `SchedulerAdmission.StepKeeps` | internal/agent/scheduler.go:276-308 | every locked section (submit, finish, forced finish, pause, resume, cancelled wait, release, stop, hold, restore, boundary) keeps slot safety and work conservation |
| `SchedulerAdmission.QueueSplits` | internal/agent/scheduler.go:374-385 | the queue loop cuts each connection's line into a started prefix and a kept rest, nothing lost or repeated |
| `SchedulerAdmission.ResumersSplit` | internal/agent/scheduler.go:363-373 | the resume loop cuts each connection's line of answered runs into a woken prefix and a kept rest |
| `SchedulerAdmission.DrainIsFifo` | internal/agent/scheduler.go:363-385 | a drain wakes answered runs in order, then starts queued runs in queue order on each connection, logs exactly those, and starts no queued run of a connection while an answered one waits there |
| `SchedulerAdmission.NoOvertaking` | internal/agent/scheduler.go:165-232 | a submission starts at once only if no queued run and no answered run waits on its connection |
| `SchedulerLifecycle.EveryHistoryLedger` | internal/agent/scheduler.go:233-308 | over every history each run id is started at most once, reported stopped at most once, never started after that, each resume channel is closed at most once, and every minted id is queued or in the log, never both |
| `SchedulerLifecycle.LogOnlyGrows` | internal/agent/scheduler.go:649-656 | what was reported stays reported |
| `SchedulerLifecycle.FencedForever` | internal/agent/scheduler.go:276-282 | once a run is reported stopped, a finish or forced finish of it changes nothing, after any further steps |
| `SchedulerReports.EveryHistoryCarried` | internal/agent/scheduler.go:233-308 | in every reachable state a session's latest run, while unreported, is its active run |
| `SchedulerReports.ReportableIffLatest` | internal/agent/scheduler.go:276-301 | a started run that has not been reported can still be reported if and only if no other run of its chat has started since |
| `SchedulerReports.AloneUntilReported` | internal/agent/scheduler.go:276-308 | while a chat has nothing queued its run stays its active run until it is reported, through any steps |
| `SchedulerProgress.QueuedRunCanStart` | internal/agent/scheduler.go:363-385 | from every reachable state the ends of other chats' runs, with cards of the chat's own run, start any queued run |
| `SchedulerProgress.StartLosesIffActive` | internal/agent/scheduler.go:233-240 | starting a run loses one that was not lost before if and only if its session is still active |
| `SchedulerProgress.LosableIffQueued` | internal/agent/scheduler.go:291-301 | a running run can be lost by some continuation if and only if the queue holds another run of its chat |
| `SchedulerDisplacement.LostRun` | internal/agent/scheduler.go:291-301 | a history of eight sections in which a chat's run is displaced by its next queued run and never reported, whatever follows |
| `SchedulerOutcomes.FinishOutcome` | internal/agent/scheduler.go:276-308 | in any reachable state the end of a chat's own run reports it; the chat is held exactly when it was before or the effective reason is "model_unreachable"; a held chat, or one whose run was marked stopped, keeps its waiting messages and gains no run; otherwise they are all taken and the first, with its id and source, is the one new run; no other chat's hold or messages change |
| `SchedulerOutcomes.StaleFinish` | internal/agent/scheduler.go:276-282 | a finish or a forced finish by any other run changes nothing |
| `SchedulerOutcomes.ForceOutcome` | internal/agent/scheduler.go:626-647 | a forced end reports the run and promotes no message of any chat |
| `SchedulerOutcomes.SubmitWaits` | internal/agent/scheduler.go:173-213 | a submission to a held or busy chat: a repeated text gets the place of the first, a chat at its depth is full unless held, an unstored message is refused, any other is put last or returned at once by a stopping run; no run is made |
| `SchedulerOutcomes.SubmitRuns` | internal/agent/scheduler.go:214-231 | a submission to an idle chat: what waited is returned, and one run with the next id carries the message, started exactly when both limits, counted from the maps, leave a slot, and otherwise put last in the queue |
| `SchedulerOutcomes.NothingAdmissibleWaits` | internal/agent/scheduler.go:314-385 | counted from the maps alone, in every reachable state: both limits hold, and a chat with a queued or an answered run waiting has one of its limits used up |
| `SchedulerOutcomes.CardParks` | internal/agent/scheduler.go:800-809 | a run that waits for a card stays its chat's active run and holds no slot |
| `SchedulerOutcomes.CardResumes` | internal/agent/scheduler.go:814-858 | in any reachable state an answered run has its slot back, or waits on a channel of its own and stays parked; every earlier waiter still waits or was woken |
| `SchedulerHolds.HeldStartsNothing` | internal/agent/scheduler.go:285-299 | a held chat stays held and none of its waiting messages becomes a run, over every history up to a release of its connection |
| `SchedulerHolds.HoldOutcome` | internal/agent/scheduler.go:532-536 | a hold placed from outside holds the chat over every history up to a release of its connection, and makes no run |
| `SchedulerHolds.ReleaseOutcome` | internal/agent/scheduler.go:499-527 | whatever the order of the map, exactly the held chats of the connection are freed, and the first message waiting in each, with its id and source, becomes its run |
| `SchedulerHolds.RestoreOutcome` | internal/agent/scheduler.go:116-144 | the messages restored to a held idle chat are what its release runs, the first of them as the new run |
| `SchedulerHolds.StopOutcome` | internal/agent/scheduler.go:552-605 | in any reachable state a stop marks the active run, reports and removes every queued run and returns the messages of exactly the chats it is aimed at, leaves every other chat as it was, and starts nothing |
| `SchedulerHolds.CancelOutcome` | internal/agent/scheduler.go:846-858 | in any reachable state a cancelled wait, and no other, leaves the resume list |
| `SchedulerHolds.ForgetOutcome` | internal/agent/scheduler.go:867-875 | the chat is not parked and its first wait alone is taken out, the rest in order |
| `SchedulerHolds.BoundaryOutcome` | internal/agent/scheduler.go:487-495 | at a boundary exactly the chat's own unstopped and unheld run takes the waiting messages, all of them |
| `SchedulerObject.Scheduler.RunningLocked` | internal/agent/scheduler.go:343-351 | counts exactly the active sessions that are not paused |
| `SchedulerObject.Scheduler.ConnectionRunsLocked` | internal/agent/scheduler.go:325-342 | counts exactly those of one connection |
| `SchedulerObject.Scheduler.AdmitLocked` | internal/agent/scheduler.go:353-361 | admits exactly when both limits leave room |
| `SchedulerObject.Scheduler.DrainLocked` | internal/agent/scheduler.go:363-385 | the two index loops over lists edited in place compute the drain the order and conservation theorems are about |
| `SchedulerObject.Scheduler.SubmitAttachmentsFrom` | internal/agent/scheduler.go:165-232 | every branch of a submission and its answer, as the two submission theorems spell them: held, behind its own run, full, refused, dispatched or queued |
| `SchedulerObject.Scheduler.Finish` | internal/agent/scheduler.go:276-308 | the finish of the outcome theorems: the owning run is retired and reported, its chat held or its next message promoted, and the lists drained; any other run changes nothing |
| `SchedulerObject.Scheduler.ForceFinish` | internal/agent/scheduler.go:626-647 | a forced finish acts only on the run the caller holds |
| `SchedulerObject.Scheduler.PublishRunStoppedLocked` | internal/agent/scheduler.go:649-656 | reports a run of a session once |
| `SchedulerObject.Scheduler.StartLocked` | internal/agent/scheduler.go:233-265 | the session's active run is the entry's, and its start is logged |
| `SchedulerObject.Scheduler.ReleaseForCard` | internal/agent/scheduler.go:800-809 | an active run that parks gives its slot to the waiting ones |
| `SchedulerObject.Scheduler.ReacquireAfterCard` | internal/agent/scheduler.go:814-864 | an answered run goes on at once only past an empty resume list with room, and otherwise waits its turn on a channel of its own; when it may go on is stated both ways |
| `SchedulerObject.Scheduler.CancelWait` | internal/agent/scheduler.go:846-858 | a cancelled wait leaves the resume list |
| `SchedulerObject.Scheduler.ForgetPausedLocked` | internal/agent/scheduler.go:867-875 | a finished session is neither paused nor first in the resume list |
| `SchedulerObject.Scheduler.ReleaseModel` | internal/agent/scheduler.go:499-527 | held sessions of a connection are released in any order, each starting or queueing its next message |
| `SchedulerObject.Scheduler.StopReason` | internal/agent/scheduler.go:552-605 | the stop of the outcome theorem: marks the targets' active runs, drops and reports their queued ones, and returns their waiting messages |
| `GateProofs.EveryCardDecidedOnce` | internal/agent/gate.go:280-357 | over every interleaving a card's one-slot channel gets at most one signal, a card has at most one ApprovalDecided, and exactly one once its wait is over |
| `GateProofs.DecidedCardReturns` | internal/agent/gate.go:280-352 | from any reachable state a decided card's own steps end its wait with its event published |
| `GateProofs.OthersDoNotDelay` | internal/agent/gate.go:221-254 | no step of anybody moves a decided card further from its end |
| `GateProofs.EveryHistoryRegistered` | internal/agent/gate.go:221-254 | while no two open cards of a session share a call id, each undecided card is registered and is the one the session names |
| `GateProofs.EveryCardOfAnyHistory` | internal/agent/gate.go:280-357 | from the empty gate, over any history, at most one signal and one event a card, and exactly one event once its wait is over |
| `GateProofs.OneCardPerSession` | internal/agent/gate.go:221-254 | over any history without a repeated open call id a session has at most one registered card, the one it names, and every undecided card is registered |
| `GateProofs.UndecidedCardCanBeDecided` | internal/agent/gate.go:384-426 | over any such history a decision in scope still reaches every undecided card, and leaves every other card alone |
| `GateProofs.InitSound` | internal/agent/gate.go:83-85 | an empty gate meets the invariant, so the histories start from it |
| `GateProofs.FreshCallIffRegistered` | internal/agent/gate.go:221-254 | opening a card keeps that registration, whatever the open cards do next, if and only if no open card of the session has the same call id |
| `GateEvents.EventSaysDecision` | internal/agent/gate.go:280-357 | over every history a decided card was decided by one step about it, and its one event says that step's decision: the string that was sent, "answered", "superseded" or "dismissed"; its run gets back the same, or the answer's text |
| `GateEvents.AcceptedIffOffered` | internal/agent/gate.go:384-426 | a decision is accepted if and only if its card is registered and undecided and offers it, and a standing approval could be saved |
| `GateEvents.AnswerAcceptedIff` | internal/agent/gate.go:362-383 | an answer is accepted if and only if it has one to 4000 characters and its card is an undecided question |
| `GateObject.Gate.BeginWait` | internal/agent/gate.go:221-254 | registers the new card and takes the decision of the one it supersedes |
| `GateObject.Gate.AnnounceSuperseded` | internal/agent/gate.go:236-239 | publishes a supersession before signalling it |
| `GateObject.Gate.OnCancelled` | internal/agent/gate.go:297-307 | a cancelled wait takes the decision unless somebody else has |
| `GateObject.Gate.OnSignal` | internal/agent/gate.go:308-331 | the one signal is received once, and its decision, or "answered" for an answer, is what the wait goes on to publish |
| `GateObject.Gate.PublishDecision` | internal/agent/gate.go:353-357 | the wait publishes what it holds and returns |
| `GateObject.Gate.Cleanup` | internal/agent/gate.go:240-249 | a card's cleanup unregisters that card only |
| `GateObject.Gate.DecideWith` | internal/agent/gate.go:384-426 | every refusal in its order, and otherwise the decision and its signal |
| `GateObject.Gate.AnswerQuestion` | internal/agent/gate.go:362-383 | an answer decides a question card once |
| `Delegates.EveryRun` | internal/agent/delegate_write.go:303-339 | over every interleaving at most four helpers a chat and at most the connection's limit, counters exact and never negative, and a caller blocked on the current channel has no room |
| `Delegates.BlockedOnSomeone` | internal/agent/delegate_write.go:303-339 | a caller blocked on the current channel waits for a helper of its chat or connection that will release |
| `Delegates.HelpersWithin` | internal/agent/delegate_write.go:303-339 | counting the helpers themselves, over every interleaving: at most four of a chat, at most its limit on a connection, and a caller is blocked on the current channel only with one of them used up |
| `Delegates.Semaphore.Arrive` | internal/agent/delegate_write.go:306-331 | the locked section of a new caller is the step of the model |
| `Delegates.Semaphore.Retry` | internal/agent/delegate_write.go:332-338 | a woken caller goes round again under the lock |
| `Delegates.Semaphore.ReleaseDelegate` | internal/agent/delegate_write.go:321-328 | a release gives both places back and wakes everybody |
| `Wire.Encode` | internal/broker/wire.go:89-106 | succeeds exactly within the type's payload limit; the message is version, type, length and body by position, and Decode reads the frame back |
| `Wire.DecodeSpelled` | internal/broker/wire.go:67-86 | every frame within its limit is decoded to itself |
| `Wire.AcceptedIsSpelled` | internal/broker/wire.go:67-86 | a message is accepted if and only if it is the spelling of a frame within its limit |
| `Wire.SpelledByPosition` | internal/broker/wire.go:101-105 | byte 0 is the version, byte 1 the type, bytes 2 to 5 the body's length, highest first, and the body follows |
| `Wire.AcceptedByPosition` | internal/broker/wire.go:67-86 | a message is accepted as a frame if and only if it is that, byte by byte, and within the limit of its type |
| `Wire.Limits` | internal/broker/wire.go:49-50 | eight MiB for a ciphertext frame and 64 KiB for every other |
| `LinkProofs.Backpressure` | internal/broker/dial.go:93-185 | in every reachable state the byte count is the reserved and not yet accounted bytes, within 16 MiB, and data frames leave in the order they entered |
| `LinkProofs.NobodyForgotten` | internal/broker/dial.go:116-185 | while the link lives a parked sender has an outstanding frame, a drained token, a writer about to post one or a sender about to look |
| `LinkProgress.NoSenderStuck` | internal/broker/dial.go:116-185 | from every reachable state the writer and the senders already there can get any waiting sender's frame queued |
| `LinkFrames.EveryFrameAccounted` | internal/broker/dial.go:116-185 | in every reachable state the frames that entered each queue are exactly those of the senders of that kind that returned; each queue leaves in the order it was entered; and what was written is what left, but for the one frame in hand |
| `LinkFrames.AdmittedExactly` | internal/broker/dial.go:121-140 | in every reachable state a sender goes on exactly when nothing is reserved or all that is reserved and its frame are within 16 MiB, and enters exactly when the queue of its kind holds fewer than 2048 frames |
| `LinkFrames.ControlGoesFirst` | internal/broker/dial.go:155-165 | while a control frame waits the writer takes no data frame, but for the one its inner select may already be taking |
| `LinkFrames.EveryFrameCanBeWritten` | internal/broker/dial.go:149-185 | from every reachable state of a live link the writer alone can write every frame that has entered, each kind in order |
| `LinkObject.SocketTransport.Reserve` | internal/broker/dial.go:121-128 | reserves room or parks |
| `LinkObject.SocketTransport.EnterQueue` | internal/broker/dial.go:135-140 | a frame is put last in the queue of its kind when there is a place, and only then has its sender sent it |
| `LinkObject.SocketTransport.PickFrame` | internal/broker/dial.go:155-158 | control frames go first |
| `LinkObject.SocketTransport.WriteFrame` | internal/broker/dial.go:166-170 | a written frame is accounted next, a failed one ends the link |
| `LinkObject.SocketTransport.AccountWritten` | internal/broker/dial.go:170-173 | the written bytes are given back |
| `LinkObject.SocketTransport.Send` | internal/broker/dial.go:116-121 | acknowledgements and pongs skip the byte check, everything else goes through it |
| `LinkObject.SocketTransport.TakeToken` | internal/broker/dial.go:129-131 | a parked sender that takes the drained token looks again |
| `LinkObject.SocketTransport.GiveUp` | internal/broker/dial.go:131-140 | a sender of an ended link fails and its reservation stays |
| `LinkObject.SocketTransport.ChooseFrame` | internal/broker/dial.go:158-165 | the inner select takes either queue |
| `LinkObject.SocketTransport.PostDrained` | internal/broker/dial.go:174-178 | the drained token is posted at most once at a time |
| `LinkObject.SocketTransport.Pace` | internal/broker/dial.go:179-180 | the writer goes on to the next frame when the ticker fires |
| `LinkObject.SocketTransport.StopWriter` | internal/broker/dial.go:162-163 | the writer of an ended link stops |
| `LinkObject.SocketTransport.End` | internal/broker/dial.go:187-195 | the link ends for senders and writer alike |
| `SealingProofs.CounterDiscipline` | internal/broker/client.go:902-943 | over every run the counter in a ciphertext frame is the number of messages sealed before it under that session, counters rise in wire order and never repeat, and a session's ciphertext comes after its handshake |
| `SealingProofs.ReadsAllIffNoneLost` | internal/broker/device.go:522-554 | the other end opens every frame of a session if and only if no message the session sealed was lost before one it sent |
| `SealingTexts.FramesCarryMessages` | internal/broker/client.go:917-943 | over every run a ciphertext frame with counter n carries the id and the text of the n-th message taken under its session |
| `SealingTexts.ReadsWhatWasTaken` | internal/broker/device.go:522-554 | as far as the other end can open a session's frames, what it reads is exactly the messages taken under the session, ids and texts, in order |
| `SealingTexts.EndedIsFinal` | internal/broker/dial.go:187-195 | once a link has ended nothing more of its session is sent, whatever happens |
| `SealingTexts.DroppedTakesNothing` | internal/broker/client.go:662-668 | once the session is dropped no message is taken under any session until one is published |
| `SealingLimits.WithinLimitReadsAll` | internal/broker/client.go:902-943 | while every message's frame is within the ciphertext limit and goes to its own link, the other end reads all that any session sent, however sessions and links come and go |
| `SealingLimits.OneMessageDecides` | internal/broker/client.go:917-943 | in every reachable state, after one message and another within the limit, the session can be read whole if and only if nothing was lost before, the first frame is within the limit and its link is the session's own |
| `SealingLimits.OverLimitUnreadable` | internal/broker/wire.go:94-100 | a session whose first message has a frame over the limit: its second cannot be read |
| `Outgoing.RisesOnTheSocket` | internal/broker/dial.go:116-185 | through the paced writer the counters of a session rise in the order its frames are written to the socket, and the bytes written are those frames' |
| `SealingObject.SealingEndpoint.PublishSession` | internal/broker/client.go:633-638 | a published session counts from one, after its handshake's message |
| `SealingObject.SealingEndpoint.OpenSession` | internal/broker/device.go:313-325 | the handshake's own message is the first sealed under a session |
| `SealingObject.SealingEndpoint.DropSession` | internal/broker/client.go:662-668 | a dropped session is not sent under again |
| `SealingObject.SealingEndpoint.TakeCounter` | internal/broker/client.go:902-916 | a send takes the counter; without a session only the agent counts on |
| `SealingObject.SealingEndpoint.SealTaken` | internal/broker/client.go:917-926 | the message's own id and text are sealed with its counter, under the session it was counted in and that session's next nonce |
| `SealingObject.SealingEndpoint.HandOver` | internal/broker/client.go:927-943 | a frame is sent if and only if it is within the ciphertext limit of Encode and its link is alive; otherwise the message is lost |
| `SealingObject.SealingEndpoint.EndLink` | internal/broker/dial.go:187-195 | a link that ended takes no further frame of its sessions |
| `Executions.AtMostOnce` | internal/broker/client.go:873-898 | over any deliveries two executions of a message id are at least 1024 executions of others apart, and the remembered ids are a duplicate-free list of at most 1024 |
| `Executions.EveryCopyAnswered` | internal/broker/client.go:873-889 | a delivery runs the handler if and only if the id is not among the last 1024 executed, and is answered with what its latest execution produced |
| `Executions.Executor.DeliverRequest` | internal/broker/client.go:873-889 | the delivery's answer and memory are those of the model |
| `Executions.Executor.RememberHandled` | internal/broker/client.go:891-898 | the newest answer is kept and the oldest forgotten past 1024 |
| `Retention.EveryRun` | internal/broker/client.go:996-1032 | over any run the order is a duplicate-free listing of the retained ids, the byte count their exact sum, and both bounds hold |
| `Retention.MakeRoomEvicts` | internal/broker/client.go:1016-1028 | making room evicts the least number of messages that suffices, oldest unqueued first, and always ends |
| `Retention.RetainIsExact` | internal/broker/client.go:1010-1032 | a new message is retained if and only if it fits beside the queued ones; what is evicted is exactly the least prefix of the evictable; and if it does not fit everything evictable is gone |
| `Retention.EvictedForNothing` | internal/broker/client.go:1016-1028 | a message too big to retain costs the store the only message it held |
| `Retention.RetainAgain` | internal/broker/client.go:1010-1015 | a message already retained keeps its text and place and changes only its last sealing |
| `Retention.QueuedNotEvicted` | internal/broker/client.go:1016-1028 | a queued message is never evicted |
| `Retention.QueuedStays` | internal/broker/client.go:753-764 | once the broker holds an intent, the message's text is there until it is acknowledged or expires, whatever else is sent |
| `Retention.MarkedStays` | internal/broker/client.go:753-764 | from the moment a message is marked queued its text is kept until its own removal, through any steps |
| `Retention.RemoveExactly` | internal/broker/client.go:996-1008 | a removal takes out that message alone, and every other keeps its text and its place |
| `Retention.Retainer.RemovePending` | internal/broker/client.go:996-1008 | the removal loop takes out the id, its bytes and its first place |
| `Retention.Retainer.EvictOldest` | internal/broker/client.go:1018-1024 | the inner loop removes the oldest unqueued message if there is one |
| `Retention.Retainer.RetainPending` | internal/broker/client.go:1010-1032 | the nested loops compute the retention the theorems are about |
| `Retention.Retainer.Queued` | internal/broker/client.go:753-764 | a queued message is marked |
| `Pairing.NewPairingCode` | internal/broker/pairing.go:26-38 | prints the twelve base-32 digits of the sixty bits it keeps, in three groups |
| `Pairing.RoundTrip` | internal/broker/pairing.go:26-68 | for any eight random bytes the printed code decodes to exactly the bytes kept |
| `Pairing.TwelveDigitCodes` | internal/broker/pairing.go:55-68 | a code decodes to eight bytes if and only if, cleaned, it is what is printed for them and they are below two to the sixtieth |
| `Pairing.FortyDigitCodes` | internal/broker/pairing.go:69-82 | a code decodes to twenty bytes if and only if, cleaned, it is forty digits below sixteen, two to each byte, the higher half first |
| `Pairing.AlphabetIs` | internal/broker/pairing.go:23 | the alphabet is the digits and the capital letters but I, L, O and U, in rising order |
| `Pairing.HighestFirst` | internal/broker/pairing.go:32-36 | digits are base 32 and bytes base 256, the highest first |
| `Pairing.DecodePairingCode` | internal/broker/pairing.go:42-82 | the decoder's loops compute the decoding, with its refusals |
| `PairingSpelling.RespelledDecodes` | internal/broker/pairing.go:43-54 | changing case, or O for 0 and I or L for 1, anywhere in any code changes nothing |
| `PairingSpelling.AlikeLetters` | internal/broker/pairing.go:47-53 | either case of a letter, O and 0, and I, L and 1 are alike |
| `PairingSpelling.SpaceAnywhere` | internal/broker/pairing.go:43-54 | a space put in or taken out anywhere changes nothing |
| `PairingSpelling.DashExactly` | internal/broker/pairing.go:43-54 | a dash changes nothing where it shields no other white space from being trimmed; elsewhere the code with the dash is refused |
| `PairingSpelling.DashInAccepted` | internal/broker/pairing.go:43-54 | a dash may be taken out of any accepted code, and put into one if and only if it shields no other white space |
| `PairingSpelling.DashBeforeTab` | internal/broker/pairing.go:43-54 | a leading tab is forgiven, but not behind a dash |
| `Budget.ExactTelescopes` | internal/agent/budget.go:385-544 | the categories add up to at least the count of the whole request, and to exactly that count if and only if no longer prefix renders to fewer tokens |
| `Budget.CategoriesExact` | internal/agent/budget.go:414-531 | a category holds the head's part and the shares of its own messages, nothing else |
| `Budget.HeadBooks` | internal/agent/budget.go:388-475 | each category of the head from the renderings: the base prompt whole, and the project, skills, workspace memory, agent memory and tools what each adds to the one before |
| `Budget.GroupsAnswered` | internal/agent/budget.go:476-489 | grouping succeeds only if every assistant message is followed by a result for each of its calls, and is refused as incomplete only otherwise |
| `Budget.EachMessageOnce` | internal/agent/budget.go:476-533 | in a measured request each message is in exactly one group |
| `Budget.GroupsChain` | internal/agent/budget.go:476-533 | each group is an answered message with its results, and its shares add up to what its rendering added |
| `Budget.IncompleteOnlyIfUnanswered` | internal/agent/budget.go:486-488 | the incomplete-group error means some call has no result behind it |
| `Budget.SplitSums` | internal/agent/budget.go:522-532 | whatever the rounding, a group's shares add up to the group's tokens |
| `Budget.LastShareBound` | internal/agent/budget.go:522-532 | rounding to the nearest, the last share is short of its part by at most half a token per other message |
| `Budget.NonnegativeIffUpToThree` | internal/agent/budget.go:522-532 | rounding to the nearest, no group of a size ever has a negative share if and only if the size is at most three |
| `Budget.EqualMessagesNegative` | internal/agent/budget.go:522-532 | for every size from four on, equal messages sharing half as many tokens leave the last one a negative share |
| `Budget.NegativeShare` | internal/agent/budget.go:522-532 | four equal messages sharing two tokens: the last one's share is minus one |
| `BudgetMeter.MeasureExact` | internal/agent/budget.go:385-544 | the loops of the exact branch compute the measurement, with its errors in order |
| `BudgetMeter.RenderSystem` | internal/agent/budget.go:385-475 | the growing system prompt and the tools, template-counted or added |
| `BudgetMeter.ExtendGroup` | internal/agent/budget.go:478-485 | a group takes the tool results behind it, up to its calls |
| `BudgetMeter.WeighGroup` | internal/agent/budget.go:499-521 | the weights of a group, or the first that cannot be counted |
| `BudgetMeter.BookGroup` | internal/agent/budget.go:522-532 | each share goes to its message's category |
| `BudgetMeter.SumAccounts` | internal/agent/budget.go:541-544 | the sum does not depend on the order of the categories |
| `Fitting.FairAndWithinRoom` | internal/agent/run_phases.go:950-1006 | with every bare note within an even share, the fitted results take at most the room, each is offered the even part of what is left, at least an even part of the whole, and shares never shrink |
| `Fitting.OverOnlyByNote` | internal/agent/tool_window.go:24-54 | a result goes over its share only as its bare note, and only when the note does |
| `Fitting.WithinRoomExactly` | internal/agent/run_phases.go:950-1006 | without a byte limit the fitted results take at most the room if and only if none is cut to a bare note larger than all that is left |
| `Fitting.SmallResultsUntouched` | internal/agent/tool_window.go:37-39 | all results are sent whole when the window is unknown, and when each is at most an even part of the room |
| `Fitting.NoteOverRoom` | internal/agent/tool_window.go:40-45 | a note that does not fit its share takes the results over the room |
| `Fitting.CutIsLongest` | internal/agent/tool_window.go:101-118 | a cut is the note or parts around it within the limit, and when tokens grow with the kept length it is the longest cut that fits |
| `Fitting.PartsDisjoint` | internal/agent/tool_window.go:102-106 | head and tail are the content's own ends, without overlap |
| `Fitting.CutIsCut` | internal/agent/tool_window.go:101-118 | the cut is the bare note, or the cleaned first p characters, the note and the cleaned last q between blank lines, with p two thirds of p + q, within the limit, and p + q the greatest that fits when tokens grow with the kept length |
| `Fitting.RoomLeavesMargin` | internal/agent/run_phases.go:951-956 | room, reserve, use and 1024 tokens of margin fill the window, or there is no room |
| `Fitting.FittedAndCapped` | internal/agent/tool_window.go:24-54 | what is sent is the content where it fits its share and otherwise its cut, capped when over a quarter of the byte limit, and marked too large exactly when cut or capped |
| `Fitting.CutResultToTokens` | internal/agent/tool_window.go:101-118 | the binary search over the kept length computes the cut: the content's ends around the note, as long as fits, or the bare note |
| `Fitting.FitWindowResult` | internal/agent/tool_window.go:24-54 | one result, its share and the byte cap |
| `Fitting.FitResults` | internal/agent/run_phases.go:957-1006 | the loop fits each result in place from what the ones before it left, and leaves those after a cancellation alone |
| `Guards.VerdictIs` | internal/agent/guards.go:46-93 | a call is a cycle if and only if the last window calls since the reset are identical; otherwise a key's cycle if and only if its last six counted results since the reset are the same, and a steer if and only if exactly the last three are and the key was never steered |
| `Guards.PriorIs` | internal/agent/guards.go:53-67 | the prior call a verdict names, from the whole history |
| `Guards.SteerThenCycle` | internal/agent/guards.go:82-92 | in every run each key is steered at most once, and every key cycle comes after that key's steer |
| `Guards.QuietWithoutWindow` | internal/agent/guards.go:50-52 | without a window no call of any run gets a verdict |
| `Guards.RunGuards.Consecutive` | internal/agent/guards.go:53-61 | the loop counts the identical calls at the end of the list |
| `Guards.RunGuards.ObserveKey` | internal/agent/guards.go:69-92 | the key's streak and its verdict |
| `Guards.RunGuards.ObserveCall` | internal/agent/guards.go:46-93 | an observation and its verdict are those of the model |
| `Guards.RunGuards.Restart` | internal/agent/guards.go:95-100 | a reset empties the list and every count, and keeps what was steered |
| `Ids.FloorBelow` | cmd/harness/main.go:292-300 | no id of any restored chat ends in a number above the floor |
| `Ids.FloorHeld` | cmd/harness/main.go:292-300 | the floor is where it started or a number some restored id ends in, so no higher than needed |
| `Ids.DecimalPlaces` | cmd/harness/main.go:405-407 | numbers are read as decimal, the highest digit first |
| `Ids.AboveFloorFresh` | cmd/harness/main.go:396-419 | an id minted above the floor is none of the ids the floor was taken over |
| `Ids.MintedNoted` | cmd/harness/main.go:397-409 | the number read off a minted id is the number it was minted from |
| `Ids.SnapshotIDFloor` | cmd/harness/main.go:396-419 | the loops compute the chat's floor |
| `Ids.NoteIDs` | cmd/harness/main.go:397-412 | the greatest number noted so far, those too big for a counter ignored |
| `Ids.TrailingDigits` | cmd/harness/main.go:398-401 | finds where an id's last digits begin |
| `Reminting.DistinctIffNoClash` | internal/context/compact.go:87-105 | for every list and every floor, from these alone: the reminted list repeats no id if and only if no message that needs a new id is given one an earlier message holds |
| `Reminting.OnlyWrappedClash` | internal/context/compact.go:99-100 | with a sufficient floor only an id counted past the top of the range can clash |
| `Reminting.RemintSound` | internal/context/compact.go:87-105 | with a sufficient floor and no wrap the ids are distinct, exactly the repetitions are listed, all else is kept, and the new floor is sufficient again |
| `Reminting.ChangesSpelled` | internal/context/compact.go:99-103 | below the top of the range the listed changes are in order, each naming the id replaced and "m-" with the next number |
| `Reminting.RemintTwice` | internal/context/compact.go:87-105 | reminting a list without repetitions changes nothing |
| `Reminting.WrapRepeats` | internal/context/compact.go:99-100 | at the top of the range the new id wraps and can repeat one already held |
| `Reminting.RemintDuplicateIDs` | internal/context/compact.go:87-105 | the loop computes the reminted list, its changes and the floor |
| `Restart.RestoreSound` | cmd/harness/main.go:301-324 | with the floor taken over all chats, each restored chat's ids are distinct and an id two restored chats share was in both before |
| `Restart.ReservedForGood` | internal/agent/run.go:384-395 | however reservations, retries and minting interleave, until the counter wraps every number minted is new and above every floor reserved before |
| `Restart.FreshAfterRestart` | cmd/harness/startup_restore.go:70-75 | an id minted after the restart is no message id and no run id of a restored chat |
| `Restart.RestoreRetainedChats` | cmd/harness/main.go:292-324 | the two loops compute the floor and the reminted chats |
| `Restart.IdCounter.Id` | internal/agent/run.go:282 | an id is the next number under its stem |
| `Restart.IdCounter.ReserveCounter` | internal/agent/run.go:388-395 | the compare-and-swap loop ends with the counter at or above the floor and never lowers it |
| `Names.SanitizeComponent` | internal/chatstore/names.go:21-46 | a sanitized name is never empty, holds no forbidden character, ends in neither dot nor space and is within 255 UTF-16 units |
| `Names.SanitizedAllowed` | internal/chatstore/names.go:21-28 | no character of a sanitized name is a control character or one of the nine literal ones |
| `Names.SanitizeByCharacter` | internal/chatstore/names.go:21-46 | a label of at most 254 units, character by character: allowed ones are kept in place, others become underscores, trailing dots and spaces go, reserved names get an underscore, an empty rest becomes "chat" |
| `Names.ReservedExactly` | internal/chatstore/names.go:33-46 | it is a reserved device name if and only if the first 255 units of the cleaned label are a reserved word, a space and only dots and spaces |
| `Names.ReservedWitness` | internal/chatstore/names.go:33-46 | "CON", enough spaces and one more character come out as "CON" |
| `Names.ReservedAre` | internal/chatstore/names.go:13-17 | the reserved names are CON, PRN, AUX, NUL and COM or LPT with a digit from one to nine |
| `Names.CandidatesDiffer` | internal/chatstore/names.go:62-65 | distinct counters give names that differ even ignoring case |
| `Names.CandidateShape` | internal/chatstore/names.go:62-65 | a candidate is a beginning of the name ending in neither dot nor space, then the counter in brackets |
| `Names.UnitsAre` | internal/chatstore/names.go:71-88 | a name's units are its characters and one more for each beyond the basic plane |
| `Names.TakenIsBounded` | internal/chatstore/names.go:54-68 | by pigeonhole no more counters can be taken than there are entries |
| `Names.CandidateFits` | internal/chatstore/names.go:63-64 | a candidate is within 255 units whenever its suffix is |
| `Names.CandidateComponent` | internal/chatstore/names.go:63-66 | a candidate holds no forbidden character, ends in neither dot nor space and is within the limit whenever its suffix is |
| `Names.AvailableName` | internal/chatstore/names.go:49-69 | the search ends, and finds the sanitized label or the first free counter, a name no entry has ignoring case and a component unless the counter's suffix alone is too long |
| `Names.SanitizeName` | internal/chatstore/names.go:21-46 | the loops compute the sanitized name |
| `Names.TruncateUnits` | internal/chatstore/names.go:73-88 | the loop keeps the longest beginning within the units |

## Left out

- Registry and configuration: every session a scheduler section names is taken to be registered, and the configuration and each session's connection are fixed for a history.
- Session status and `IsRunning` are whatever the environment answers; each submission carries the answers it gets.
- SchedulerHolds.RestoreOutcome: the restored entries are given; that a queued id without its message is dropped first is not modelled.
- The scheduler's returnActiveMessage, the agent-idle callback, queue positions in event payloads and the contents of events and log lines.
- A `*activeRun` is named by its run id, which the lifecycle theorem shows is started once; waits, deliveries and senders are entries of sequences rather than heap objects, so aliasing between them is not modelled.
- A card's key is the pair of its session and call ids, so ids that contain a NUL character are not modelled.
- The gate's standing-grant store is a yes-or-no answer to saving, and a mailbox decision is a decide step like any other.
- The device's slot tokens and the choice of which messages a RESEND or a resync names: each re-send is a send of an already retained message.
- Noise, Ed25519, X25519 and AEAD: the cipher is ideal, a box is its session, nonce, header and text. Key epochs are not distinguished from sessions.
- JSON, base64 and hexadecimal texts: a payload is its bytes and an id is a string; a message's frame size comes with the message.
- Estimated-mode accounting, the sentinel repair inside a rendering, and schema and marginal costs; message counts are kept by position rather than by record id.
- Budget.LastShareBound: rounding is to the nearest rational, so the last bit of a 64-bit float quotient is not modelled.
- Saving a cut result to disk and the text of its note; the server's byte cap is a parameter.
- Guards.VerdictIs: digests are opaque non-empty strings, so two calls with equal digests count as identical.
- Reading a directory that fails, and renaming races between choosing a name and creating it.
- Names.AvailableName: case mapping is a parameter that fixes digits, brackets and blanks, as Unicode's does.
- PairingSpelling.DashExactly: upper case and white space are parameters that agree with Unicode on ASCII.
- Wall-clock timers, back-off and pacing delays appear only as steps that may happen at any time.
- The web server, windowing, installer, attachments, prompts, the compactor's other rules and the tools.
