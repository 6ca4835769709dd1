# The gateway's durable inbound path, and the state machines around it

A verified model of how the messaging gateway accepts messages, numbers them and never loses them, together with the
smaller state machines that path leans on.

## What is modelled

**The inbound protocol.** `InboundProtocol` is a step system over any number of accounts. A step is what the code runs
between two `await`s, or one operation of the database or of the failed log's file, so a run is any interleaving of
handling, enriching, retrying, writing off, replaying, recovering, probing, draining, retention and crashes. An attempt to
store a message commits and answers, commits and loses its answer, or does not commit. A message is its position in the
order of the `handle()` calls; envelope ids are made fresh for each message, so the position stands for the id too.
A process that dies keeps the log and the failed log and starts again with a pass, before any account connects.

`ProtocolInvariants` says what holds in every reachable state, in groups that each read a part of the state; the `*Steps`
and `*Lemmas` files prove that every step keeps all of it, and `ProtocolTheorems`, `OrderTheorems`, `GivenSteps`,
`DuplicateTheorems`, `FilterTheorems`, `FateTheorems`, `VerdictTheorems`, `AttemptTheorems` and `PassReplay` draw the guarantees from it:

* the numbers of an account follow the order of arrival, whatever earlier processes did and however they ended: of all
  that came since the present process started, as long as it has not begun to stop and has not put the account in
  disorder. `TheseCostTheOrder` says exactly what does: a pass that leaves the circuit closed over an entry it kept, a
  recovery whose `catch` closes the circuit in the middle of a later one, a failure of the file that ends a pass which let go
  of an entry, or retention of a row still needed; and exactly what the next process inherits. An entry let go of is one without a row, with something that came no earlier already numbered:
  `DyingCostsExactly` and `FailingCostsExactly` show that reading it again breaks the order exactly then, and
  `LettingGoCostsTheOrder` is a run in which that alone turns two messages around;
* within one pass, the numbers an account gets follow the order of the file, in every state (`PassNumbersInOrder`);
* a pass that dies anywhere and the pass after it leave the log as one pass would have left it, however often that
  happens, and what other accounts' entries meet makes no difference to an account (`PassReplay`);
* nothing accepted is lost, and what `drain` answers for is on disk or settled when it returns;
* the numbers of an account are 1 to its counter, each with one message; what is emitted is emitted once, in order, and
  with a number that is already in the log; a lost answer costs a message nothing; two messages emitted with a number are
  never the same WhatsApp message while the first one's row is there;
* from its arrival on, a message is emitted exactly if the filter accepted it, `drain` did not take it first and no answer
  silenced it; what is refused, lost or rejected is so for the one reason that makes it so (`EveryEndHasItsCause`); and it is
  given up on exactly when the attempts, the circuit or a shutdown say so (`GivenUpExactly`);
* while the circuit is open a probe is pending or in flight, and while it is recovering a recovery is under way; with it
  closed, and until a shutdown, an entry waits in the failed log with no timer set and no pass to look at it if and only if such
  a `catch` neglected it (`WatchSteps`, `NothingWaitsUnwatched`).

**The parts that keep state** are classes, changed in place, whose methods are proved against the same functions:
`MessageStore.Log` (the insert transaction and the batched delete), `StoreGuard.Breaker` (the circuit and the attempt loop),
`InboundPipeline.Pipeline` (queues, unsaved messages, write-offs, timer), `FailedInboundFile.LogFile` (the file).

**The failed log on disk.** `JsonText`, `FailedLines` and `FailedInboundFile` are about the text itself: appends cut short at
any character, passes cut short anywhere, junk lines; `RejectedRecords` and `RejectsFile` about what is rejected. `FailedLogRefinement` ties the text to the protocol's sequence of messages.

**Reading the log.** `MessagePaging` (pages by cursor) and `LiveConsumer` (a consumer that reads on gaps and reconnects, and tells
messages apart by id, while messages are stored and retention runs); `PipelineConsumer` puts that consumer behind the protocol itself.

**Second cores.** `SocketManager`, `LiveSockets` and `Reconnects` (WhatsApp sockets, and that they come back), `Subscriptions` (SDK and server agree on the filter),
`AccountRepository` (commits and observations), `ConnectionAlerts` (outages), `MediaService` (download slots, retries, resuming),
`TtlCache`.

## Where the code and its documentation part

The model does what the code does. In seven places that is less than a comment or the obvious reading promises; each has a lemma
with a concrete run or input, and one with the exact condition.

* An append to the rejects does not look at how that file ends (`failed-inbound-file.ts:110-119`), unlike an append to the failed log.
  After a crash in the middle of one, the entry is rejected again and its record is glued to the fragment, and then neither can be
  read: `RejectedAndUnreadable` is a run after which an accepted entry is readable nowhere, `RecordsCanBeRead` the condition over
  every run.
* A delivered alert repeats after six hours, but not if the outage changed its kind while the alert was on its way; dropping after a
  short reconnect is enough (`connection-alert.subscriber.ts:131`, `:155-157`): `OnlyTheseExcuse`, `DroppingExcuses`.
* The end of a disconnect drops whatever entry the account has by then (`baileys-socket.manager.ts:355-370`). If that is another,
  live socket, it goes on delivering and nothing of the manager closes it: `LiveSocketsAreCurrent` is the exact condition over
  every run, `DisconnectMaySetAdrift` the run.
* "Numbers keep the order of arrival" (`inbound-pipeline.ts:81-84`) needs more than no entry being kept: `LettingGoCostsTheOrder` is a
  run, `DyingCostsExactly` and `FailingCostsExactly` the condition.
* The circuit closes after a pass that missed nothing (`inbound-pipeline.ts:175-179`), but the `catch` that
  closes it too also covers the resuming of media that follows (`:191-195`), which fails when a query of the log does
  (`media-service.ts:99-113`). By then a later recovery may be in the middle of its pass. `ResumingCostsTheOrder` is a run in which
  a message is then stored ahead of one the failed log still holds, and `ResumingLeavesAnEntry` one that leaves an entry which
  nothing looks at; `TheseCostTheOrder` and `NothingWaitsUnwatched` have the conditions.
* "A duplicate is neither emitted nor reprocessed" (`inbound-pipeline.ts:71-72`) is so of one whose attempt is answered. Refused during an
  outage it is written off and emitted, without a number (`:302-306`, `:374-383`): `DuplicateIsEmitted` is a run,
  `DuplicateIsEmittedIfUnanswered` the condition.
* Storing an entry of the failed log again is a no-op (`failed-inbound-file.ts:142-145`) while its row is there. Retention goes by age
  alone (`sqlite-message-store.ts:359-370`), and an entry may wait for longer: `RetentionMakesASecondNumber` is a run,
  `OfferingAgainIsNothing` the condition.

## Model

| member | source | states |
|---|---|---|
| WorldSteps.StepKeeps | src/core/inbound/inbound-pipeline.ts:109-404 | every step of the protocol, of any kind and with any answer, keeps every invariant |
| WorldSteps.InitHolds | src/index.ts:251-261 | a new installation, whose start replays before accounts connect, satisfies the invariants |
| WorldSteps.CrashKeeps | src/core/inbound/inbound-pipeline.ts:126-138 | a process may die at any step and start again |
| WorldSteps.RetentionKeeps | src/persistence/sqlite-message-store.ts:359-370 | any rows may be removed at any moment, also of messages still to be stored |
| WorldSteps.DrainTakesKeeps | src/core/inbound/inbound-pipeline.ts:261-275 | `drain` may take over what is unsaved at any moment, whoever is on the way with it |
| ArrivalSteps.HandleKeeps | src/core/inbound/inbound-pipeline.ts:109-124 | a message may arrive at any moment |
| ArrivalSteps.ConcludeKeeps | src/core/inbound/inbound-pipeline.ts:302-312 | ending a message, emitted or as a duplicate, keeps order and numbers of what is emitted |
| AnswerSteps.AnswerKeeps | src/core/inbound/store-guard.ts:71-78 | an attempt may commit and answer, commit and not answer, or not commit |
| AnswerSteps.FailedKeeps | src/core/inbound/store-guard.ts:76-87 | giving up on a message, at once, out of attempts or stopping, and opening the circuit, keep the invariants |
| WriteOffSteps.WriteOffKeeps | src/core/inbound/inbound-pipeline.ts:374-383 | a refused message may be written off, or left to `drain`, with any circuit |
| WriteOffSteps.AppendEndsKeeps | src/core/inbound/inbound-pipeline.ts:376-381 | after its append a message waits for a pass of its own if the log takes messages directly |
| KeepSteps.FileStepKeeps | src/persistence/failed-inbound-file.ts:57-162 | each operation on the file, working or failing, keeps the invariants |
| KeepSteps.EndLinesKeeps | src/persistence/failed-inbound-file.ts:102-107 | a pass may end in any mix of saved, kept and rejected entries |
| LineSteps.LineAnswerKeeps | src/core/inbound/store-guard.ts:96-114 | so may an entry that commits with or without an answer, or does not |
| OtherSteps.RecoverGoesOnKeeps | src/core/inbound/inbound-pipeline.ts:187-192 | passing again, or closing the circuit over what the last pass kept and beginning to resume media, keeps the invariants |
| OtherSteps.ResumeEndsKeeps | src/core/inbound/inbound-pipeline.ts:192-195 | so does the end of the resuming at any later moment, also if it fails and closes the circuit over another recovery's pass |
| OtherSteps.PersistGoesOnKeeps | src/core/inbound/inbound-pipeline.ts:379-381 | a message goes on after the pass it asked for |
| OtherSteps.ProbeAnswersKeeps | src/core/inbound/store-guard.ts:162-175 | a probe may answer at any moment, and then a recovery starts |
| ProtocolTheorems.ReachableHolds | src/core/inbound/inbound-pipeline.ts:66-85 | the invariants hold in every state some run reaches |
| OrderTheorems.NumbersFollowArrival | src/core/inbound/inbound-pipeline.ts:126-138 | whatever earlier processes did: of two stored messages of an account this process keeps in order, the later one of which came since it started or since the order was last spoilt, the earlier has the smaller number |
| OrderTheorems.NothingOvertakes | src/core/inbound/inbound-pipeline.ts:74-84 | whatever of such an account is still to be stored came after everything that is stored and counts |
| OrderTheorems.TheseCostTheOrder | src/core/inbound/inbound-pipeline.ts:132-138 | an account gets in disorder if and only if a pass or a recovery's loop leaves the circuit closed over an entry of it, a failed resuming closes it midway, a failure of the file brings back an entry let go of, or a row still needed goes; and from where on order counts after a death |
| OrderTheorems.DyingCostsExactly | src/core/inbound/inbound-pipeline.ts:126-138 | with nothing passed before, a death lets something unnumbered fall behind a number exactly if the pass had let go of an entry of the account without a row that something numbered came no earlier than |
| OrderTheorems.FailingCostsExactly | src/persistence/failed-inbound-file.ts:102-107 | and so does a failure of the file that ends a pass |
| GivenSteps.PassNumbersInOrder | src/persistence/failed-inbound-file.ts:82-100 | of two lines of an account that got their numbers in this pass, the first has the smaller, in every state of every run |
| OrderCounterexample.LettingGoCostsTheOrder | src/persistence/failed-inbound-file.ts:102-107 | a run without a shutdown, and with no entry kept behind a closed circuit, that numbers the later message first |
| ResumeCounterexample.ResumingCostsTheOrder | src/core/inbound/inbound-pipeline.ts:191-195 | a run with no shutdown, death or retention, and no entry kept or let go of, that numbers the later message first |
| OrderTheorems.ClosingSawEverything | src/core/inbound/inbound-pipeline.ts:175-195 | only a recovery's loop or a failed resuming closes a recovering circuit; when a loop whose last pass worked does, no append is on its way and all the file holds is what that pass kept, and otherwise every account with an entry in the file is put in disorder |
| OrderTheorems.ClosedMeansCaughtUp | src/core/inbound/inbound-pipeline.ts:178-180 | with the circuit closed, what the file holds of an account in order is the message its queue waits for |
| ProtocolTheorems.NothingAcceptedIsLost | src/core/inbound/inbound-pipeline.ts:93-94 | every message handled is unsaved, left to `drain`, logged, in the failed log or rejects, or its end was decided; else it died in memory with an earlier process; and a death takes only what memory alone held |
| ProtocolTheorems.DrainLeavesNothingInMemory | src/core/inbound/inbound-pipeline.ts:257-286 | when `drain` has returned, nothing accepted before its snapshot exists only in memory |
| ProtocolTheorems.NumbersAreDense | src/core/inbound/inbound-pipeline.ts:69-72 | the numbers of an account are 1 to its counter, each with one message, and a message has one number unless retention removed its row while it could still be stored |
| ProtocolTheorems.OfferingAgainIsNothing | src/persistence/failed-inbound-file.ts:142-145 | offering an entry that was stored changes nothing if and only if the log still has its message, which it has unless retention removed the row; else it gets one more number |
| RetentionCounterexample.RetentionMakesASecondNumber | src/persistence/sqlite-message-store.ts:359-370 | a run in which it does |
| PassReplay.DyingMidPassChangesNothing | src/persistence/failed-inbound-file.ts:77-108 | with every line meeting the same, offering some lines, dying there or in the middle of the next, and offering all again leaves the same log and the same outcomes as offering all once |
| PassReplay.Survives | src/persistence/failed-inbound-file.ts:142-145 | and so it is after any number of such deaths |
| PassReplay.DyingAmongLiveMessages | src/persistence/failed-inbound-file.ts:46-47 | with live messages of other accounts going on between the lines, through their attempts, a pass that dies and the next one leave an account's rows and numbers, and every outcome, as one undisturbed pass |
| ProtocolTheorems.EmittedOnceInOrder | src/core/inbound/inbound-pipeline.ts:302-312 | each message is emitted once, per account in order of arrival, with growing numbers; one whose answer named another row is not |
| DuplicateTheorems.NumberedEmissionsAreDistinct | src/core/inbound/inbound-pipeline.ts:69-72 | two numbered emissions of an account are never the same message by either id, unless the first one's row is gone |
| DuplicateSteps.OnlyRetentionRemoves | src/persistence/sqlite-message-store.ts:359-370 | and a row goes, or changes, through retention alone |
| DuplicateTheorems.DuplicateIsEmittedIfUnanswered | src/core/inbound/inbound-pipeline.ts:302-306 | a message the log has under another id when its turn comes is emitted, without a number, if and only if no attempt of it is answered, whatever else happens short of a death or the removal of that row |
| DuplicateTheorems.EmittedUnlessSilenced | src/core/inbound/inbound-pipeline.ts:302-306 | any message is emitted, short of a death, if and only if no attempt of it was answered while the log had its WhatsApp id under another id; an original that waits in the failed log silences nothing |
| FilterTheorems.EmittedIfAccepted | src/core/inbound/inbound-pipeline.ts:288-313 | from its arrival on, short of a death: a message is emitted if and only if the filter accepted it, `drain` had not taken it by its turn or its verdict, and no answer silenced it |
| FilterTheorems.RefusedIsNowhere | src/core/inbound/inbound-pipeline.ts:295-298 | a message the filter refuses when its turn comes is never offered to the log, written to the failed log or emitted, before or after, over any run and any deaths |
| FateTheorems.EveryEndHasItsCause | src/core/inbound/inbound-pipeline.ts:157-172 | over any run a message counts as filtered, discarded, lost, rejected, a duplicate, repeated or dead if and only if the run has the verdict, the failed append, the rejects written, the answer or the death that makes it so |
| VerdictTheorems.OutcomesAreDecided | src/core/inbound/inbound-pipeline.ts:137-155 | over any run: what a pass has come to for an entry, leaving, given up on or staying, it came to by a verdict, an answer, an open circuit or an earlier entry of its account that decides so, and every such step has that outcome; and whatever is among the rejects had waited too long or was refused for good |
| AttemptTheorems.GivenUpExactly | src/core/inbound/store-guard.ts:69-90 | over any run: a message is refused by a step if and only if an attempt finds the circuit not closed, or one was refused for good, was the last there is, or failed while stopping; after any other failure it waits and is tried again |
| AttemptTheorems.AcceptedOnceStarted | src/index.ts:251-261 | over every run a message may arrive if and only if the latest process is through with its first pass |
| AttemptTheorems.DrainCancelsTheTimer | src/core/inbound/inbound-pipeline.ts:257-261 | once `drain` has begun the timer of the failed log never goes off, over any run short of a death |
| DuplicateTheorems.SecondCopyIsDropped | src/core/inbound/inbound-pipeline.ts:143-159 | of two copies in the failed log, the one offered second leaves it with no number and no emission |
| DuplicateCounterexample.DuplicateIsEmitted | src/core/inbound/inbound-pipeline.ts:374-383 | a run in which one WhatsApp message, in the log once, is emitted twice |
| ProtocolTheorems.EmittedNumbersAreInTheLog | src/core/inbound/inbound-pipeline.ts:69-72 | the log has the message under the number emitted, and some message under every number below |
| ProtocolTheorems.EndsAsItIs | src/core/inbound/inbound-pipeline.ts:302-306 | a stored message is emitted with the number the log has it under, a duplicate of another not at all, and one written off without a number but safe |
| ProtocolTheorems.LostAnswerCostsNothing | src/core/inbound/store-guard.ts:140-147 | a retry of a message whose commit went through finds the number it got, and it is emitted with it |
| ProtocolTheorems.TheCircuitIsWatched | src/core/inbound/store-guard.ts:116-175 | until stopped: open exactly while a probe is pending or in flight; recovering only while a recovery is under way; attempts bounded |
| ProtocolTheorems.NothingWaitsUnwatched | src/core/inbound/inbound-pipeline.ts:43-47 | after any run, until a shutdown: an entry in the failed log has a timer set, a pass that read it or will, a watched circuit or its own write-off under way, unless, if and only if, a failed resuming neglected it and nothing looked at it since |
| WatchSteps.StepWatched | src/core/inbound/inbound-pipeline.ts:160-195 | a step leaves an entry unwatched if and only if it is a resuming that fails while the circuit is recovering, with no timer set, the entry's write-off over, and no pass but one that read the file before the entry came |
| ResumeCounterexample.ResumingLeavesAnEntry | src/core/inbound/inbound-pipeline.ts:191-195 | a run that ends with the circuit closed, an entry in the failed log, and no timer, pass, probe or write-off left |
| PassReplay.StuckAccountHoldsNoOtherBack | src/core/inbound/inbound-pipeline.ts:132-138 | two passes over one file that differ only in what other accounts' lines meet give an account's lines the same outcomes and its messages the same numbers and rows, until one opens the circuit |
| ProtocolTheorems.WhatStaysIsASuffix | src/core/inbound/inbound-pipeline.ts:143-159 | in a pass, of each account what leaves comes before what stays |
| StoreGuard.EachOutageEndsWithOneCall | src/core/inbound/store-guard.ts:149-175 | along any run, `onAnswering` was called once for each outage but the one still going on |
| StoreGuard.InsertIsBounded | src/core/inbound/store-guard.ts:68-90 | one insert makes at most one attempt more than there are delays, all but the last transient failures; it stores exactly what the last one answers |
| StoreGuard.InsertIsExactly | src/core/inbound/store-guard.ts:69-90 | which attempts there are, and the circuit after them: what the world did to it up to the last, opened if and only if the attempts ran out; a stop seen after one ends them |
| StoreGuard.OnlyRunningOutOpens | src/core/inbound/store-guard.ts:42-50 | left alone, an insert changes the circuit if and only if every attempt was made and failed for now |
| StoreGuard.StoppedProbesNoMore | src/core/inbound/store-guard.ts:133-138 | after a stop no probe goes out and the failed log is not called for, over any run |
| AttemptTheorems.CircuitFollowsTheGuard | src/core/inbound/store-guard.ts:149-175 | every step of the protocol moves the circuit as the guard's own events do, and only a message out of attempts, a failed probe, a recovery's end, a probe and a stop do |
| AttemptTheorems.EveryOutageIsRecovered | src/core/inbound/store-guard.ts:162-175 | over any run short of a death, each outage that is over was ended by one probe that wrote, which started one recovery |
| StoreGuard.Breaker.Insert | src/core/inbound/store-guard.ts:69-90 | the attempt loop on the fields does what `InsertIsExactly` says, whatever happens to the circuit meanwhile |
| StoreGuard.Breaker.OpenCircuit | src/core/inbound/store-guard.ts:149-155 | opens once, schedules the probe and wakes every waiting message |
| StoreGuard.Breaker.CloseAfterRecovery | src/core/inbound/store-guard.ts:127-131 | closes only a recovery that nothing cut short |
| StoreGuard.Breaker.StopForGood | src/core/inbound/store-guard.ts:134-138 | stops, cancels a probe that is only scheduled, and wakes every waiting message |
| StoreGuard.Breaker.OnProbed | src/core/inbound/store-guard.ts:162-175 | what a probe's answer does, and whether the failed log is called for |
| InboundPipeline.HeadsHaveTheirTurn | src/core/inbound/inbound-pipeline.ts:109-124 | a message's turn has come exactly when it is at the head of its account's queue |
| InboundPipeline.Pipeline.HandleMessage | src/core/inbound/inbound-pipeline.ts:109-124 | the message joins its account's queue and the unsaved ones, as the protocol's step says |
| InboundPipeline.Pipeline.TakeTurn | src/core/inbound/inbound-pipeline.ts:288-292 | the head of a queue starts, or ends at once if `drain` has it |
| InboundPipeline.Pipeline.AfterEnrich | src/core/inbound/inbound-pipeline.ts:292-299 | `drain` and the filter may end it here |
| InboundPipeline.Pipeline.CatchRefusal | src/core/inbound/inbound-pipeline.ts:374-383 | a refusal is counted and written off unless `drain` has the message |
| InboundPipeline.Pipeline.AfterAppend | src/core/inbound/inbound-pipeline.ts:376-381 | whether a pass of its own comes next |
| InboundPipeline.Pipeline.AfterPersist | src/core/inbound/inbound-pipeline.ts:302-312 | what is emitted, and that its queue goes on |
| InboundPipeline.Pipeline.RetryHeldLater | src/core/inbound/inbound-pipeline.ts:208-216 | a pass that leaves something, or fails, leaves a timer behind unless draining |
| InboundPipeline.Pipeline.StartDraining | src/core/inbound/inbound-pipeline.ts:261-264 | the guard stops and the timer goes |
| InboundPipeline.Pipeline.TakeUnsaved | src/core/inbound/inbound-pipeline.ts:273-275 | what is unsaved is `drain`'s from here |
| InboundPipeline.Pipeline.AfterRecoveryPass | src/core/inbound/inbound-pipeline.ts:186-194 | passes again exactly if something was written off since, while still recovering; else closes the circuit, and resumes media if its passes worked and stored something |
| InboundPipeline.Pipeline.AfterResuming | src/core/inbound/inbound-pipeline.ts:192-195 | if resuming failed the circuit closes, whichever recovery is in progress by then |
| MessageStore.WaMessageIdOf | src/core/persistence/message-store.utils.ts:74-78 | an absent or empty WhatsApp id never dedupes |
| MessageStore.MaxNumber | src/persistence/sqlite-message-store.ts:270-274 | no row of the account is above it, and it is a row's unless there is none |
| MessageStore.InsertKeepsConstraints | src/persistence/sqlite-message-store.ts:255-308 | an insert keeps one row per id, per account and WhatsApp id, and per account and number |
| MessageStore.CounterBehindCatchesUp | src/persistence/sqlite-message-store.ts:285-295 | from a counter that is behind, the message gets the number after the account's last, no constraint refuses it, and the counter is right again |
| MessageStore.Log.InsertWith | src/persistence/sqlite-message-store.ts:264-269 | inserts unless a constraint keeps it out, and then changes nothing |
| MessageStore.Log.ReadStored | src/persistence/sqlite-message-store.ts:276-280 | the row of a message stored already: its own first, else the one with its WhatsApp id |
| MessageStore.Log.ResyncCounter | src/persistence/sqlite-message-store.ts:270-274 | the counter moves past every row of the account |
| MessageStore.Log.InsertInbound | src/persistence/sqlite-message-store.ts:255-308 | bump, insert, dedupe, resync and rollback as one insert, which nothing refuses; a new row says what the message does and when it came, and no other changes |
| MessageStore.Log.DeleteOlderThan | src/persistence/sqlite-message-store.ts:359-370 | deleting in batches leaves what one delete leaves, and counts what it removed |
| MessageStore.DeletingOldRows | src/persistence/postgres-message-store.ts:439-447 | deleting some old rows first does not change what deleting all of them leaves |
| MessageStore.RetentionSparesTheNew | src/persistence/message-row.ts:61 | what is stored now outlives retention if and only if now is not before the cutoff, and storing it makes no difference to any other row |
| MessageLedger.CommitEffect | src/persistence/postgres-message-store.ts:314-383 | a commit hands the next number to the message and adds its row, or finds it stored and changes nothing |
| MessageLedger.CommitKeepsValid | src/persistence/postgres-message-store.ts:325-332 | the counter is the number of messages ever numbered, and every row stands at its number, after any commit |
| MessageLedger.RunsKeepValid | src/persistence/sqlite-message-store.ts:255-308 | so it is after any commits, lost answers and retention |
| MessageLedger.HistoriesOnlyGrow | src/persistence/sqlite-message-store.ts:255-308 | a number, once handed out, keeps its message |
| MessageLedger.RowsKnowTheirAge | src/persistence/message-row.ts:61 | over any run a row is as old as the commit that gave its number |
| MessageLedger.RetentionGoesByAge | src/persistence/sqlite-message-store.ts:359-370 | after any run, retention removes exactly the rows whose number was given before the cutoff |
| MessagePaging.ClampPageLimit | src/core/persistence/message-store.utils.ts:68-72 | at least one, at most the cap, and what was asked for, truncated, in between |
| MessagePaging.PageIsAPrefix | src/persistence/sqlite-message-store.ts:310-328 | a page is the first rows above the cursor; it has a next exactly if there are more |
| MessagePaging.NextIsTheRest | src/persistence/sqlite-message-store.ts:325-327 | what is above the next cursor is what the page left out |
| MessagePaging.ReadAll | README.md:353-361 | following the cursor ends, and the pages are exactly the rows above the first cursor, ascending, each once, for any limit |
| LiveConsumer.PageIsDense | README.md:353-361 | with nothing removed past the cursor, a page is the numbers right after it |
| LiveConsumer.ProcessedExactlyOnce | README.md:353-365 | whatever part of the live stream it missed, a consumer processed every message numbered up to its cursor, none twice, and the rest is there to be read |
| LiveConsumer.CatchingUpProcessesAll | README.md:353-361 | reading until there is no next processes every message stored so far |
| LiveConsumer.HearingProcesses | README.md:353-361 | what a consumer hears it processes at once if and only if it is not past a gap |
| PipelineConsumer.PipelineIsProcessedExactlyOnce | README.md:353-365 | the same of a consumer behind the protocol: over every run of both, whatever it hears of what was emitted, nothing is processed twice and everything numbered up to its cursor is |
| PipelineConsumer.EmissionMayBeHeard | src/core/inbound/inbound-pipeline.ts:302-312 | what the protocol emits with a number is what its log has under it |
| JsonText.PrintedReads | src/persistence/failed-inbound-file.ts:10-23 | printed text reads back |
| JsonText.OnlyPrintedReads | src/persistence/failed-inbound-file.ts:10-11 | a line that reads is the one line its text prints as |
| JsonText.CutPrintedDoesNotRead | src/persistence/failed-inbound-file.ts:27-33 | no proper part of a line from its start reads as anything |
| FailedLines.AppendReads | src/persistence/failed-inbound-file.ts:57-69 | an append cut short anywhere adds its entry exactly if all of it landed, and leaves every line before it alone |
| FailedLines.AppendsRead | src/persistence/failed-inbound-file.ts:27-69 | for any appends, reading gives every complete entry in order and no other |
| FailedInboundFile.EveryLineHasOneFate | src/persistence/failed-inbound-file.ts:82-103 | saved, kept and rejected partition the lines read, so the counts add up |
| FailedInboundFile.FatesFollowVerdicts | src/persistence/failed-inbound-file.ts:82-100 | saved are exactly the lines that read and were met with success, rejected those that do not read or were refused for good, kept the rest, in order |
| FailedInboundFile.VerdictsDecide | src/persistence/failed-inbound-file.ts:82-105 | over any appends and passes: an entry counts as saved if and only if some pass that offered it saw it saved, as rejected if and only if one saw it refused for good and lived to record it |
| FailedInboundFile.PassWrites | src/persistence/failed-inbound-file.ts:102-106 | a pass leaves the kept lines and exactly the bytes appended meanwhile, or with nothing saved or rejected the file untouched |
| FailedInboundFile.PassPartitions | src/persistence/failed-inbound-file.ts:142-162 | what the file reads as after a pass: what it kept, in order, then what was appended meanwhile |
| FailedInboundFile.NothingAcceptedIsLost | src/persistence/failed-inbound-file.ts:71-162 | over any appends and passes, complete or cut short anywhere, everything accepted is in the file, was saved, or is counted as rejected |
| FailedInboundFile.EverythingAcceptedIsInOnePlace | src/persistence/failed-inbound-file.ts:71-162 | with complete passes, in exactly one of the three, as often as it was accepted |
| RejectedRecords.RejectsReadUnlessCutShort | src/persistence/failed-inbound-file.ts:110-119 | records appended to the rejects can all be read, with those before, if and only if that file did not end cut short |
| RejectsFile.RecordsCanBeRead | src/persistence/failed-inbound-file.ts:102-119 | over every run: the rejects hold exactly the records that got there whole, in order, if and only if no pass went on in them where one before was cut short, with a whole record on either side |
| RejectsFile.EverythingAcceptedCanBeFound | src/persistence/failed-inbound-file.ts:71-162 | until that happens, everything accepted can be read from the file or the rejects, or was saved |
| RejectsFile.RejectedAndUnreadable | src/persistence/failed-inbound-file.ts:102-119 | a run of one append and two passes after which an accepted entry counts as rejected and can be read nowhere |
| FailedInboundFile.LogFile.AppendEntry | src/persistence/failed-inbound-file.ts:57-69 | repairs the end of the file before it appends |
| FailedInboundFile.LogFile.OfferLines | src/persistence/failed-inbound-file.ts:82-100 | the loop sorts every line by what parsing and saving it said, in order |
| FailedInboundFile.LogFile.ReplayOnce | src/persistence/failed-inbound-file.ts:77-108 | a pass as a whole, with appends coming in between, and how many lines met which verdict |
| FailedLogRefinement.AppendRefines | src/persistence/failed-inbound-file.ts:57-69 | an append on disk is the protocol's append, which works or loses the message |
| FailedLogRefinement.FatesRefine | src/persistence/failed-inbound-file.ts:82-100 | junk lines do not shift anyone's outcome: what is saved, rejected and kept on disk are the messages that leave, are given up on and stay |
| FailedLogRefinement.PassRefines | src/persistence/failed-inbound-file.ts:77-108 | a complete pass on disk is the protocol's pass: the file it leaves, what it counts as saved and what it rejects |
| SocketManager.DelayIsBounded | src/core/util/backoff.ts:12-23 | a wait is at most its ceiling, and just five minutes after a 440 |
| SocketManager.AnyWaitIsPossible | src/core/util/backoff.ts:12-23 | every wait below the ceiling, which doubles up to five minutes, may come out |
| SocketManager.RunKeeps | src/integrations/whatsapp/baileys/baileys-socket.manager.ts:138-285 | the timers running are the map's, nobody connects over a socket or a lost session, streaks are bounded |
| SocketManager.StaysDown | src/integrations/whatsapp/baileys/baileys-socket.manager.ts:355-425 | once ended, no timer, health check or connect in flight opens a socket until someone asks again or the account is forgotten |
| SocketManager.DisconnectingEnds | src/integrations/whatsapp/baileys/baileys-socket.manager.ts:355-365 | a disconnect and a close end the connection |
| SocketManager.LosingTheSessionEnds | src/integrations/whatsapp/baileys/baileys-socket.manager.ts:223-259 | of the closes, exactly a 401 or 403 on the current socket ends it |
| SocketManager.NothingOpensAfterCloseAll | src/integrations/whatsapp/baileys/baileys-socket.manager.ts:400-409 | after `closeAll` no socket ever opens |
| SocketManager.OneTimerAtMost | src/integrations/whatsapp/baileys/baileys-socket.manager.ts:624-662 | an account never has two timers, and a cancelled one does not fire |
| SocketManager.WaitsOfAStreak | src/integrations/whatsapp/baileys/baileys-socket.manager.ts:629-648 | the k-th wait of any streak is at most 2^k seconds and five minutes, or just five minutes after a 440 |
| LiveSockets.LiveSocketsAreCurrent | src/integrations/whatsapp/baileys/baileys-socket.manager.ts:355-370 | over every run: each live socket is its account's current one throughout, if and only if no logout ended while the account's entry was a live socket other than the one logged out |
| LiveSockets.OnlyDroppedAreAdrift | src/integrations/whatsapp/baileys/baileys-socket.manager.ts:363-370 | in every reachable state a live socket is not current exactly if such an end removed its entry |
| LiveSockets.AdriftStays | src/integrations/whatsapp/baileys/baileys-socket.manager.ts:411-425 | no call, timer or exit of the manager closes one that is adrift; only WhatsApp does, or a logout of it already under way |
| LiveSockets.DisconnectMaySetAdrift | src/integrations/whatsapp/baileys/baileys-socket.manager.ts:355-370 | a run in which a live socket is set adrift |
| Reconnects.DeadSocketsAreReplaced | src/integrations/whatsapp/baileys/baileys-socket.manager.ts:241-249 | over every run: the account of a dead socket has a timer running, unless a logout of that socket is under way |
| Reconnects.DroppingSchedules | src/integrations/whatsapp/baileys/baileys-socket.manager.ts:230-250 | a live socket that closes, other than for a lost session, leaves a timer running, one wait further in the streak, or at the first of a new one if it had lasted |
| Reconnects.ComesBack | src/integrations/whatsapp/baileys/baileys-socket.manager.ts:624-677 | however often connecting fails, the account of a timer that is still wanted is tried again, and a connect that works leaves it a live current socket |
| Reconnects.LastingEndsTheStreak | src/integrations/whatsapp/baileys/baileys-socket.manager.ts:245-261 | a minute from `open` to close starts the streak over, and nothing less does |
| Reconnects.AskingConnects | src/integrations/whatsapp/baileys/baileys-socket.manager.ts:138-158 | a caller that asks has the account connected, also one that was ended |
| Reconnects.ChecksConnectTheUnseen | src/integrations/whatsapp/baileys/baileys-socket.manager.ts:499-514 | a health check connects an account without a socket if and only if it is registered, may be retried, did not end and nothing sees to it |
| Reconnects.DisconnectedAreNotChecked | src/integrations/whatsapp/baileys/baileys-socket.manager.ts:355-362 | after a disconnect no health check connects, in any run, until the account is registered again |
| Reconnects.ClearedCanConnect | src/integrations/whatsapp/baileys/baileys-socket.manager.ts:138-141 | nothing connects while a session is cleared, and a caller can after that |
| Reconnects.ForgettingForgets | src/integrations/whatsapp/baileys/baileys-socket.manager.ts:384-392 | forgetting an account forgets that it ended, but a connect that was given up on stays so |
| SocketManager.BaileysSocketManager.ScheduleReconnect | src/integrations/whatsapp/baileys/baileys-socket.manager.ts:629-648 | never stacks a second timer |
| SocketManager.BaileysSocketManager.StartConnecting | src/integrations/whatsapp/baileys/baileys-socket.manager.ts:138-158 | the guards of `connect` |
| SocketManager.BaileysSocketManager.ConnectIsDone | src/integrations/whatsapp/baileys/baileys-socket.manager.ts:158-178 | a connect gives up if it was closed meanwhile, and one that failed in the retry loop backs off |
| SocketManager.BaileysSocketManager.OnClose | src/integrations/whatsapp/baileys/baileys-socket.manager.ts:223-259 | a stale close changes nothing; a current one backs off or ends |
| SocketManager.BaileysSocketManager.CloseTheConnection | src/integrations/whatsapp/baileys/baileys-socket.manager.ts:416-425 | closes the socket and keeps the account down |
| SocketManager.BaileysSocketManager.EnsureIsConnected | src/integrations/whatsapp/baileys/baileys-socket.manager.ts:499-514 | connects only an account that nothing else is seeing to |
| Subscriptions.PrintedListReadsBack | packages/sdk/src/events.ts:246-256 | the server reads back the list in the URL if and only if every id is not empty and has no comma and no space around it |
| Subscriptions.ActsAlike | packages/sdk/src/events.ts:151-164 | the client's list and the server's filter change alike |
| Subscriptions.AlwaysAgree | packages/sdk/src/events.ts:62-64 | over any subscribes, unsubscribes, drops and reconnects, the list is the server's filter with what is on its way applied throughout, if and only if every list an accepted connection asked for is one the URL can carry |
| Subscriptions.ReconnectAgreesIfClean | src/connections/ws/websocket.controller.ts:86-88 | a reconnect asks for what the client listens to if and only if the URL can carry every id |
| Subscriptions.StaysDisconnected | packages/sdk/src/events.ts:135-145 | after a disconnect nothing connects until someone asks |
| Subscriptions.ReconnectsUnlessEnded | packages/sdk/src/events.ts:107-117 | after any run a client is connected, connecting or about to be, unless, if and only if, it was ended by a disconnect, a refusal or a drop it is not to reconnect after, and nobody asked since |
| Subscriptions.GetsWhatItListensTo | src/connections/ws/websocket-broadcaster.ts:172-176 | once the server has read all that was sent, a client gets the events of the accounts on its list, or of all; and those of no account only if it listens to all and may see them |
| Subscriptions.ServerClient.OnAction | src/connections/ws/websocket-broadcaster.ts:58-70 | the loop removes the accounts, and a filter with none left is no filter |
| Subscriptions.MessagingGatewayEvents.ConnectNow | packages/sdk/src/events.ts:85-132 | one connection at a time, asking for the current list |
| Subscriptions.MessagingGatewayEvents.SubscribeTo | packages/sdk/src/events.ts:151-154 | replaces the list, or throws and changes nothing |
| Subscriptions.MessagingGatewayEvents.UnsubscribeFrom | packages/sdk/src/events.ts:161-164 | removes from the list, or throws and changes nothing |
| Subscriptions.MessagingGatewayEvents.OnClose | packages/sdk/src/events.ts:107-120 | a drop schedules a reconnect unless it was meant, or the key was refused |
| AccountRepository.WithChanges | src/infrastructure/config/in-memory-account.repository.ts:12-21 | the id stays, metadata is merged key by key, the rest is replaced where the update names it |
| AccountRepository.ChangesCompose | src/infrastructure/config/in-memory-account.repository.ts:12-21 | two updates amount to one in which the later has the last word, and the same one again changes nothing |
| AccountRepository.CallsMakeOf | src/infrastructure/config/in-memory-account.repository.ts:85-130 | what a call makes of the account it names, found by its id, and that it is about no other |
| AccountRepository.SeeingChanges | src/core/accounts/apply-health-result.ts:13-29 | of what is seen only status and identity come, of the named account alone |
| AccountRepository.StatusIsTheLastWord | src/core/accounts/account-status.subscriber.ts:14-31 | over any calls, in memory: an account is what its connection or a check said of it last, whatever writes fail, and a suspended one stays so |
| AccountRepository.MemoryIsTheFold | src/infrastructure/config/in-memory-account.repository.ts:85-130 | memory is the fold, in call order, of the commits that were written and of all that was observed |
| AccountRepository.DiskIsMemoryAsOfTheLastWrite | src/infrastructure/config/in-memory-account.repository.ts:111-124 | disk is memory as of the last write that succeeded, and memory differs only by what was observed since |
| AccountRepository.SuspendedStays | src/core/accounts/apply-health-result.ts:13-29 | no connection event or health result takes an account out of `suspended`, in memory or on disk |
| AccountRepository.SuspendingHolds | src/core/accounts/account-status.subscriber.ts:18-24 | a suspension that was written holds whatever the gateway sees |
| AccountRepository.Repository.Commit | src/infrastructure/config/in-memory-account.repository.ts:115-124 | in memory only once it is on disk |
| AccountRepository.Repository.ObserveIt | src/infrastructure/config/in-memory-account.repository.ts:85-102 | in memory at once, on disk if it can be written |
| ConnectionAlerts.AlertsAreSpaced | src/connections/webhooks/connection-alert.subscriber.ts:99-132 | an outage has one alert on its way at most, and one after a delivered alert begins six hours after it unless excused |
| ConnectionAlerts.OnlyTheseExcuse | src/connections/webhooks/connection-alert.subscriber.ts:130-146 | exactly what excuses: a session lost, or a delivered alert about another kind of outage than it is by then |
| ConnectionAlerts.DroppingExcuses | src/connections/webhooks/connection-alert.subscriber.ts:148-158 | a run with a second alert a quarter of an hour after a delivered one, and no session lost since |
| ConnectionAlerts.FlappingIsOneOutage | src/connections/webhooks/connection-alert.subscriber.ts:148-158 | connections too short to count never move the beginning of an outage |
| ConnectionAlerts.FlappingPostponesNothing | src/connections/webhooks/connection-alert.subscriber.ts:99-104 | so the first check a quarter of an hour after it, with the account down, begins the alert, and none before |
| ConnectionAlerts.FailuresBackOff | src/connections/webhooks/connection-alert.subscriber.ts:124-129 | over every run: `failedAttempts` counts the failures in a row, and the next one began no sooner after the k-th than the smaller of 30 s * 2^k and a quarter of an hour, unless hurried |
| ConnectionAlerts.AlertsWaitForTheirTurn | src/connections/webhooks/connection-alert.subscriber.ts:99-104 | so does the alert on its way |
| ConnectionAlerts.FailedAlertsComeBack | src/connections/webhooks/connection-alert.subscriber.ts:124-129 | and a check begins the next one exactly when that wait is over, with the account down |
| ConnectionAlerts.DeliveredAlertsComeBack | src/connections/webhooks/connection-alert.subscriber.ts:116-122 | after a delivered alert the first check six hours on begins the next, and none before |
| ConnectionAlerts.LosingAlertsAtOnce | src/connections/webhooks/connection-alert.subscriber.ts:134-146 | over every run: losing a session begins an alert at that moment, unless one of its outage is on its way |
| ConnectionAlerts.OnlyALastingConnectionEndsIt | src/connections/webhooks/connection-alert.subscriber.ts:148-158 | a minute up ends an outage at the next check and makes the next drop another one; less does neither |
| ConnectionAlerts.TheseAreNoOutages | src/connections/webhooks/connection-alert.subscriber.ts:160-177 | a deliberate disconnect or a QR ends the outage, and so does finding nobody to tell, if it is that one |
| ConnectionAlerts.StaysCalm | src/connections/webhooks/connection-alert.subscriber.ts:181-190 | with no outage no alert begins, over any run, until a session is lost or a connection drops |
| ConnectionAlerts.ToldOnce | src/connections/webhooks/connection-alert.subscriber.ts:88-93 | webhooks told of an outage are not told of it again unless its session is lost |
| ConnectionAlerts.OnlyTheseHurry | src/connections/webhooks/connection-alert.subscriber.ts:130-146 | exactly what hurries: a session lost, or an alert about another kind of outage than it is by then |
| ConnectionAlerts.Alerts.BeginIfDue | src/connections/webhooks/connection-alert.subscriber.ts:99-105 | an alert begins exactly when it is due |
| ConnectionAlerts.Alerts.LosesItsSession | src/connections/webhooks/connection-alert.subscriber.ts:134-146 | a lost session alerts at once, in a new outage if it had connected since |
| ConnectionAlerts.Alerts.Drops | src/connections/webhooks/connection-alert.subscriber.ts:148-158 | a new outage only if there was none, or the connection had lasted |
| ConnectionAlerts.Alerts.IsOver | src/connections/webhooks/connection-alert.subscriber.ts:116-131 | what the end of an alert sets |
| MediaService.SlotsAreNeverWasted | src/core/inbound/media-service.ts:134-205 | the slots taken are those held, within the limit; nobody waits while one is free; one worker per media |
| MediaService.ReadyStaysReady | src/core/inbound/media-service.ts:172-191 | a late failure never turns a stored media into a skipped one, whatever answers are lost |
| MediaService.ReadyIfRecorded | src/core/inbound/media-service.ts:156-170 | after any run a media is ready if and only if it was, or some worker's record of it reached the log |
| MediaService.DownloadSucceeds | src/core/inbound/media-service.ts:156-170 | with nothing failing, the three steps of an attempt make a media ready and leave it free |
| MediaService.AttemptGoesOn | src/core/inbound/media-service.ts:137-153 | whatever fails in an attempt is tried again later while attempts are left, and recorded as a failure after that |
| MediaService.FailureIsRecorded | src/core/inbound/media-service.ts:178-191 | then a media that is not ready is skipped, and left free |
| MediaService.UnstorableIsNotRetried | src/core/inbound/media-service.ts:156-167 | a media too large or without bytes is not downloaded again, unless that could not be recorded |
| MediaService.RunTakesItOn | src/core/inbound/media-service.ts:116-141 | a media nobody works on is taken on at once, and one someone works on is not |
| MediaService.DownloadsAreBounded | src/core/inbound/media-service.ts:135-154 | over every run a worker downloads at most once more than it may retry, and its attempt says how often it has |
| MediaService.FirstComeFirstServed | src/core/inbound/media-service.ts:193-205 | the line for a slot moves from its front, one at a time, and whoever leaves it downloads |
| MediaService.ResumePendingMedia | src/core/inbound/media-service.ts:99-113 | resuming over a log that ends somewhere ends, picks no row twice, and picks every row that stays pending |
| MediaService.Semaphore.Acquire | src/core/inbound/media-service.ts:193-199 | a free slot, or a place in line |
| MediaService.Semaphore.Release | src/core/inbound/media-service.ts:201-205 | the slot passes to the next in line |
| TtlCache.RunKeeps | src/core/util/ttl-cache.ts:22-40 | over any calls, keys are distinct, the order of insertion is the order of expiry, and the cap holds |
| TtlCache.EvictsExpiredFirst | src/core/util/ttl-cache.ts:36-39 | no live entry is evicted while an expired one stays |
| TtlCache.ReadsTheLastSet | src/core/util/ttl-cache.ts:22-40 | a read gives what was last set for exactly as long as it lives, if fewer other keys than the cap were set meanwhile |
| TtlCache.ReadingDropsTheExpired | src/core/util/ttl-cache.ts:22-30 | after a read its entry is there exactly if it was found, and every other is as it was |
| TtlCache.Cache.Get | src/core/util/ttl-cache.ts:22-30 | drops an expired entry on the way |
| TtlCache.Cache.Set | src/core/util/ttl-cache.ts:32-40 | the key moves to the end, and the oldest go until the cap holds |

## Left out

- SQL, the drivers, migrations, search and statistics: the log is rows, a counter per account and three uniqueness constraints.
- `cleanText`: ids and WhatsApp ids are taken to be clean already, since rows store the cleaned id and the lookup uses the raw one.
- Real files, fsync and rename: a file is its text, appends may be cut short, a rewrite is atomic. An append that wrote its line and then failed to flush counts as written, which is what the code goes on to do with it. A directory that cannot be flushed is only logged (`sync-directory.ts:7-25`), so a rewrite whose rename worked has worked, and one that failed left the file as it was.
- JsonText.OnlyPrintedReads: an entry's line is the JSON text of one string, with quotes, backslashes and line ends escaped. Real JSON has many texts for one value, so this holds of the stand-in only; what it shares with the real format is `CutPrintedDoesNotRead`.
- JsonText.PrintedReads: of that string too; the dates an entry is read back with, and their check, are not modelled.
- RejectedRecords: a record is an object with the rejected line under `line`; its date and reason are left out.
- What the filter, the lookup of a LID, a deleted account and the seven days decide about an entry is a verdict given to the step, not computed.
- The queue of a message whose processing throws outside the modelled `await`s, metrics and logging.
- What a recovery's resuming of media does: that it goes on for as long as it likes and then ends or fails are steps of the protocol, its rows are `MediaService`'s. Whether a recovery's passes stored anything, and so whether it resumes at all, is given to the step, not computed. A pass away from a recovery resumes media too, and if that fails it is only logged.
- A store that is disabled, and a pipeline with no failed log.
- LiveConsumer.ProcessedExactlyOnce: retention removes no row past the consumer's cursor, since a consumer further behind than rows are kept misses them.
- Whether a recovery ever ends under write-offs that never stop.
- OrderTheorems.NumbersFollowArrival: says nothing of a process that has begun to stop, since then a message may be written off while the next is stored directly, nor of an account this process put in disorder.
- PassReplay.StuckAccountHoldsNoOtherBack: with the lines back to back, and as long as neither pass has opened the circuit, after which no account's entries are stored.
- PassReplay.DyingMidPassChangesNothing: the lines follow each other with no other step in between, since then the whole log can be compared; `DyingAmongLiveMessages` has live messages in between and compares account by account. Neither has messages arriving, rows removed or the circuit opened by others between the lines.
- PassReplay.Survives: likewise; the passes after the first death run before any account connects, so nothing live comes between their lines.
- SocketManager: clearing a session while a connect is in flight may still open a socket, which the code accepts; QR codes, pairing and the version lookup are not part of it. `disconnect`, `clearSession` and `closeAll` are modelled on values only.
- ConnectionAlerts: one account, the map of accounts being independent entries; the text of an alert and its webhooks are not modelled.
- MediaService: the bytes, the file names and the size limit; a worker's stages are modelled on values, its semaphore in place.
- AccountRepository: the YAML of an account and its fields, which are opaque here; a repository without a file.
- Subscriptions: the watchdog, the heartbeat, event names, and percent-encoding, which is taken to be exact.
- Webhook destination queues, graceful shutdown budgets, authentication, REST controllers and generated code.
