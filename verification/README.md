# Durable execution protocol of the hedge trading backend: a verified model

The backend writes an intent, its legs and an outbox row in one transaction; a single worker process turns
them into exchange orders across crashes, timeouts, stale rows and late events. A maker-then-market machine
creates hedge, fallback and compensation legs from stored facts, an event stream projects order state, a
gateway makes MT5 commands at-most-once, and several processes share a Redis pool of hedge groups. This
project models that protocol and proves its central promises over all runs.

## How it is built

Code that changes state is a class whose fields are the source's rows or fields, with one method for each
operation. Each method is proved equal to a specification function of the old state; lemmas about those
functions, and about runs of them, state what the source promises. A run is any sequence of actions of the
system and of its environment (the exchange, Redis, crashes), so every theorem about runs holds for all
interleavings that the actions allow.

| files | what they model |
|---|---|
| `Common`, `Orders`, `OrderEnds`, `Lifecycle` | shared values, the two order projections, which reports end a leg, statuses |
| `Maker`, `MakerRuns`, `MakerProperties`, `MakerDecisions`, `MakerLegs`, `MakerBooking`, `MakerEffects`, `MakerWitnesses` | the maker-then-market machine, its invariant over runs, its arithmetic promises, which decision it takes and when it is refused, the terms of its legs and the exposure, its booking, its cancels and marks, and runs that end badly |
| `Outbox`, `OutboxRuns`, `OutboxSteps`, `OutboxGrowth`, `OutboxSafety`, `OutboxEnded`, `OutboxUnknown`, `OutboxRows`, `OutboxWorker` | tables and worker transitions, runs with crashes, the invariant step by step, what never shrinks, the safety theorems, commands of intents that are over, unknown outcomes, what each transaction leaves in the rows, the worker as an object |
| `VenueEvents`, `VenueEventProperties`, `VenueEventRuns`, `VenueEventRows` | projection of venue events in batches, one batch exactly, runs of single events, what one event does to its order |
| `Replay`, `ReplayHistory`, `ReplayAmounts` | rebuilding a projection from stored events, compared with the live worker and with any mixed history, and its prices and charges |
| `Gateway`, `GatewayRuns` | the MT5 command handler with failures at every operation |
| `HedgePool`, `HedgePoolRuns`, `HedgePoolMarks` | optimistic updates of the shared pool, one client and any number of clients, what an update does to an entry |
| `CircuitBreaker`, `BreakerRuns` | the circuit breaker, and its ratio and threshold told from the samples of a run |
| `Pnl`, `PnlRows` | realized profit, and the same as a sum over the rows |
| `Probe`, `Schedule`, `Equity` | probe lifecycle, weekly sessions, equity curve |

Quantities and prices are `real`, and the source's tolerances are kept: 1e-9 of a quantity in the maker
machine, 1e-6 in a probe, and never less than 1e-12. Statuses are datatypes with an `Other` case for any
further text.

## What is assumed of the environment

- One worker process, sequential within a round; an exception that escapes a claim acts like a crash.
- In the maker and probe runs every order has a final filled quantity, at most what was requested: no report
  passes it, and a terminal report carries it (`MakerRuns.Honest`, `Probe.FairReport`). In the maker runs a
  total within 1e-12 of the request is final too. Statuses may change in any way, also back from terminal.
- A maker intent may be marked with any status at any time, and an operator may supersede it when the code
  lets him. Only the two theorems that name `MakerRuns.NeverClosed` are about runs in which nothing but the
  machine itself ends the intent.
- A state machine asks to cancel only an order of its own intent (`OutboxRuns.SoundAdvance`). Apart from
  that the worker theorems hold for every outcome of an advance, every answer and every decision of the gate.
- Event ids identify their content: hashes do not collide.
- The gateway runs one handler at a time.

## Where the code does less than its description

Each point is a lemma with the exact condition or a concrete input.

- An intent that was ended while a leg is still owed refuses the leg, and the venue event that called for it
  is lost with it. This happens exactly under `MakerDecisions.RefusedExactlyWhenOwed`. Two ways lead there:
  automatic flattening before a late maker fill (`MakerWitnesses.FlattenedIntentRefusesHedge`), and an operator
  who supersedes the intent (`MakerWitnesses.SupersededIntentRefusesHedge`). Without automatic flattening, and
  as long as nothing but the machine ends the intent, no advance is ever refused
  (`MakerBooking.NoAdvanceIsRefused`).
- A finished intent does not stay finished: `MakerDecisions.FinalStatusStaysIff` says exactly when an advance
  leaves it so, `MakerBooking.StaleReportReopensIff` which stale report reopens it, and
  `MakerWitnesses.CompletedIntentReopens` gives the run. Once reopened, a booked intent stays live until
  somebody else ends it (`MakerBooking.BookedIntentNeverFinishesAgain`).
- The worker and the event stream disagree on a canceled order exactly when it was filled in part
  (`Orders.CancelProjectionsDiffer`).
- A command that is claimed again after a crash is failed exactly when some leg has no order or an unsettled
  one, so one that was lost before its orders were stored is never submitted
  (`OutboxSafety.RecoveredClaimFailsIff`).
- Ending an intent does not stop its commands: one that is superseded, or over in any other way, is still
  submitted if and only if it owns a submit command that waits (`OutboxEnded.EndedIntentSubmitsIff`), and such
  a run exists (`OutboxEnded.SupersededIntentIsSubmitted`).
- A command whose outcome is unknown is asked about again, except that an event of any order of a plain intent
  marks it sent, and then nobody asks: `OutboxUnknown.UnknownIsSentOnlyWhenSettled` says that these are the only
  two ways, `OutboxUnknown.EventHidesUnknown` gives the second.
- Fills of one batch do not see each other: all but the largest are lost
  (`VenueEventProperties.FillsOfOneBatchAreLost`). A batch is stored exactly when no event that is new to the
  table occurs in it twice; otherwise all of it is lost (`VenueEventProperties.BatchIsStoredIff`).
- Replay takes magnitudes where the worker clamps at zero (`Replay.ReplayRefinesLive`) and forgets fills that
  came from the venue stream; for any mixed history the exact condition is `ReplayHistory.RebuiltEqualsLiveIff`.
- Replay takes a pending cancel for an end, and a filled order of the stream for an open one
  (`ReplayHistory.StreamLegsDiffer`).
- A compensating order is not priced: its cash flow never reaches the realized profit, only its fee does
  (`Pnl.CompensationIsNotPriced`).
- Two interleaved gateway handlers dispatch a command twice, and a command without a key has no guarantee
  (`GatewayRuns.InterleavedHandlersDispatchTwice`, `GatewayRuns.NoKeyNoGuarantee`).
- A database load can bring back a closed group's pool entry (`HedgePoolRuns.MergeResurrects`).
- A probe whose entry was filled only in part is never marked flat (`Probe.PartialEntryIsNeverFlat`), and a
  late entry event rewrites the residual of a flat probe (`Probe.LateReportReopens`).
- A session from 24:00 to 00:00 is empty, while all other equal times mean a whole day (`Schedule.SessionBounds`).
- An open circuit breaker that nobody queries after its cooldown ignores later bursts
  (`CircuitBreaker.UnqueriedBreakerMissesBursts`).

## Model

| member | source | states |
|---|---|---|
| Orders.CancelProjectionsDiffer | backend/app/execution/outbox_worker.py:751-759 | For a canceled report of an open order the worker fails the leg; the event stream keeps it live if and only if something was filled; the filled quantities agree |
| OrderEnds.StatusesArePartitioned | backend/app/execution/outbox_worker.py:34-39 | Each known status keeps an order open, fills it or fails it, and none does two of these |
| OrderEnds.EventEndsLegIff | backend/app/execution/venue_events.py:201-207 | For every order and snapshot, the leg is over if and only if it says filled, or canceled, expired or rejected with nothing filled; it is filled if and only if it says filled |
| OrderEnds.FillEndsLegIff | backend/app/execution/venue_events.py:262-275 | For every order and fill, the leg is filled if and only if the stored fills and this one, or an earlier report, reach the requested quantity |
| OrderEnds.AnswerEndsLegIff | backend/app/execution/outbox_worker.py:721-759 | For every order and answer, the leg is filled if and only if it says so or the fills reach the requested quantity, and failed if and only if it then reports one of seven failures |
| OrderEnds.RaisedEndsLegIff | backend/app/execution/outbox_worker.py:835-898 | A submission that raised keeps its leg active if and only if its outcome is unknown, and changes nothing but statuses |
| OrderEnds.PricesAndCosts | backend/app/execution/outbox_worker.py:739-745 | A price or a charge that is not reported leaves the stored one, and charges count as costs, of either sign only for MT5 |
| Maker.Primary | backend/app/execution/maker_state.py:70-70 | The first leg with the maker role, and only without one the first fallback; none exactly when there is neither |
| MakerDecisions.DecisionIs | backend/app/execution/maker_state.py:68-126 | In every state of the invariant, each decision is taken exactly under its condition on the legs: a due cancel first, then an owed fallback, hedge or compensation, then completion at the matched ratio, recovery of an uncovered hedge, or waiting |
| MakerDecisions.RefusedExactlyWhenOwed | backend/app/execution/maker_state.py:76-126 | After every honest run, superseded ones included, an advance is refused if and only if the status is final, a leg is owed and no cancel comes first |
| MakerDecisions.FinalStatusStaysIff | backend/app/execution/maker_state.py:71-126 | An advance leaves a final status if and only if no cancel is due and either a leg is owed (refused) or a complete intent is completed without change |
| Maker.MakerIntent.AdvanceIntent | backend/app/execution/maker_state.py:29-126 | One advance has exactly the specified outcome on intent, legs, commands and group; a refused one changes nothing |
| Maker.MakerIntent.PerformDecision | backend/app/execution/maker_state.py:71-126 | Every decision has exactly its specified effect or is refused |
| Maker.MakerIntent.EnqueueLeg | backend/app/execution/intents.py:130-175 | Leg and pending command are added together, with the intent set running; a finished intent, a known key or an empty quantity is refused and nothing changes |
| Maker.MakerIntent.ProjectRecovery | backend/app/execution/maker_state.py:369-380 | The intent needs recovery and its group manual intervention |
| Maker.MakerIntent.CompleteIntent | backend/app/execution/maker_state.py:300-366 | A group that was booked before is left alone; otherwise both legs are booked at the matched ratio and the statuses follow |
| MakerRuns.RunKeeps | backend/app/execution/maker_state.py:29-126 | Every state of every run with honest reports satisfies the invariant: one maker leg first, at most one fallback and one compensation, hedges in proportion, keys fixed by role and number |
| MakerRuns.FallbackAsksForTheRest | backend/app/execution/maker_state.py:193-216 | A fallback is enqueued only when no maker leg is active and none was enqueued before, for exactly the maker target minus the primary's final fill |
| MakerProperties.MakerNeverOverfills | backend/app/execution/maker_state.py:76-90 | In every reachable state maker fills stay within the maker target, there is at most one fallback and one compensation, and compensation asks for no more than the maker filled |
| MakerProperties.HedgesStayProportional | backend/app/execution/maker_state.py:92-99 | In every reachable state all hedge legs ever enqueued, failed ones included, stay within hedge target × min(filled / target, 1), carry strategy quantity in the same proportion, and fill no more |
| MakerProperties.FewerThanABillionHedges | backend/app/execution/maker_state.py:219-244 | Each hedge exceeds the tolerance while their sum stays within the target, so there are fewer than 10^9 |
| MakerProperties.KeysAreDistinct | backend/app/execution/maker_state.py:193-297 | Generated leg keys never collide in a run, so enqueueing never meets its duplicate error |
| MakerProperties.AtMostOneCommand | backend/app/execution/maker_state.py:71-126 | An advance adds at most one leg and one command, the command owning the new leg, and is refused exactly when it wants a leg for a finished intent |
| MakerProperties.MatchedCompletion | backend/app/execution/maker_state.py:109-123 | On normal completion nothing is active, the hedge is within tolerance of its target, and the booked ratio exceeds neither leg's ratio and misses the maker's by at most tolerance / target |
| MakerLegs.AddedLegsFollowTerms | backend/app/execution/maker_state.py:193-286 | After every honest run a fallback has the primary's venue and side, a compensation its venue and the other side, a hedge those of the template; all are market orders and not post-only, in proportion to the primary |
| MakerLegs.ExposureIsBounded | backend/app/execution/maker_state.py:259-291 | After every honest run the net quantity that maker, fallback and compensation bought on the primary's side lies between 0 and the maker fills |
| MakerLegs.UnfilledMakerFallsBack | backend/app/execution/maker_state.py:86-90 | When the maker order ends without a fill and nothing fell back yet, no maker leg is active, a fallback is owed exactly by permission and quantity, and the next advance of a live intent asks for the whole target on the same side |
| MakerEffects.CancelIsAskedIff | backend/app/execution/maker_state.py:71-84 | After every honest run a cancel is asked if and only if the primary has an order, is overdue and has no cancel pending; it then adds exactly that command, and nothing is added while one is pending |
| MakerEffects.CancelIsAskedOnce | backend/app/execution/maker_state.py:166-190 | The advance after a request for a cancel adds no leg and no command |
| MakerEffects.OnlyCurrentIsMarked | backend/app/execution/maker_state.py:50-54 | An advance marks the current command sent exactly when it was being processed, and leaves every other command as it is |
| MakerEffects.CompensatedIsCovered | backend/app/execution/maker_state.py:259-297 | When an intent completes by compensation, the net maker quantity exceeds what the hedge covers by no more than the tolerance |
| MakerEffects.BookingSetsStatuses | backend/app/execution/maker_state.py:319-366 | A booking is at a ratio between 0 and 1, and group and intent get the statuses of that ratio: whole, partly or not at all |
| MakerEffects.RecoveryAsksForHelp | backend/app/execution/maker_state.py:369-380 | When a hedge is short and neither a leg is owed nor a compensation complete, the intent needs recovery and its group an operator, and nothing else changes |
| MakerEffects.BookedRatioIsTight | backend/app/execution/maker_state.py:425-426 | Without automatic flattening and with a hedge target of at least 0.001, the booked ratio misses the filled part of the maker target by at most 1e-9 |
| MakerBooking.EveryRunBooksOnce | backend/app/execution/maker_state.py:315-366 | Over any sequence of events the group is booked at most once, an opening at one ratio for both legs, a partial close subtracting one ratio from both |
| MakerBooking.NeverOverbooked | backend/app/execution/maker_state.py:319-366 | In every state of every run the booked ratio exceeds neither side's filled ratio |
| MakerBooking.BookedRatioFits | backend/app/execution/maker_state.py:109-123 | Without automatic flattening, once something is booked all maker and hedge fills are final, the hedge is within tolerance, and the ratio misses the maker's by at most tolerance / target |
| MakerBooking.NoAdvanceIsRefused | backend/app/execution/maker_state.py:247-297 | Without automatic flattening, no advance is refused after any honest run in which nothing but the machine ended the intent |
| MakerWitnesses.FlattenedIntentRefusesHedge | backend/app/execution/maker_state.py:259-297 | For any first and final fill of the maker there is an honest run with automatic flattening after which the event of the rest is refused and lost, leaving the stored fill behind the true one |
| MakerWitnesses.SupersededIntentRefusesHedge | backend/app/execution/coordinator.py:485-507 | Without automatic flattening there is an honest run in which the operator supersedes the intent, and a late event of its rejected hedge is refused and lost |
| MakerWitnesses.CompletedIntentReopens | backend/app/execution/maker_state.py:71-84 | There is an honest run that books and completes an opening, after which a stale report of the maker makes the intent run again |
| MakerWitnesses.EventBatchIsTwoSteps | backend/app/execution/venue_events.py:69-79 | An event and the advance it causes are one transaction: two steps of a run, or none |
| MakerBooking.BookedIntentNeverFinishesAgain | backend/app/execution/maker_state.py:315-318 | Once booked and live again, an intent stays live in every further run in which nothing but the machine ends it |
| MakerBooking.StaleReportReopensIff | backend/app/execution/maker_state.py:71-84 | A stale report reopens a booked, finished intent with nothing owed if and only if it makes a maker or hedge leg active again |
| OutboxSafety.NeverSubmitTwice | backend/app/execution/outbox_worker.py:316-459 | Over every run with crashes between any two steps, no leg is submitted twice, each submission carries the client id stored for its leg, and different submissions carry different ids |
| OutboxSafety.StoredBeforeSubmitted | backend/app/execution/outbox_worker.py:405-419 | In every reachable state each leg waiting for submission has its order stored under its client id and was not submitted before |
| OutboxSafety.ClientIdInjective | backend/app/execution/outbox_worker.py:641-641 | The client order id determines intent and leg |
| OutboxSafety.NothingIsTakenBack | backend/app/execution/outbox_worker.py:734-738 | Whatever happens later, idempotency keys, client ids and submissions stay, and no order's filled quantity decreases |
| OutboxSafety.KeysAreIdempotent | backend/app/execution/intents.py:52-127 | In every reachable state two keys never share an intent, a known key creates nothing, a new one creates a new intent |
| OutboxSafety.RequeuedWasNeverSubmitted | backend/app/execution/outbox_worker.py:171-220 | The repair of unsent rows takes a command from sent to pending only if none of its legs was ever submitted |
| OutboxSafety.RequeueIsExact | backend/app/execution/outbox_worker.py:193-218 | The repair changes a row if and only if it is due: sent, old enough, its intent running or in recovery, all its legs planned without order or event; and then makes it pending at once |
| OutboxSafety.RolledBackIsNeverSubmitted | backend/app/execution/outbox_worker.py:110-168 | A rolled-back close intent was never submitted and never will be, in any further run; it stays failed and all its commands stay canceled |
| OutboxSafety.RollbackRestoresGroups | backend/app/execution/outbox_worker.py:148-166 | Only closing groups change, to open or partly open, and no rolled-back intent leaves its group closing |
| OutboxSafety.RollbackUndoesClose | backend/app/execution/outbox_worker.py:110-168 | A close request that stays untouched is due after the timeout, and rolling it back restores every group and cancels only its own command |
| OutboxSafety.GateOnlyPostpones | backend/app/execution/outbox_worker.py:388-399 | In every run, a command that the gate sends back was never submitted and has no order, nothing but its own row changes, and it can be claimed again, as fresh, exactly when the delay is over |
| OutboxSafety.ReclaimOnlyQueries | backend/app/execution/outbox_worker.py:976-1017 | A command claimed again after a crash never starts a submission and stores no new order |
| OutboxSafety.RecoveredClaimFailsIff | backend/app/execution/outbox_worker.py:976-1017 | A submit command claimed again after a crash ends failed, with its intent in recovery, if and only if some leg has no order or an open one without a usable answer |
| OutboxEnded.ClaimSubmitsIff | backend/app/execution/outbox_worker.py:351-428 | In every reachable state the next claim leads to a submission for an intent if and only if it is a fresh claim of a submit command of that intent and the gate lets it through, whatever the status of the intent |
| OutboxEnded.EndedIntentSubmitsIff | backend/app/execution/outbox_worker.py:316-428 | After every run, at the start of a round, an intent that is over has a further run that submits a leg of it, staying over until then, if and only if it owns a waiting submit command |
| OutboxEnded.SupersededIntentIsSubmitted | backend/app/execution/coordinator.py:485-507 | There is a run that supersedes an intent which can be submitted afterwards |
| OutboxUnknown.UnknownKeepsProcessing | backend/app/execution/outbox_worker.py:430-455 | In every run, recording an unknown outcome leaves the command in processing and locked at that time, its intent in recovery, the order unknown with its fill, the leg active, and all other answers recorded |
| OutboxUnknown.SentUnlessUnknown | backend/app/execution/outbox_worker.py:445-457 | The command of a plain intent is sent by that step if and only if no outcome is unknown |
| OutboxUnknown.UnknownIsReclaimed | backend/app/execution/outbox_worker.py:316-348 | A command in processing is claimable exactly when its lock is as old as the timeout, and every claim of it is a recovery |
| OutboxUnknown.UnknownIsSentOnlyWhenSettled | backend/app/execution/outbox_worker.py:976-1017 | In every run after an unknown outcome, the command is sent only if at some point an advance took it for its own or a recovery claim found every one of its orders final or answered |
| OutboxUnknown.BecomesSent | backend/app/execution/outbox_worker.py:1085-1117 | The same for one step from any reachable state, where a recovery that finds an order unsettled fails the command |
| OutboxUnknown.EventHidesUnknown | backend/app/execution/venue_events.py:317-332 | An event of a stored order of a plain intent marks a command in processing sent, whatever is unknown, and in every further run it stays sent |
| OutboxRows.CreatedRows | backend/app/execution/intents.py:52-127 | A new intent comes as asked, with one waiting command, and its group is opening or closing; nothing else changes |
| OutboxRows.CreatedLegs | backend/app/execution/intents.py:92-120 | It has one planned leg per plan with its quantity, and its command owns exactly these |
| OutboxRows.ClaimIsLeased | backend/app/execution/outbox_worker.py:316-348 | A claimed row is locked at that time and claimable again exactly when the lock is as old as a timeout |
| OutboxRows.DispatchRows | backend/app/execution/outbox_worker.py:400-419 | A fresh ungated claim runs the intent and gives every leg an order under its client id for its quantity; no other row changes |
| OutboxRows.OrdersAskForTheirLegs | backend/app/execution/outbox_worker.py:637-671 | In every reachable state each stored order asks for the quantity of its leg |
| OutboxRows.SettlingAnswers | backend/app/execution/outbox_worker.py:993-1010 | An answer settles an order if and only if it is a stored rejection or its status is not one of the four unknown ones |
| OutboxRows.RecoveryRecords | backend/app/execution/outbox_worker.py:976-1011 | A recovery records exactly the settling answers about open orders and changes the amounts of no other order |
| OutboxRows.FreshCancelRows | backend/app/execution/outbox_worker.py:589-611 | A cancel taken by the venue is sent and its order awaits its end; refused it fails; without an answer it stays in processing; the intent runs only in the first case, and nothing else changes |
| OutboxRows.QueriedCancelRows | backend/app/execution/outbox_worker.py:566-588 | A cancel that may have been tried is sent if and only if the venue says that the order is neither open nor unknown, which is recorded; otherwise no order and no command changes |
| OutboxRows.PlainFinishRows | backend/app/execution/outbox_worker.py:1115-1195 | For a plain intent the statuses of intent and group follow from its legs and go together, and an untouched close restores the previous open status |
| OutboxRows.DrivenFinishRows | backend/app/execution/outbox_worker.py:1092-1114 | For a driven intent only the given command may become sent, and only from processing; intent and group get what the machine says |
| OutboxRows.AddedRows | backend/app/execution/intents.py:130-175 | A dynamic leg comes with its own waiting command unless the intent is over; a cancel with its own and a mark on the order |
| OutboxRows.RollbackTakes | backend/app/execution/outbox_worker.py:124-145 | The rollback takes exactly the live closes of at least 300 seconds that have legs, all without a trace |
| OutboxRows.RequeueTakes | backend/app/execution/outbox_worker.py:180-212 | The other repair takes exactly the sent commands of at least 300 seconds whose intent runs or needs recovery and whose legs have no trace |
| OutboxRows.RequeueRunsIntents | backend/app/execution/outbox_worker.py:209-216 | Exactly the intents of requeued commands run again |
| OutboxSteps.ClaimBelowIs | backend/app/execution/outbox_worker.py:316-348 | A batch claims rows in id order, each claimable, as recovery exactly if it was being processed, and changes only claimable rows |
| OutboxSteps.ProcessKeeps | backend/app/execution/outbox_worker.py:351-412 | Every branch of the first transaction of a claim keeps the invariant: a pending submit command owns only legs without orders, and legs are owned by one command |
| OutboxSteps.ConcludeKeeps | backend/app/execution/outbox_worker.py:430-459 | Recording the answers, known or unknown, keeps the invariant |
| OutboxSteps.RunKeeps | backend/app/execution/outbox_worker.py:71-107 | Every run keeps the invariant |
| OutboxRuns.RollbackStaleIs | backend/app/execution/outbox_worker.py:124-167 | The rollback repair fails an intent if and only if it is due, cancels exactly its commands, and every one of them was live and untouched |
| OutboxGrowth.RunGrows | backend/app/execution/outbox_worker.py:721-764 | No step loses or re-links a row, changes a client id or requested quantity, or lowers a filled quantity |
| OutboxWorker.ExecutionWorker.CreateExecutionIntent | backend/app/execution/intents.py:52-127 | Intent, legs and first command appear together; the returned id is the one stored under the key |
| OutboxWorker.ExecutionWorker.CancelCommandsOf | backend/app/execution/outbox_worker.py:148-157 | All commands of the intent are canceled and the last open group status among them is returned |
| OutboxWorker.ExecutionWorker.RepairStalePredispatchIntents | backend/app/execution/outbox_worker.py:110-168 | The pass over all intents is the specified repair step |
| OutboxWorker.ExecutionWorker.RepairStaleUnsentOutboxes | backend/app/execution/outbox_worker.py:171-220 | The pass over all rows is the specified repair step |
| OutboxWorker.ExecutionWorker.ClaimOutboxes | backend/app/execution/outbox_worker.py:316-348 | The pass over the rows is the specified claim step, up to the limit |
| OutboxWorker.ExecutionWorker.ApplyAnswer | backend/app/execution/outbox_worker.py:721-764 | One answer changes only its own order and leg, and stores an event |
| OutboxWorker.ExecutionWorker.ApplyAnswers | backend/app/execution/outbox_worker.py:434-442 | Answers for several legs change each its own row, in any order |
| OutboxWorker.ExecutionWorker.FailOutbox | backend/app/execution/outbox_worker.py:1279-1292 | The command is failed and unlocked, its intent gets the given status |
| OutboxWorker.ExecutionWorker.EnqueueExtra | backend/app/execution/intents.py:130-175 | A dynamic leg comes with its own pending command, a cancel with its own command for an existing order |
| OutboxWorker.ExecutionWorker.FinishCommand | backend/app/execution/outbox_worker.py:1085-1195 | Intent and group follow from the stored legs, or from the state machine where one drives the intent |
| OutboxWorker.ExecutionWorker.RecoverWithoutResubmit | backend/app/execution/outbox_worker.py:976-1017 | Recovery records settled answers and finishes, or leaves the intent in recovery when an order is missing or unsettled |
| OutboxWorker.ExecutionWorker.ProcessCancelClaim | backend/app/execution/outbox_worker.py:547-611 | Each outcome of a cancel has exactly its specified effect; a recovered cancel is only queried |
| OutboxWorker.ExecutionWorker.EnsureVenueOrders | backend/app/execution/outbox_worker.py:637-671 | Stored orders are kept, missing ones are created under the leg's client id |
| OutboxWorker.ExecutionWorker.ProcessHead | backend/app/execution/outbox_worker.py:351-412 | The head of the batch is processed as specified; other claims and submissions are untouched |
| OutboxWorker.ExecutionWorker.SubmitNext | backend/app/execution/outbox_worker.py:414-428 | One submission, under the stored client id |
| OutboxWorker.ExecutionWorker.ConcludeClaim | backend/app/execution/outbox_worker.py:430-459 | Answers are recorded and the command finished, or kept for recovery when an outcome is unknown |
| OutboxWorker.ExecutionWorker.Restart | backend/app/execution/outbox_worker.py:100-107 | A crash loses exactly the claims and the dispatch in memory |
| VenueEvents.LastIndex | backend/app/execution/venue_events.py:186-198 | The newest row with an id, or none exactly when no row has it |
| VenueEvents.QueueIsDrainedInOrder | backend/app/execution/venue_events.py:55-67 | Draining keeps the order of arrival and loses or repeats nothing: the batches and what still waits are the queue, and as many calls as events empty it |
| VenueEvents.EventProjector.ProjectOnce | backend/app/execution/venue_events.py:55-79 | The drained events leave the queue, and the batch is stored as a whole or lost as a whole |
| VenueEvents.EventProjector.ProjectEvent | backend/app/execution/venue_events.py:82-124 | A known event changes nothing; a new one is stored with its order, which alone changes |
| VenueEvents.EventProjector.ProjectedFillTotals | backend/app/execution/venue_events.py:296-314 | The loop computes the sums over all stored fills of the order |
| VenueEventProperties.BatchFilled | backend/app/execution/venue_events.py:201-268 | After any batch an order's filled quantity is the largest of what it was, each report, and each single fill on top of the fills of earlier batches |
| VenueEventProperties.FilledNeverDecreases | backend/app/execution/venue_events.py:201-205 | No batch lowers a filled quantity |
| VenueEventProperties.BatchIsExact | backend/app/execution/venue_events.py:262-268 | From an exact state a batch stays exact if and only if the reports reach the sum of fills or at most one new fill has a quantity |
| VenueEventProperties.FillsOfOneBatchAreLost | backend/app/execution/venue_events.py:262-268 | Of two fills in one batch only the larger is counted, while the stored fills sum to both |
| VenueEventProperties.BatchIsStoredIff | backend/app/execution/venue_events.py:71-78 | A batch is stored as a whole if and only if no event new to the table occurs in it twice; otherwise everything stays as before |
| VenueEventRuns.FilledIsMaxOfReportsAndFills | backend/app/execution/venue_events.py:296-314 | With one event per batch and the worker's answers in between, filled is the larger of the largest report and the sum of distinct fills, in every run |
| VenueEventRuns.ArrivalOrderDoesNotMatter | backend/app/execution/venue_events.py:82-124 | The same events in another order and with other repetitions give the same filled quantity |
| VenueEventRuns.FillAverage | backend/app/execution/venue_events.py:262-273 | After a new fill, average price and commission are those of all stored fills of the order |
| VenueEventRuns.EveryEventIsStoredOnce | backend/app/execution/venue_events.py:82-124 | Over every run of single events and answers, in any order and with any repetition, the table loses no row and holds every id that arrived exactly once |
| VenueEventRows.FoundIs | backend/app/execution/venue_events.py:186-198 | An event is matched to the newest order with its client id, and only without one to the newest with the venue's id |
| VenueEventRows.NewEventRows | backend/app/execution/venue_events.py:82-124 | A new event, alone in its batch, ends its order's leg exactly under the stated condition, teaches the venue's id, and changes no other order |
| VenueEventRows.OtherEventRows | backend/app/execution/venue_events.py:82-96 | A known event does nothing, and one without an order is only stored |
| Replay.Projection.RebuildProjection | backend/app/execution/replay.py:32-105 | Driven intents and intents without legs are refused unchanged; otherwise reset, replay, intent status and group status are as specified |
| Replay.Projection.Clear | backend/app/execution/replay.py:54-66 | The two loops reset every leg and order |
| Replay.Projection.ApplyStored | backend/app/execution/replay.py:74-82 | One event changes only the order it names and that order's leg |
| Replay.RebuildIsIndependent | backend/app/execution/replay.py:54-95 | The result does not depend on the projection before, and rebuilding twice equals rebuilding once |
| Replay.RebuildIsPerOrder | backend/app/execution/replay.py:74-82 | Each order is the fold of its own events over its reset row |
| Replay.ReplayRefinesLive | backend/app/execution/replay.py:116-130 | For any answers, replaying the deduplicated events gives the worker's filled and remaining quantities if and only if no negative reported quantity dominates |
| Replay.VenueFillsAreForgotten | backend/app/execution/replay.py:126-130 | An order known only from venue stream events is rebuilt without any fill |
| ReplayHistory.RebuiltEqualsLiveIff | backend/app/execution/replay.py:116-130 | For every history of venue events and worker answers in any order, the rebuilt filled quantity is the largest magnitude among the answers, and equals the live one if and only if that is the larger of the largest report and the sum of distinct fills |
| ReplayHistory.StreamLegsDiffer | backend/app/execution/replay.py:160-183 | On an order without a fill, a replayed snapshot ends the leg if and only if it says rejected, canceled, expired or pending cancel, so replay and live stream differ exactly on filled and pending cancel |
| ReplayAmounts.RebuiltPriceAndCharge | backend/app/execution/replay.py:131-141 | Replaying answers gives the last reported price and the largest reported charge |
| ReplayAmounts.LegacyFillsAddUp | backend/app/execution/replay.py:126-141 | Replaying fills of the legacy type gives the sums of quantities and charges and the price weighted by quantity |
| ReplayAmounts.ReplayedStatuses | backend/app/execution/replay.py:146-157 | The statuses of a replayed order and its leg go together, by fill, remainder and reported failure |
| ReplayAmounts.UntouchedIsPlanned | backend/app/execution/replay.py:54-66 | A leg without an order is planned after a rebuild |
| Replay.LegStatusesAgree | backend/app/execution/replay.py:146-157 | Replay and worker give a leg the same status on an answer exactly under the stated condition |
| Replay.RebuiltStatusIsWorkers | backend/app/execution/replay.py:84-105 | The rebuilt intent and group statuses are those that the worker derives from the same legs and orders |
| Gateway.MT5Gateway.Handle | mt5_gateway/main.py:114-140 | A handler with any failures and any death point is the specified sequence of operations |
| Gateway.MT5Gateway.Execute | mt5_gateway/main.py:122-136 | The normal path ends completed, dead, or raised into the error reply |
| GatewayRuns.AtMostOnceUntilExpiry | mt5_gateway/main.py:114-140 | Over every run with redelivery, two dispatches of a key have an expiry between them, every success reply carries the latest dispatch's answer, and an acknowledged message was answered |
| GatewayRuns.OneDispatchOneAnswer | mt5_gateway/main.py:123-134 | While a key's result never expired it was dispatched at most once and all its success replies are equal |
| GatewayRuns.BlockedForever | mt5_gateway/main.py:124-125 | A key whose execution ended without a stored result is never dispatched again in any further run |
| GatewayRuns.HandleWhenFine | mt5_gateway/main.py:114-136 | Without failures a call answers and acknowledges: cached again, locked refused, anything else dispatched once and kept |
| GatewayRuns.HandleKeeps | mt5_gateway/main.py:242-254 | A whole call, for a fresh or a recovered message, keeps the invariant |
| GatewayRuns.FailuresAreContained | mt5_gateway/main.py:114-140 | An operation that fails has its whole effect or none, in the normal path the error reply comes next, and a failed error reply ends the call |
| GatewayRuns.InterleavedHandlersDispatchTwice | mt5_gateway/main.py:123-124 | Two handlers that both read before either locks dispatch the same key twice |
| GatewayRuns.NoKeyNoGuarantee | mt5_gateway/main.py:120-125 | Without a key the same message is dispatched at every delivery |
| HedgePool.HedgePoolStore.AtomicUpdate | backend/app/execution/hedge_pool.py:206-230 | The update takes effect at one point between the others' operations, or gives up after five attempts that others cut short |
| HedgePool.HedgePoolStore.TryUpdate | backend/app/execution/hedge_pool.py:213-229 | One attempt takes effect at a point where nobody wrote since the read, or is cut short by a write of others and changes nothing itself |
| HedgePool.HedgePoolStore.UpsertGroup | backend/app/execution/hedge_pool.py:116-122 | A blind write stores an entry with a pool status and deletes any other |
| HedgePool.HedgePoolStore.LoadFromDb | backend/app/execution/hedge_pool.py:84-98 | Under any interference the load's own operations are only merges of its rows and removals of other entries with its start as cutoff |
| HedgePoolRuns.Linearizable | backend/app/execution/hedge_pool.py:206-230 | Under every interleaving of any number of clients, the pool and all verdicts are those of one sequential order |
| HedgePoolRuns.CompletedIsLoggedOnce | backend/app/execution/hedge_pool.py:206-230 | An operation that began and ended, with anything by others in between, is in the log exactly once, at the step that ended it, or not at all if and only if it gave up |
| HedgePoolRuns.GivingUpNeedsFiveWrites | backend/app/execution/hedge_pool.py:212-230 | An operation gives up only after at least five writes by others since it began |
| HedgePoolRuns.StoredEntriesHavePoolStatus | backend/app/execution/hedge_pool.py:222-225 | In every reachable state each entry has a pool status under its own id |
| HedgePoolRuns.MergeNeverLowersVersion | backend/app/execution/hedge_pool.py:170-178 | A database merge leaves an entry that is not older than the row nor than the entry before, and touches no other |
| HedgePoolRuns.MergesConverge | backend/app/execution/hedge_pool.py:170-178 | After any merges of a group, in any order, its entry has the newest version among them |
| HedgePoolRuns.MergeStoresWhenNotNewer | backend/app/execution/hedge_pool.py:170-178 | A merge stores its row if and only if the entry is missing or not newer |
| HedgePoolRuns.MergeResurrects | backend/app/execution/hedge_pool.py:84-92 | A row read before its group was closed and deleted is stored again, and can be taken for closing again |
| HedgePoolRuns.RemovalsAreNeverNewer | backend/app/execution/hedge_pool.py:180-199 | In every run a removal deletes no entry newer than its cutoff and touches no other |
| HedgePoolRuns.ClosingIsTakenOnce | backend/app/execution/hedge_pool.py:124-134 | Between two successful closings of a group some upsert, merge or late update opened it again |
| HedgePoolRuns.OneWinner | backend/app/execution/hedge_pool.py:124-134 | With only closing attempts, at most one succeeds for a group |
| HedgePoolMarks.MarksAccumulate | backend/app/execution/hedge_pool.py:124-168 | Over any sequence of marks, with anything done to other groups, an entry stays with the sum of all fees, the last realized result and unchanged terms |
| HedgePoolMarks.MarkIs | backend/app/execution/hedge_pool.py:124-168 | One mark sets the status, the version and the given texts and results; only an open group is taken for closing; no other entry changes |
| HedgePoolMarks.ClosedLeaves | backend/app/execution/hedge_pool.py:140-155 | A group that is marked closed or failed leaves the pool |
| HedgePoolMarks.AbsentIsNotMarked | backend/app/execution/hedge_pool.py:124-168 | A mark of a group that is not in the pool changes nothing |
| HedgePoolMarks.RemovesIff | backend/app/execution/hedge_pool.py:180-199 | A removal deletes an entry if and only if it is there and not newer than the cutoff |
| HedgePoolMarks.MergeIs | backend/app/execution/hedge_pool.py:170-178 | A merge replaces an entry that is not newer and keeps its live result exactly when the group is open before and after |
| HedgePoolMarks.VersionOrder | backend/app/execution/hedge_pool.py:249-255 | Versions are ordered, and an entry without one is older than all |
| Probe.ProbeRun.AdvanceEntry | backend/app/execution/probe_runs.py:296-315 | The entry stage advances as specified |
| Probe.ProbeRun.AdvanceExit | backend/app/execution/probe_runs.py:352-402 | The exit stage advances as specified |
| Probe.OneExitSizedToEntry | backend/app/execution/probe_runs.py:314-349 | Over every run, also when an entry status goes back from terminal, there is at most one exit, it keeps its size, and the size is the entry's final fill |
| Probe.FlatMeansFlat | backend/app/execution/probe_runs.py:352-402 | At the step that marks a run flat, entry minus exit is between 0 and the tolerance and the account is within the tolerance of its baseline |
| Probe.CompleteExitIsFlatIff | backend/app/execution/probe_runs.py:363-373 | A complete exit at the baseline is flat if and only if the entry reached the probe quantity within the tolerance |
| Probe.PartialEntryIsNeverFlat | backend/app/execution/probe_runs.py:363-373 | A probe whose entry finally fills only in part, beyond the tolerance, is never flat in any run |
| Probe.EntryDecides | backend/app/execution/probe_runs.py:296-349 | In every run, once the entry is over the probe failed without exposure if and only if nothing was filled, and otherwise there is an exit for exactly the fill |
| Probe.EntryGoesOn | backend/app/execution/probe_runs.py:296-304 | While the entry is not over the probe asks for no exit, and is opening once there is an order |
| Probe.ExitDecides | backend/app/execution/probe_runs.py:352-402 | In every run, the probe is flat, needs recovery or goes on exactly by the exit's fill, its end and the account, with a tolerance of a millionth |
| Probe.LateReportReopens | backend/app/execution/probe_runs.py:296-304 | A late entry event rewrites the residual of a flat run, and reopens it if the entry is no longer terminal |
| Schedule.SessionBounds | backend/app/market/mt5_schedule.py:320-338 | A session starts on its day, lasts at most a day, and is empty only from 24:00 to 00:00 |
| Schedule.WindowDatetimes | backend/app/market/mt5_schedule.py:320-338 | The loop lists the sessions of the three days around an instant |
| Schedule.MatchingWindow | backend/app/market/mt5_schedule.py:299-305 | A window is found if and only if the instant lies in the infinite weekly schedule; it is the first item that has one, with the seconds to its earliest end |
| Schedule.SecondsToNext | backend/app/market/mt5_schedule.py:308-317 | The result is the whole seconds to the least later start of the infinite schedule, at most a week away, and absent exactly when no item has a valid day |
| Schedule.LocalScheduleState | backend/app/market/mt5_schedule.py:161-249 | The status is that of the infinite schedule with close-only before quote-only before regular; permissions follow; the time to close is that to the session's end; the time to open is that to the least later start, of a regular session in quote-only and of any of the three lists in a closed market |
| Schedule.WeeksRepeat | backend/app/market/mt5_schedule.py:320-338 | An instant and the same instant a week later are in the schedule alike |
| Schedule.DaysFollow | backend/app/market/mt5_schedule.py:320-338 | Days are counted from a Monday and named in the order of the week |
| Schedule.OwnListsComeFirst | backend/app/market/mt5_schedule.py:161-190 | A symbol's own lists decide as soon as one is given, else the named template |
| CircuitBreaker.SymbolBreaker.Update | backend/app/execution/circuit_breaker.py:112-147 | An update is the specified step |
| CircuitBreaker.SymbolBreaker.IsBlocked | backend/app/execution/circuit_breaker.py:149-166 | A query closes a breaker whose cooldown is over and answers whether it is open |
| CircuitBreaker.SymbolBreaker.CalculateJitter | backend/app/execution/circuit_breaker.py:170-194 | The loops compute the ratio of alternations to moves |
| CircuitBreaker.SymbolBreaker.PruneWindow | backend/app/execution/circuit_breaker.py:209-217 | The loop drops the old prefix |
| CircuitBreaker.SymbolBreaker.UpdateBaseline | backend/app/execution/circuit_breaker.py:196-207 | Baseline and threshold change as specified |
| CircuitBreaker.JitterBounds | backend/app/execution/circuit_breaker.py:170-194 | The ratio is in [0, 1], 1 exactly when all neighbouring moves alternate, 0 exactly when none does |
| CircuitBreaker.WindowIsFilter | backend/app/execution/circuit_breaker.py:124-126 | With time going forward each direction's window is its whole history filtered to the detection time |
| CircuitBreaker.RunRatios | backend/app/execution/circuit_breaker.py:127-137 | In every run all ratios are in [0, 1] and the baseline keeps its capacity |
| CircuitBreaker.BlockedDuringCooldown | backend/app/execution/circuit_breaker.py:149-166 | With time going forward a query is blocked if and only if the last trip is less than the cooldown ago |
| CircuitBreaker.CooldownIsKept | backend/app/execution/circuit_breaker.py:139-166 | During the cooldown no further updates or queries move the trip or close the breaker |
| CircuitBreaker.TripIsExceptional | backend/app/execution/circuit_breaker.py:196-207 | With a multiplier of at least 1 a trip's ratio exceeds more than three quarters of the baseline |
| CircuitBreaker.NoTripAboveOne | backend/app/execution/circuit_breaker.py:196-207 | With enough samples nothing trips while percentile times multiplier is at least 1 |
| CircuitBreaker.UnqueriedBreakerMissesBursts | backend/app/execution/circuit_breaker.py:139-141 | Any number of updates leave an open, unqueried breaker open with its old trip, so the next query after the cooldown lets trading through whatever burst came before it |
| BreakerRuns.UpdateTakesLargest | backend/app/execution/circuit_breaker.py:127-147 | After every run the ratio that an update stores is the largest of all directions, and a closed breaker opens if and only if some direction's ratio exceeds the threshold |
| BreakerRuns.TripsOnAnyDirection | backend/app/execution/circuit_breaker.py:112-147 | With time going forward, the same for the ratios of the samples of every direction within the detection time |
| BreakerRuns.ThresholdIsPercentile | backend/app/execution/circuit_breaker.py:196-207 | In every run the baseline holds the last 2000 ratios, and the threshold is the configured one until there are enough, then their 75th percentile times the multiplier |
| BreakerRuns.MovesAre | backend/app/execution/circuit_breaker.py:177-184 | The moves are exactly the changes that are not flat, in order |
| BreakerRuns.AlternationsAre | backend/app/execution/circuit_breaker.py:186-194 | The alternations are counted once for each place where neighbouring moves have opposite directions |
| BreakerRuns.RatioIsShareOfTurns | backend/app/execution/circuit_breaker.py:170-194 | The ratio of a window is the share of its moves after the first that turn, and zero with fewer than two moves |
| Pnl.WeightedExecutionPrice | backend/app/execution/pnl.py:273-299 | The loops compute the weighted price |
| Pnl.WeightedPriceBounds | backend/app/execution/pnl.py:273-299 | A weighted price exists exactly when a priced fill does, and lies between the lowest and the highest fill price |
| Pnl.ProfitIsCashFlow | backend/app/execution/pnl.py:178-195 | In either direction profit is the signed cash flow of all fills minus fees plus what leg quantities lack at their weighted prices |
| Pnl.MatchedProfitIsCashFlow | backend/app/execution/pnl.py:178-195 | When both legs opened and closed the group quantity, profit is cash flow minus fees |
| Pnl.CompensationIsNotPriced | backend/app/execution/pnl.py:273-299 | A compensating order changes neither spread, and the profit only by its own fee |
| Pnl.DirectionsAreOpposite | backend/app/execution/pnl.py:158-160 | Swapping the direction negates spreads and cash flow |
| Pnl.HedgeGroup.Refresh | backend/app/execution/pnl.py:218-243 | A closed, fully priced group gets its spread, fees and profit; the result says whether a field moved by more than 1e-12 |
| Pnl.RefreshIsIdempotent | backend/app/execution/pnl.py:218-243 | Refreshing again from the same facts changes nothing |
| PnlRows.ProfitIsSumOfRows | backend/app/execution/pnl.py:178-215 | When both legs opened and closed the group quantity, the profit is what the rows brought in, opening the long leg and closing the short one being bought, less the charges |
| PnlRows.OrdersNetProfit | backend/app/execution/pnl.py:178-215 | When the orders alone did so, the profit is the sum of their net amounts |
| PnlRows.SpreadIff | backend/app/execution/pnl.py:124-161 | There is an entry spread exactly when both legs have a priced opening row, and a close spread exactly when both have a priced closing row |
| PnlRows.RefreshStoresRows | backend/app/execution/pnl.py:218-243 | A refresh of a closed group stores that profit, the charges, no unrealized profit and the entry spread of the opening rows, and nothing else |
| PnlRows.UnpricedIsKept | backend/app/execution/pnl.py:218-226 | A group that lacks a price on one side keeps everything |
| Equity.EquityCurvePoints | backend/app/accounts/equity_history.py:100-140 | The streaming pass computes the curve of the range |
| Equity.LatestRowOfEveryBucket | backend/app/accounts/equity_history.py:122-136 | The curve is exactly the latest row of every non-empty bucket, in the order of the buckets |
| Equity.CurveIs | backend/app/accounts/equity_history.py:100-140 | For any table and range, a row is in the curve if and only if it is in the range and the latest of its bucket there, or the first row of the whole history; in time order, each once |
| Equity.AllRangeFits | backend/app/accounts/equity_history.py:191-193 | Up to 1200 largest buckets of span, the chosen bucket divides the span into at most 1200 parts |
| Equity.SecondsAreSymmetric | backend/app/accounts/equity_history.py:122-128 | Times are cut off to whole seconds toward the epoch, on both sides of it |
| Equity.SmallestBucket | backend/app/accounts/equity_history.py:191-193 | Every smaller bucket of the list divides the span into more than 1200 parts |
| Equity.FixedRangeFits | backend/app/accounts/equity_history.py:100-140 | The curve of a day, week or month has at most 1441, 2017 or 1441 points |
| Equity.WholeHistory | backend/app/accounts/equity_history.py:122-139 | The curve of the whole history starts with the first row, ends with the last, and has at most 1202 points |

## Left out

- The older ledger of orders and fills, and close sizing from residuals: worker and event path both insert fills, so nothing is conserved across them.
- Opportunity rows, entry-spread write-back, notes, error texts and logs: they decide nothing in the protocol.
- Validation of venue texts in leg plans and price computation for the first maker leg.
- Voiding and marking manual: unguarded operator overrides; in the maker runs they are marks of the intent.
- The legacy ledger in the guard of superseding: the model asks the stored venue orders for pending ones and fills. The run theorems do not depend on this guard, as a mark may give any status at any time.
- Commands from before legs were recorded in their payload.
- The MT5 session and tradability gate and pre-trade risk checks: an arbitrary decision at the gate.
- How the maker machine's outcome reaches the worker's tables: the worker model admits any outcome of an advance, so its theorems do not depend on the machine.
- Liveness of maker and probe, several worker processes at once.
- Time zones with daylight saving as elapsed time: sessions are modelled on wall-clock time, as the source compares them.
- The built-in session tables of the templates and the parsing of session texts: an item is given with parsed times.
- Floating-point rounding, JSON, hash collisions.
- Changing a circuit breaker's configuration while it runs.
- Summing the account's position rows for a probe: the position is an input.
- Collecting account snapshots and backfilling the equity history.
- Malformed command payloads at the gateway, which end the session before any operation, and requests without a response stream.
- Account and position events, which touch no order.
- Routes, authentication, settings, migrations, connectors, frontend, analytics, funding and the paper adapter.
