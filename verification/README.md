# ZTrade: a Dafny model of the trading spine

ZTrade is a crypto trading platform whose core packages are deterministic state machines and exact
arithmetic: I/O is injected from outside. This project models those cores and proves what they promise.

- **Exact money.** `Decimals` is the coefficient-and-scale decimal with its six rounding modes, guarded
  division, parser and printer. Every operation is tied to the real number it denotes (`Decimal.Value`), and
  rounding to an independent reference (`Rounded`). `Money` and `RiskSizing` size orders with it.
- **Book rebuild.** `OrderBooks` is the client book, `BookReplicas` the refinement against a venue history
  over a lossy, duplicating, reordering channel, `Ingestion` the public-stream client around it.
- **Order lifecycle.** `OrderStates` is the order machine, `Engines` the event loop's effect on orders and
  positions, `SimBrokers` the simulated venue, `SimLedger`, `SimFills` and `SimRuns` its histories, its fills and
  its composition with the engine, `Journals`, `LiveReplay`, `Reconcilers` and `LivePipelines` the durable journal, crash
  replay, reconciliation and cold start, with `WrittenJournals` on the journal as it is really written.
- **Rate and exposure control.** `TokenBuckets`, `Schedulers`, `Breakers`, `RiskEngines`, `RiskRuns`,
  `RiskBatches`.
- **Fast forms against slow forms.** `Features` against `Indicators`, `Bars` against `BarRuns`, the sweep
  price in `Events`, the TWAP and iceberg planners in `SmartExec`.
- **Audit chain.** `CanonicalText` is the canonical JSON of an entry, `AuditChains` the hash chain over a
  digest that is a parameter.

Code that updates state in place is a class; its methods are proved equal to value-level step functions
(`Applied`, `Drain`, `Stepped`, `Checked`, ...), and the theorems are about runs of those steps. `Prefixes` holds
the one induction principle for what is true all along a run. Prices,
sizes and features are `real`; times are whole milliseconds; Decimal is integer arithmetic. Replies of a
venue, verdicts of the risk gate and pulls of the venue's state are parameters. Where a map is walked in
insertion order and the result depends on it, the order is either modelled (`queue` in `SimBrokers`) or left
open (bars closed by a timer, drift entries, totals).

Where the code does less than its documentation says, the code is modelled as it is, a concrete input shows
the difference, and the exact condition under which the promise holds is proved:

- Mode UP sends a value strictly between minus one step and zero to plus one step, and guarded division is
  wrong for tiny negative quotients under FLOOR and CEIL and just above a tie under HALF_EVEN
  (`RoundToStepCorrectIff`, `RoundToStepMonotone`, `DivCorrectIff`).
- An order that reuses an id hides the fill its record held: positions follow the fills all along exactly when
  no order passing the gate does so (`PositionsFollowFillsIff`). The same holds of a replayed journal and its
  openings (`RecoveredPositionsFollowFillsIff`).
- The journal the live pipeline writes lacks the local submission: it recovers the engine's positions exactly
  when no account event ever filled an order, and its orders exactly when no account event came in
  (`AsWrittenAgreesIff`). With the submission after each opening, a first session's journal recovers the engine's
  positions exactly when no account event fills an order the venue had refused (`FirstSessionPositionsIff`),
  accepted orders always (`AcceptedRecordAgrees`) and a refused one exactly when the first event it accepts is the
  rejection already booked (`RefusedRecordAgreesIff`).
- After a restart a live order is journaled as opened anew. Positions still agree exactly when no account event is
  a fill that only one of the restored and the re-opened record accepts (`ReplayedPositionsIff`); a record agrees
  exactly when the two come to the same (`RecordAgreesIff`), and what it had filled before is lost
  (`ReopenedFillIsLost`).
- A cold start leaves every symbol at the venue's size exactly when each recovered position belongs to a
  tracked symbol or is flat (`ColdStartAgreesIff`); from a journal of the pipeline's own that is always so
  (`WrittenJournalReachesTheVenue`).
- A crossed book goes stale without asking for a new snapshot (`CrossedBookIsNotReRequested`); exactly when a
  delta keeps a book healthy is `DeltaKeepsHealthIff`.
- A timer close lets a late trade reopen a bucket whose bar is already out (`OpensIncreaseIff`).
- Asking a token bucket how long to wait is invisible unless a header sync comes next, and then exactly when no
  time had passed, the sync does not reach below the refilled tokens, or there are none
  (`WaitsAreInvisible`, `WaitBeforeSyncIff`).
- The aggregate notional cap bounds the account exactly when every position is marked or flat
  (`AggregateCapSeesAllIff`).
- Intents of one event are checked against the same positions, also when they name one symbol: together they keep
  the caps exactly when the book with every symbol at its worse end does (`JointPositionCapIff`, `JointCapsIff`).
- A tripped breaker lets reduce-only orders through on the flag alone: no position can grow exactly when every order
  let through faces its position and is at most twice its size (`TrippedBookOnlyShrinksIff`).
- Sizing by risk bounds the loss at the configured stop; with a volatility stop in its place exactly when that one is
  no wider (`LossWithinShareIff`).
- A success resets the back-off level, so a later rejection may end earlier: never exactly when its level has not
  fallen or is at the cap (`LaterNeverEndsEarlierIff`).
- The two planners work exactly the parent quantity only when it is a multiple of the step
  (`TwapSumsToParentIff`, `IcebergSumsToParentIff`).

## Model

| member | source | states |
|---|---|---|
| `DecimalRounding.RoundedIsNearest` | packages/core/src/decimal.ts:251-282 | the reference for HALF_UP and HALF_EVEN is a nearest integer to the exact quotient, ties away from zero or to even |
| `DecimalRounding.RoundedIsDirected` | packages/core/src/decimal.ts:251-282 | the reference for FLOOR, CEIL, DOWN, UP is the closest integer on the mode's own side |
| `DecimalRounding.TruncDivIsTruncation` | packages/core/src/decimal.ts:129-130 | BigInt division is the exact quotient cut towards zero, on every sign |
| `DecimalRounding.ApplyRoundingMeaning` | packages/core/src/decimal.ts:251-282 | the digit-level rounding of quotient and remainder is the reference rounding of the exact quotient, UP between -1 and 0 excepted |
| `DecimalRounding.GuardedRounding` | packages/core/src/decimal.ts:120-148 | rounding a quotient that was truncated with one guard digit and an inexactness flag, as a function of the exact quotient |
| `DecimalLaws.AlignValue` | packages/core/src/decimal.ts:84-89 | aligning two decimals to one scale keeps both values |
| `DecimalLaws.ArithmeticIsExact` | packages/core/src/decimal.ts:93-110 | add, sub, mul and neg compute the exact sum, difference, product and negation |
| `DecimalLaws.CompareOrdersValues` | packages/core/src/decimal.ts:172-193 | compare orders the values, whatever the representations |
| `DecimalLaws.SignIsTheValues` | packages/core/src/decimal.ts:199-203 | the sign is that of the value |
| `DecimalLaws.RoundToStepMeaning` | packages/core/src/decimal.ts:158-168 | the result is a whole number of steps given by the exact quotient alone |
| `DecimalLaws.RoundToStepCorrectIff` | packages/core/src/decimal.ts:158-168 | it is the correctly rounded multiple exactly unless the mode is UP and the value lies strictly between -step and zero |
| `DecimalLaws.RoundToStepIdempotent` | packages/core/src/decimal.ts:158-168 | rounding an already rounded value changes nothing, in every mode |
| `DecimalLaws.RoundToStepMonotone` | packages/core/src/decimal.ts:158-168 | rounding keeps order, except UP on exactly the pairs of a value between -step and zero with zero |
| `DecimalLaws.RoundToStepIgnoresRepresentation` | packages/core/src/decimal.ts:158-168 | 2.5 and 2.50 round alike, whichever way step and operand are written |
| `DecimalLaws.RoundToScaleMeaning` | packages/core/src/decimal.ts:138-148 | rounding to a scale is rounding of value times 10^scale, and exact when the scale is not reduced |
| `DecimalLaws.DivMeaning` | packages/core/src/decimal.ts:120-133 | the quotient has the asked-for scale and is a function of the exact quotient alone |
| `DecimalLaws.DivCorrectIff` | packages/core/src/decimal.ts:120-133 | division is correctly rounded exactly when the guard digit suffices: always for DOWN and HALF_UP, on quotients >= 0 for FLOOR, CEIL, UP |
| `DecimalLaws.DivIgnoresRepresentation` | packages/core/src/decimal.ts:120-133 | quotients of equal values are the same decimal |
| `DecimalLaws.GuardDigitCounterexamples` | packages/core/src/decimal.ts:120-133 | -0.01 under FLOOR and CEIL, 0.51 under HALF_EVEN, to whole units |
| `DecimalLaws.UpCounterexample` | packages/core/src/decimal.ts:267-268 | -0.5 rounded UP to a step of 1 is +1 |
| `DecimalText.ParserGrammar` | packages/core/src/decimal.ts:41-53 | the parser accepts exactly an optional minus, digits, and optionally a point and digits, in surrounding white space |
| `DecimalText.TrimDropsSpaces` | packages/core/src/decimal.ts:42-42 | trimming drops white space at either end, all of it and nothing else |
| `DecimalText.ParseSigned` | packages/core/src/decimal.ts:41-53 | parsing reads the digits as the coefficient and counts the fraction as the scale |
| `DecimalText.ToStringRoundTrip` | packages/core/src/decimal.ts:214-224 | parsing the printed string gives back the value |
| `DecimalText.PrintsNoSpareZeros` | packages/core/src/decimal.ts:214-227 | what is printed has no leading zero but the one before the point, and no zero at the end of a fraction |
| `DecimalText.SameStringIffEqual` | packages/core/src/decimal.ts:214-224 | two decimals print the same string exactly when they are equal |
| `DecimalText.ToFixedRoundTrip` | packages/core/src/decimal.ts:227-236 | parsing the fixed-point string gives the value rounded half up to that many places |
| `Money.QuantitySteps` | packages/core/src/money.ts:44-54 | the quantity is the number of whole steps in the exact quotient notional/price, in spite of three nested truncations |
| `Money.QuantityIsMaximal` | packages/core/src/money.ts:44-54 | quantity times price is at most the notional, and one more step would cost more |
| `Money.QuantityIsLargest` | packages/core/src/money.ts:44-54 | a multiple of the step is affordable exactly when it is at most the quantity |
| `Money.NoQuantityWithoutCapital` | packages/core/src/money.ts:44-54 | a notional, price or step that is not positive sizes to zero; a quantity is never negative |
| `Money.NetPnlValue` | packages/core/src/money.ts:67-90 | net P&L is the signed move times the size less the fee on both notionals, exactly |
| `RiskSizing.ExposureIsExact` | apps/server/src/engine/risk.ts:73-80 | exposure counts every exchange position, and a trade row only where the exchange reports no position of its symbol |
| `RiskSizing.TightestIsTheCeiling` | apps/server/src/engine/risk.ts:91-101 | an amount is within the clamped notional exactly when it is within every ceiling |
| `RiskSizing.ApprovedWithinEveryCeiling` | apps/server/src/engine/risk.ts:41-135 | an approved quantity times price exceeds neither the request, the position size, the room under the global cap nor a known equity; it is within the exchange's bounds and the symbol was free |
| `RiskSizing.ApprovedIsLargest` | apps/server/src/engine/risk.ts:91-134 | a whole number of steps fits under every ceiling exactly when it is at most the approved quantity |
| `RiskSizing.PermittedIff` | apps/server/src/engine/risk.ts:41-90 | before sizing a request is let through exactly when its pair is listed, the day's trades and the open positions have room, its symbol is free and the amount at risk is below the cap |
| `RiskSizing.ApprovedIff` | apps/server/src/engine/risk.ts:41-135 | a request is approved exactly when it is let through, something is asked for and may be held, and the most whole steps within every ceiling are within the exchange's bounds |
| `RiskSizing.ApprovedRiskIsBounded` | apps/server/src/engine/risk.ts:137-160 | sized by risk, an approved order loses no more than the chosen share of equity at any stop no wider than the configured one |
| `RiskSizing.LossWithinShareIff` | apps/server/src/engine/engine.ts:573-585 | with another stop put in its place after sizing, the share bounds the loss of every notional the mode may ask for exactly when that stop is no wider, or no share is risked |
| `RiskSizing.WiderStopRisksMore` | apps/server/src/engine/engine.ts:573-585 | risking 1% of 100 at a stop of 2% asks for 50, which loses 2 at a stop of 4% |
| `RiskSizing.ConvictionNeverGrows` | apps/server/src/engine/engine.ts:556-570 | a conviction multiplier between 0 and 1 opens a row worth at least nothing and at most what was approved |
| `RiskSizing.OpensTheScaledShare` | apps/server/src/engine/engine.ts:556-570 | what is opened is the most that the scaled notional affords, unless that is below a minimum: then what was approved |
| `RiskSizing.AsksForTheShare` | apps/server/src/engine/risk.ts:137-160 | sized by a share a request asks for that share of equity, sized by risk for what loses the chosen share at the stop, and otherwise for the largest position |
| `RiskSizing.OpeningStaysContained` | apps/server/src/engine/risk.ts:41-135 | opening what was approved, shrunk by conviction or not, keeps one trade a symbol, the position count, the size limit and the global cap |
| `RiskSizing.PaperRunsStayContained` | apps/server/src/engine/risk.ts:41-135 | the same over every run of paper requests, convictions and closes |
| `OrderStates.RunAccounts` | packages/execution/src/orderState.ts:85-199 | after every event sequence the filled quantity, the fill notional and the fees are the sums over the accepted fills, the fill is within quantity plus epsilon, and unfilled states hold no fill |
| `OrderStates.EventTable` | packages/execution/src/orderState.ts:109-206 | which events move an order from which state to which, what each writes, what a finished order ignores, and which error everything else is |
| `OrderStates.NewOrderIsBlank` | packages/execution/src/orderState.ts:83-103 | a new order is unsent, unfilled and as asked for |
| `OrderStates.FillAcceptedIff` | packages/execution/src/orderState.ts:117-183 | a fill is accepted exactly when the order is submitted, acknowledged or partly filled and the fill is positive and fits |
| `OrderStates.RemainingIsWhatFits` | packages/execution/src/orderState.ts:139-204 | of an open order exactly the positive fills of at most the remaining quantity plus epsilon are accepted |
| `OrderStates.RemainingIsUnfilled` | packages/execution/src/orderState.ts:202-204 | what remains is what is not filled, and never below zero |
| `OrderStates.TerminalForever` | packages/execution/src/orderState.ts:117-126 | a terminal record never changes, whatever arrives |
| `OrderStates.AveragePriceWithinFills` | packages/execution/src/orderState.ts:156-167 | the average price stays within the range of the accepted fill prices |
| `Engines.Engine.AdvanceClock` | packages/execution/src/engine.ts:97-98 | the clock moves forward to the event's time, and never back |
| `Engines.ClockIsTheLatest` | packages/core/src/clock.ts:48-50 | in every run the clock shows the latest event time seen |
| `Engines.Engine.DrainBroker` | packages/execution/src/engine.ts:119-148 | each event in order: unknown ids ignored, refused events logged, fills moving the position by the signed quantity |
| `Engines.OneEventOnly` | packages/execution/src/engine.ts:119-148 | an unknown id changes nothing, an event its record refuses is only logged, an accepted one replaces the record, and a fill moves the position of its symbol by what was bought or sold |
| `Engines.LogIsNumbered` | packages/execution/src/engine.ts:125-211 | in every run the decision log is numbered from zero without a gap |
| `Engines.Engine.OpenOrder` | packages/execution/src/engine.ts:188-195 | a new record under the id, already moved to submitted |
| `Engines.Engine.Veto` | packages/execution/src/engine.ts:172-186 | a vetoed intent is logged and opens no order |
| `Engines.Engine.BookAnswer` | packages/execution/src/engine.ts:203-224 | an accepted answer is logged as submitted; a refusal rejects the record and is logged |
| `Engines.Engine.BookCancel` | packages/execution/src/engine.ts:151-167 | a cancel intent is logged; records change only through later events |
| `Engines.Engine.OverridePosition` | packages/execution/src/engine.ts:86-89 | the position becomes the given size, and is dropped when it is flat |
| `Engines.Engine.RestoreOrders` | packages/execution/src/engine.ts:92-95 | recovered records are added, replacing those of the same id |
| `Engines.Engine.NextIntentSeq` | packages/execution/src/engine.ts:62-62 | intent numbers are handed out once each, from zero |
| `Engines.DrainFrame` | packages/execution/src/engine.ts:119-148 | records a batch does not mention pass through a drain untouched and affect nothing |
| `Engines.OrderFollowsFillsIff` | packages/execution/src/engine.ts:169-224 | one order keeps positions the signed sums of fills exactly when the gate stops it or its id is new or holds no fill |
| `Engines.PositionsFollowFillsIff` | packages/execution/src/engine.ts:119-224 | in every run, whatever the broker sends, positions are the signed sums of their orders' fills at every point, if and only if no order passing the gate reuses an id that holds a fill |
| `Engines.PositionsFollowFillsAlways` | packages/execution/src/engine.ts:119-224 | hence at the end of every run with fresh ids |
| `Engines.ReusedIdLosesFills` | packages/execution/src/engine.ts:188-195 | a concrete run in which a reused id hides a fill |
| `SimBrokers.SimBroker.Submit` | packages/adapters-sim/src/simBroker.ts:77-139 | a repeated id is refused as a duplicate and changes nothing, a refused order leaves nothing pending, an accepted one becomes visible after the latency with its queue position |
| `SimFills.AcceptedOrderIsPlaced` | packages/adapters-sim/src/simBroker.ts:98-135 | an accepted order becomes visible after the latency and rests at its limit, a passive one at the best price of its own side, behind the size that side shows at its price times the factor |
| `SimFills.SubmissionRefusedIff` | packages/adapters-sim/src/simBroker.ts:77-120 | a submission is refused exactly when its id was used, its symbol has no book, or it is marketable and the book cannot fill it whole or only beyond the allowed distance from the middle, above for a buy and below for a sell; it then leaves nothing pending |
| `SimBrokers.SimBroker.CancelOrder` | packages/adapters-sim/src/simBroker.ts:141-148 | exactly a pending order is cancelled, and reported |
| `SimBrokers.SimBroker.CancelAll` | packages/adapters-sim/src/simBroker.ts:150-154 | every pending order is cancelled, in order, and counted |
| `SimBrokers.SimBroker.DrainEvents` | packages/adapters-sim/src/simBroker.ts:156-160 | hands over the queued events once |
| `SimBrokers.SimBroker.Step` | packages/adapters-sim/src/simBroker.ts:167-189 | every order visible by now is acknowledged once and offered the market, in submission order |
| `SimBrokers.SimBroker.FillMarket` | packages/adapters-sim/src/simBroker.ts:191-209 | a market order fills whole at the swept price with the taker fee, or waits when the book is too thin |
| `SimBrokers.SimBroker.FillLimit` | packages/adapters-sim/src/simBroker.ts:219-257 | a limit order fills whole at its own price when traded through, or once volume at its price has eaten the queue ahead of it |
| `SimBrokers.SimBroker.UpdateBook` | packages/adapters-sim/src/simBroker.ts:73-75 | the latest book of a symbol is kept |
| `SimLedger.EventsOfEveryOrder` | packages/adapters-sim/src/simBroker.ts:77-257 | over every call sequence an accepted order emits at most one ack, then at most one fill of exactly its quantity or one cancel, nothing after, no ack or fill before submission plus latency; a refused one emits nothing |
| `SimLedger.SubmitKeepsLedger` | packages/adapters-sim/src/simBroker.ts:77-139 | one submission keeps that history, duplicates included |
| `SimLedger.VisitKeepsLedger` | packages/adapters-sim/src/simBroker.ts:167-257 | one visit of one order in a step keeps it |
| `SimLedger.CancelKeepsLedger` | packages/adapters-sim/src/simBroker.ts:141-148 | one cancel keeps it |
| `SimFills.QueueIsConsumed` | packages/adapters-sim/src/simBroker.ts:219-240 | in every run a waiting order's queue ahead is what it was given less the volume traded at its price since it became visible |
| `SimFills.FillsAreEarned` | packages/adapters-sim/src/simBroker.ts:157-252 | in every run a marketable fill is whole, at the step's swept price and taker fee; a resting one whole, at its limit and maker fee, and only once the best ask is below a buy's limit or the best bid above a sell's, or the volume traded at its price has reached the queue ahead |
| `SimFills.StepFillsIff` | packages/adapters-sim/src/simBroker.ts:157-252 | in every run a step fills a visible order exactly when the book can fill a marketable one, or has passed a resting one, or trades enough at its price to reach it |
| `SimFills.QueueIsInSubmissionOrder` | packages/adapters-sim/src/simBroker.ts:77-160 | in every run the venue visits what is pending in the order of submission |
| `SimFills.StepSpeaksInTurn` | packages/adapters-sim/src/simBroker.ts:157-180 | in every run what a step reports comes in that order |
| `SimFills.RunsAreQueued` | packages/adapters-sim/src/simBroker.ts:62-189 | in every run the visiting order lists each pending id once, and none of them can be submitted again |
| `SimRuns.SimEngine.PlaceIntent` | packages/execution/src/engine.ts:169-224 | an intent goes through the gate, is recorded before it is submitted, and its answer is booked |
| `SimRuns.SimEngine.Handle` | packages/execution/src/engine.ts:97-117 | one event: clock, drain, then each order or cancel intent in turn |
| `SimRuns.SimEngine.CancelIntent` | packages/execution/src/engine.ts:151-167 | a cancel intent reaches the venue, and its answer is logged |
| `SimRuns.NeverAnIllegalTransition` | packages/execution/src/engine.ts:119-224 | engine and simulated venue composed, with fresh ids and positive quantities: a drain never logs a refused event, and positions are the signed sums of fills |
| `SimRuns.PlaceKeepsStep` | packages/execution/src/engine.ts:150-224 | placing an order keeps every record, once drained, in step with the venue |
| `Journals.RecoverState` | packages/execution/src/journal.ts:89-129 | the loop computes the replay: openings make new records, events move them, fills move positions, unknown ids are skipped |
| `Journals.ReplayDrains` | packages/execution/src/journal.ts:89-129 | an opening makes a blank record, an event does to records and positions what the engine does on draining it, a reconciliation is only noted |
| `Journals.MemoryJournal.Append` | packages/execution/src/journal.ts:63-71 | entries are appended in order |
| `Journals.RecoveryGate.MarkReconciled` | packages/execution/src/journal.ts:149-151 | reconciling opens the gate |
| `Journals.RecoveryGate.Block` | packages/execution/src/journal.ts:153-155 | blocking closes it |
| `Journals.RecoveryGate.constructor` | packages/execution/src/journal.ts:142-143 | the gate starts closed |
| `Journals.RecoveredPositionsHaveOrders` | packages/execution/src/journal.ts:89-129 | when openings agree on symbols, every recovered position belongs to a recovered order |
| `Journals.ReplayOneFollowsFillsIff` | packages/execution/src/journal.ts:94-126 | one entry keeps recovered positions the signed sums of recovered fills exactly when it is no opening of an id that holds one |
| `Journals.RecoveredPositionsFollowFillsIff` | packages/execution/src/journal.ts:89-129 | at every prefix of a journal they are, if and only if no opening meets an id whose replayed record holds a fill |
| `Journals.ReopeningLosesFills` | packages/execution/src/journal.ts:98-105 | a concrete journal in which a re-opening discards a replayed fill |
| `LiveReplay.ReplayEqualsSettledEngine` | packages/execution/src/journal.ts:89-129 | in every orderly first session whose account events concern accepted orders the journal, with the submission after each opening, replays to exactly the engine's records and positions once its queue is drained |
| `LiveReplay.RunsTrack` | packages/adapters-bybit/src/livePipeline.ts:82-101 | in every orderly session restarted from any journal, order by order: the engine holds what the record it entered with makes of its events, the journal what a record submitted anew does, and an order not journaled since the restart is recovered as it was |
| `LiveReplay.ReplayedPositionsIff` | packages/execution/src/journal.ts:89-129 | whatever journal a session was restarted from, replayed positions show every symbol as the settled engine does all along, if and only if no account event is a fill that just one of the two accepts: the order as it entered or the order submitted anew |
| `LiveReplay.RecordAgreesIff` | packages/execution/src/journal.ts:89-129 | a journaled order replays to the settled record exactly when the record it entered with and a record submitted anew come to the same under its events; one not journaled since the restart is recovered as it was |
| `LiveReplay.ReopenedFillIsLost` | packages/adapters-bybit/src/livePipeline.ts:86-94 | the second opening after a restart loses exactly what the order had filled before it |
| `LiveReplay.FirstSessionPositionsIff` | packages/execution/src/journal.ts:89-129 | in a first session the replayed positions are the settled engine's all along, if and only if no account event is a fill that the replayed record of a refused order accepts |
| `LiveReplay.RefusedRecordAgreesIff` | packages/execution/src/engine.ts:214-223 | a refused order replays to the engine's record exactly when the first event its replayed record accepts is a rejection for the reason already booked |
| `LiveReplay.AcceptedRecordAgrees` | packages/execution/src/journal.ts:89-129 | a journaled order the venue accepted always replays to the settled engine's record |
| `WrittenJournals.NoPositionIffNeverFilled` | packages/execution/src/engine.ts:119-148 | the settled engine holds no position exactly when no account event ever filled an order of it |
| `WrittenJournals.AsWrittenReplay` | packages/execution/src/journal.ts:89-129 | a journal without submissions recovers no position, and records as created or at once rejected |
| `WrittenJournals.AsWrittenAgreesIff` | packages/adapters-bybit/src/livePipeline.ts:82-101 | the journal as written recovers no position and no record as the engine holds it; positions agree exactly when no account event filled an order, records exactly when no account event came in |
| `WrittenJournals.AsWrittenCounterexample` | packages/adapters-bybit/src/livePipeline.ts:82-101 | one buy accepted and filled: the engine holds 1, the journal recovers nothing |
| `LiveReplay.RefusedYetFilledCounterexample` | packages/execution/src/engine.ts:214-223 | a concrete submission rejected locally whose fill still arrives: refused by the engine, replayed by the journal |
| `LiveReplay.RedeliveredFillCounterexample` | packages/adapters-bybit/src/livePipeline.ts:86-94 | two concrete sessions: an order filled in the first is opened again in the journal of the second, so a fill delivered twice, which the restarted engine refuses, is recovered as one |
| `WrittenJournals.PipelineWritesNoSubmit` | packages/adapters-bybit/src/livePipeline.ts:82-101 | no journal the pipeline writes holds a submission |
| `Reconcilers.Reconcile` | packages/execution/src/reconciler.ts:68-132 | the drift list is exactly the phantom orders, the untracked orders and the symbols whose sizes differ beyond the tolerance, each symbol once; clean exactly when empty |
| `Reconcilers.LastRowCounts` | packages/execution/src/reconciler.ts:109-113 | a symbol's venue size is the size in its last row |
| `Reconcilers.IndexedSizes` | packages/execution/src/reconciler.ts:109-113 | the index holds exactly the listed symbols, each under that size |
| `Reconcilers.FindPhantoms` | packages/execution/src/reconciler.ts:83-94 | exactly the live local orders the venue does not list |
| `Reconcilers.FindUntracked` | packages/execution/src/reconciler.ts:99-108 | exactly the venue's orders with no live local record |
| `Reconcilers.FindMismatches` | packages/execution/src/reconciler.ts:112-129 | exactly the symbols of either side whose sizes differ beyond the tolerance |
| `Reconcilers.PositionCorrections` | packages/execution/src/reconciler.ts:143-151 | every mismatched symbol, and no other, is corrected to the venue's size |
| `Reconcilers.CorrectedSymbols` | packages/execution/src/reconciler.ts:68-151 | a symbol is corrected exactly when one side tracks it and the sizes differ |
| `LivePipelines.LivePipeline.HandleAccountEvent` | packages/adapters-bybit/src/livePipeline.ts:82-101 | an opening is journaled once per known id, then the event, then it is queued for the engine |
| `LivePipelines.LivePipeline.Tick` | packages/execution/src/engine.ts:97-101 | the engine drains what was queued |
| `LivePipelines.LivePipeline.OnStreamedPosition` | packages/adapters-bybit/src/livePipeline.ts:112-115 | the streamed size is kept with its sign, and its symbol becomes one to reconcile |
| `LivePipelines.LastPositionCounts` | packages/adapters-bybit/src/livePipeline.ts:185-188 | the venue's last listed position of a symbol counts, a sold one below zero |
| `LivePipelines.LivePipeline.RunReconciliation` | packages/adapters-bybit/src/livePipeline.ts:168-217 | every symbol streamed, ordered or listed ends within tolerance of the size the venue's last position gives it, or of zero; all others are untouched; clean exactly when the two sides disagree on no order and no such symbol, and then nothing changes |
| `LivePipelines.LivePipeline.ColdStart` | packages/adapters-bybit/src/livePipeline.ts:121-159 | replayed orders and positions are loaded, the venue's sizes applied, the gate opened exactly when the venue could be pulled, and the marker journaled exactly when nothing drifted |
| `LivePipelines.StartFrom` | packages/adapters-bybit/src/livePipeline.ts:61-159 | a new pipeline over a left journal, cold-started, can trade and holds what the lemmas about cold starts assume |
| `LivePipelines.ColdStartAgreesIff` | packages/adapters-bybit/src/livePipeline.ts:121-217 | every symbol ends within tolerance of the venue exactly when each recovered position is of a tracked symbol or flat |
| `LivePipelines.ColdStartReachesTheVenue` | packages/adapters-bybit/src/livePipeline.ts:121-217 | when ids keep their symbols, every symbol ends within tolerance of the venue's last listed size, or of zero where it lists none, and a second pass finds no position mismatch |
| `LivePipelines.EmptyDriftIff` | packages/execution/src/reconciler.ts:131-131 | the drift list is empty exactly when the two sides disagree on no order and no tracked symbol |
| `LivePipelines.WrittenJournalReachesTheVenue` | packages/adapters-bybit/src/livePipeline.ts:82-159 | from a journal without submissions, as the pipeline writes it, a cold start always ends within tolerance of the venue, whatever is re-opened |
| `LivePipelines.ForeignReopeningIsNotReconciled` | packages/adapters-bybit/src/livePipeline.ts:212-217 | a journal from elsewhere, holding submissions, that re-opens an id under another symbol leaves the old position behind |
| `LivePipelines.LiveBroker.IngestOrderEvent` | packages/adapters-bybit/src/liveBroker.ts:180-183 | account events queue in arrival order; an acknowledgement's exchange id is remembered |
| `LivePipelines.LiveBroker.DrainEvents` | packages/adapters-bybit/src/liveBroker.ts:170-174 | the queue is handed over once, in order |
| `TokenBuckets.TokenBucket.Take` | packages/execution/src/scheduler.ts:47-62 | refill capped at capacity, then take all of the count or none of it |
| `TokenBuckets.TakesAllOrNothing` | packages/execution/src/scheduler.ts:47-61 | a take gets its whole count or costs nothing, and is then as if only the wait had been asked |
| `TokenBuckets.RefillEarns` | packages/execution/src/scheduler.ts:47-54 | a bucket earns its rate over the time since, up to its capacity, and nothing when time runs back |
| `TokenBuckets.TokenBucket.WaitMs` | packages/execution/src/scheduler.ts:64-69 | refill, then the deficit's earning time rounded up, infinite without a refill rate |
| `TokenBuckets.TokenBucket.Sync` | packages/execution/src/scheduler.ts:76-80 | a header can only lower the tokens, and not below zero |
| `TokenBuckets.GrantedInWindow` | packages/execution/src/scheduler.ts:47-80 | any stretch of calls within [lo, hi] is granted at most the capacity plus what the interval earns |
| `TokenBuckets.WindowBound` | packages/execution/src/scheduler.ts:47-80 | hence over any interval of any run of a new bucket, syncs and waits interleaved |
| `TokenBuckets.WaitIsLeast` | packages/execution/src/scheduler.ts:64-69 | the wait is the least whole number of milliseconds after which the take succeeds; beyond the capacity it never does |
| `TokenBuckets.InfiniteWaitNeverEnds` | packages/execution/src/scheduler.ts:64-69 | without a refill rate the wait is infinite exactly for a deficit, and then no later take succeeds |
| `TokenBuckets.RefillTwice` | packages/execution/src/scheduler.ts:47-54 | refilling twice is refilling once at the later time |
| `TokenBuckets.WaitsAreInvisible` | packages/execution/src/scheduler.ts:47-69 | an interposed wait changes no later answer of a run that does not begin with a sync |
| `TokenBuckets.WaitBeforeSyncIff` | packages/execution/src/scheduler.ts:47-80 | with a sync next it changes none, if and only if no time had passed, the sync does not reach below the refilled tokens, or there are none |
| `TokenBuckets.SyncsCollapse` | packages/execution/src/scheduler.ts:76-80 | syncs in a row are one sync to the smallest count |
| `TokenBuckets.WaitBeforeSyncCounterexample` | packages/execution/src/scheduler.ts:64-80 | a concrete wait before a sync that changes an answer |
| `Schedulers.RateScheduler.TakeToken` | packages/execution/src/scheduler.ts:106-110 | nothing is taken during back-off; otherwise the category's bucket decides |
| `Schedulers.RateScheduler.WaitMs` | packages/execution/src/scheduler.ts:113-117 | the longer of the bucket's wait and the back-off's rest |
| `Schedulers.RateScheduler.ObserveHeaders` | packages/execution/src/scheduler.ts:123-128 | a remaining-quota header lowers the category's tokens |
| `Schedulers.RateScheduler.ObserveRejection` | packages/execution/src/scheduler.ts:136-144 | only rate-limit codes raise the level and set the category's back-off |
| `Schedulers.RateScheduler.ObserveSuccess` | packages/execution/src/scheduler.ts:146-148 | a success resets the level |
| `Schedulers.SchedulerWaitIsLeast` | packages/execution/src/scheduler.ts:106-117 | the reported wait, back-off included, is the least after which a take succeeds |
| `Schedulers.BackoffDoubles` | packages/execution/src/scheduler.ts:136-144 | delays are positive and double until they reach the cap |
| `Schedulers.DelayTable` | packages/execution/src/scheduler.ts:136-144 | half a second, doubled up to six times, and half a minute from then on |
| `Schedulers.DelayOrder` | packages/execution/src/scheduler.ts:136-144 | one level is answered with no longer a delay than another exactly when it is no higher or the other is at the cap |
| `Schedulers.SentIsGranted` | packages/execution/src/scheduler.ts:83-163 | what is sent is what the category's bucket grants to its own view of the run |
| `Schedulers.CategoryWindowBound` | packages/execution/src/scheduler.ts:83-163 | a category sends no more than its capacity plus its rate over any interval of any run, whatever the others do |
| `Schedulers.LatestRejectionDecides` | packages/execution/src/scheduler.ts:136-148 | a category backs off until the time and delay of its latest rate-limit rejection, the delay counting rejections since the last success |
| `Schedulers.NothingSentDuringBackoff` | packages/execution/src/scheduler.ts:106-148 | in every run a request of a rejected category is let through no earlier than the end of the back-off its latest rejection set |
| `Schedulers.NeverRejectedNeverBacksOff` | packages/execution/src/scheduler.ts:83-128 | a category never rejected does not back off at any time from zero on: its bucket alone decides |
| `Schedulers.BackoffEndsLaterWithoutSuccess` | packages/execution/src/scheduler.ts:136-148 | without a success in between, a later rejection never ends earlier than one before it |
| `Schedulers.LaterNeverEndsEarlierIff` | packages/execution/src/scheduler.ts:136-148 | a later rejection never ends earlier, whenever the two come, if and only if its level has not fallen or is at the cap |
| `Schedulers.SuccessShortensBackoff` | packages/execution/src/scheduler.ts:136-148 | a concrete run in which a success between two rejections lets the later one end earlier |
| `Schedulers.CategoriesAreIndependent` | packages/execution/src/scheduler.ts:83-163 | an operation on one category touches no other's tokens or back-off |
| `Breakers.CircuitBreaker.Escalate` | packages/risk/src/breaker.ts:65-68 | moves, with an audited transition, exactly when the target is more severe |
| `Breakers.CircuitBreaker.Reset` | packages/risk/src/breaker.ts:71-74 | moves to NORMAL exactly when not there |
| `Breakers.BreakerIsWorstSinceReset` | packages/risk/src/breaker.ts:42-84 | the state is the worst asked for since the last reset, and the history is an unbroken path of rises and resets to it |
| `RiskEngines.CorrelationKeyIsSymmetric` | packages/risk/src/engine.ts:87-89 | a pair of symbols has one key, whichever is named first |
| `RiskEngines.KeyNamesTheFirstFirst` | packages/risk/src/engine.ts:87-89 | it joins the two names with a bar, the one that sorts first in front |
| `RiskEngines.ComputeTotalNotional` | packages/risk/src/engine.ts:296-304 | the loop sums the notional of exactly the marked positions, in any order |
| `RiskEngines.ComputeCorrelatedNotional` | packages/risk/src/engine.ts:310-336 | the loop sums exactly the marked, non-flat positions of the symbol itself or correlated at or above the threshold in magnitude |
| `RiskEngines.TotalsAreValues` | packages/risk/src/engine.ts:296-336 | the two sums are the value of all marked positions, and of the marked, non-flat ones in the symbol itself or in one whose correlation with it is at or beyond the threshold in either direction |
| `RiskEngines.LowerThresholdSeesMore` | packages/risk/src/engine.ts:310-336 | a lower threshold leaves no position out |
| `RiskEngines.RiskEngine.EvaluatePortfolio` | packages/risk/src/engine.ts:143-167 | the breaker is escalated as the daily loss and the drawdown say |
| `RiskEngines.RiskEngine.Check` | packages/risk/src/engine.ts:170-179 | the verdict is logged, and only an accepted intent enters the rate window |
| `RiskEngines.RiskEngine.Evaluate` | packages/risk/src/engine.ts:181-281 | the first failing check vetoes, in the code's order; history is pruned only when the rate check is reached |
| `RiskEngines.RiskEngine.SizeChecks` | packages/risk/src/engine.ts:235-280 | position, aggregate, leverage, correlation, in that order |
| `RiskEngines.RiskEngine.PruneRateWindow` | packages/risk/src/engine.ts:283-289 | the expired beginning of the window is dropped |
| `RiskEngines.AllowedIff` | packages/risk/src/engine.ts:170-281 | an intent is allowed exactly when it is sane, the breaker permits it, the window has room, its limit is within the band, and unless it only reduces the value of its position, of all positions and of those that move with it stay within the caps and the leverage |
| `RiskEngines.RefusalNamesTheFirst` | packages/risk/src/engine.ts:170-281 | a refusal names the first of these that fails, in the code's order |
| `RiskEngines.WatchHaltsIff` | packages/risk/src/engine.ts:143-167 | HALT follows exactly from the daily loss or the drawdown, and otherwise nothing moves |
| `RiskRuns.PrunedIsTheWindow` | packages/risk/src/engine.ts:283-289 | what survives pruning is exactly what was accepted in the closed window ending now |
| `RiskRuns.RateNeverExceeded` | packages/risk/src/engine.ts:170-218 | over a whole run with forward times no closed window holds more accepted intents than the limit |
| `RiskRuns.RateDenialIff` | packages/risk/src/engine.ts:209-218 | a sane, permitted intent is refused for its rate exactly when the window ending at its time already holds the limit |
| `RiskRuns.CapsHoldAlways` | packages/risk/src/engine.ts:170-281 | from within the caps every run stays within the position, aggregate and leverage caps, fills booked before the next check |
| `RiskRuns.KeepsSizeIff` | packages/risk/src/engine.ts:232-233 | a fill leaves a position no larger exactly when it is nothing, or faces it and is at most twice its size |
| `RiskRuns.StaysTripped` | packages/risk/src/breaker.ts:65-74 | from leaving NORMAL until a reset, severity never falls |
| `RiskRuns.OrderKeepsSizeIff` | packages/risk/src/engine.ts:232-233 | no fill of an order can enlarge a position exactly when the whole order faces it and is at most twice its size |
| `RiskRuns.TrippedOrderIff` | packages/risk/src/engine.ts:197-233 | with the breaker tripped a step can enlarge no position, whatever is filled, exactly when an order let through faces its position and is at most twice its size |
| `RiskRuns.TrippedBookOnlyShrinksIff` | packages/risk/src/engine.ts:197-233 | the same at every step of a run from leaving NORMAL until a reset |
| `RiskRuns.ReduceOnlyOpensAPosition` | packages/risk/src/engine.ts:197-207 | at HALT with a flat book a reduce-only buy of 1 is let through, and filled the book holds 1 |
| `RiskRuns.TrippedBookOnlyShrinks` | packages/risk/src/engine.ts:197-233 | so while the flag is honoured the whole book only shrinks |
| `RiskRuns.AggregateCapSeesAllIff` | packages/risk/src/engine.ts:245-252 | what an exposure-adding intent was allowed on bounds the true aggregate, however unmarked symbols are priced, exactly when every position is marked or flat |
| `RiskRuns.UnmarkedPositionEscapesTheCap` | packages/risk/src/engine.ts:296-304 | a concrete intent allowed although an unmarked position is already past the aggregate cap |
| `RiskBatches.BookedAllSizes` | packages/risk/src/engine.ts:296-304 | booking the orders of one event moves every symbol by the signed sum of its fills and nothing else |
| `RiskBatches.JointPositionCapIff` | packages/risk/src/engine.ts:235-243 | however the orders of one event fill, repeated symbols included, a symbol stays within the position cap, if and only if it does with all its buys filled and with all its sells filled |
| `RiskBatches.JointCapsIff` | packages/risk/src/engine.ts:235-263 | however they fill, the position, aggregate and leverage caps all hold, if and only if they hold of the book with every symbol at its worse end |
| `RiskBatches.AllowedApartNotTogether` | packages/risk/src/engine.ts:170-252 | two concrete intents of one event, each allowed, that together break it |
| `RiskBatches.SameSymbolBreaksThePositionCap` | packages/risk/src/engine.ts:235-243 | two concrete intents of one event for one symbol, each allowed, that together break the position cap |
| `Events.ComputeSweepPrice` | packages/core/src/events.ts:73-95 | the loop computes the size-weighted price of the walk, or none |
| `Events.SweepRefusedIffShort` | packages/core/src/events.ts:73-95 | there is no price exactly when nothing is asked for or the visible depth is below the quantity |
| `Events.SweepPaysWhatItTakes` | packages/core/src/events.ts:73-95 | a buy sweeps the asks and a sell the bids; price times quantity is the cost of what is taken from each level in turn, which is the whole quantity |
| `Events.SweepPriceBoundsAndMonotone` | packages/core/src/events.ts:73-95 | the price lies between the best and the last level touched, and a larger order never gets a better one |
| `Features.RingBuffer.Push` | packages/features/src/incremental.ts:26-32 | the newest value is appended, the oldest evicted exactly when full |
| `Features.RingBuffer.Last` | packages/features/src/incremental.ts:43-46 | the newest value, if any |
| `Features.RingBuffer.At` | packages/features/src/incremental.ts:49-53 | the i-th oldest value, none out of range |
| `Features.RingBuffer.Clear` | packages/features/src/incremental.ts:61-64 | empties the buffer |
| `Features.RollingMean.Update` | packages/features/src/incremental.ts:76-81 | the mean of exactly the last `period` values fed, none before |
| `Features.RollingMean.Reset` | packages/features/src/incremental.ts:91-94 | as if nothing had been fed |
| `Features.Ema.Reset` | packages/features/src/incremental.ts:130-133 | as if nothing had been fed |
| `Features.RollingVariance.Reset` | packages/features/src/incremental.ts:185-189 | as if nothing had been fed |
| `Features.Ema.Update` | packages/features/src/incremental.ts:114-124 | the average seeded with the first mean and blended since |
| `Features.EmaIsWeighted` | packages/features/src/incremental.ts:101-133 | the average is the seed and every value since, each weighted k(1 - k)^j by its age, k being 2 / (period + 1) |
| `Features.WeightsAddUp` | packages/features/src/incremental.ts:101-133 | the weights add up to one |
| `Features.RollingVariance.Update` | packages/features/src/incremental.ts:152-171 | mean and squared deviations stay those of exactly the last `period` values |
| `Features.RollingVariance.Variance` | packages/features/src/incremental.ts:177-179 | the sample variance of the window, never negative |
| `Features.WelfordGrow` | packages/features/src/incremental.ts:152-171 | the growing update is exact |
| `Features.WelfordSlide` | packages/features/src/incremental.ts:152-171 | the sliding update is exact |
| `Features.NoNegativeDeviations` | packages/features/src/incremental.ts:165-170 | squared deviations are never negative, so the floor on m2 never fires |
| `Indicators.Sma` | apps/server/src/strategies/indicators.ts:8-18 | the running-sum loop yields the mean of every window |
| `Indicators.ComputeEma` | apps/server/src/strategies/indicators.ts:21-37 | the loop yields the seeded exponential average |
| `Indicators.StreamMean` | packages/features/src/incremental.ts:68-95 | streaming values through RollingMean yields the batch series |
| `Indicators.StreamEma` | packages/features/src/incremental.ts:104-134 | streaming values through Ema yields the batch series |
| `Bars.BarAggregator.OnTrade` | packages/ingestion/src/bars.ts:56-82 | a later bucket emits the forming bar and starts one, the same bucket extends it, an older one drops the trade |
| `Bars.BucketIsTheMultiple` | packages/ingestion/src/bars.ts:52-54 | a bucket opens at the one multiple of the width at or before the time and less than a width before it |
| `Bars.BarAggregator.OnEvent` | packages/ingestion/src/bars.ts:85-88 | anything but a trade is ignored |
| `Bars.BarAggregator.CloseExpired` | packages/ingestion/src/bars.ts:97-105 | every bar of an earlier bucket is emitted closed, once, and forgotten |
| `BarRuns.SummaryIsUnique` | packages/ingestion/src/bars.ts:112-137 | the batch summary determines the bar |
| `BarRuns.BarsSummariseTheirTrades` | packages/ingestion/src/bars.ts:42-137 | in every run each emitted bar, in order, is the batch summary of exactly the trades routed to it, and the pending one that of the forming batch |
| `BarRuns.VolumeIsConserved` | packages/ingestion/src/bars.ts:56-105 | emitted plus pending plus dropped volume is the volume traded |
| `BarRuns.OpensIncreaseIff` | packages/ingestion/src/bars.ts:56-105 | open times strictly increase exactly when no trade starts a bar at or before an emitted one |
| `BarRuns.OpensIncreaseWithoutCloses` | packages/ingestion/src/bars.ts:56-82 | without timer closes they always do, whatever the order of the trades |
| `BarRuns.ReopenedBucketCounterexample` | packages/ingestion/src/bars.ts:71-105 | with one, a concrete run emits the same bucket twice |
| `BarRuns.ForwardBarsAreWholeBuckets` | packages/ingestion/src/bars.ts:42-137 | when times never go back nothing is dropped and each emitted bar summarises all trades that ever fall into its bucket |
| `SmartExec.PlanTwap` | packages/execution/src/smartExec.ts:30-69 | equal slices at evenly spaced rounded times, the remainder last; one child when a slice would be below the step |
| `SmartExec.RoundStepIsDecimalRounding` | packages/execution/src/smartExec.ts:179-187 | the planners' rounding is what the decimal rounding computes |
| `SmartExec.LastSliceIsLargest` | packages/execution/src/smartExec.ts:51-58 | the last slice is no smaller than the others and completes the parent rounded to the step |
| `SmartExec.SliceIsLargestShare` | packages/execution/src/smartExec.ts:40-40 | each slice is the largest multiple of the step within an equal share |
| `SmartExec.TwapWorksTheParent` | packages/execution/src/smartExec.ts:30-69 | children are positive and sum to the parent, rounded to the step when sliced |
| `SmartExec.TwapSumsToParentIff` | packages/execution/src/smartExec.ts:30-69 | they sum to exactly the parent if and only if it is a multiple of the step, and are multiples always |
| `SmartExec.TwapKeepsTheWindow` | packages/execution/src/smartExec.ts:51-66 | times do not decrease and run from the start of the window to exactly its end |
| `SmartExec.SlicesAreEvenlySpaced` | packages/execution/src/smartExec.ts:43-66 | slice i is sent at the whole millisecond nearest to i equal parts of the window |
| `SmartExec.PlanIceberg` | packages/execution/src/smartExec.ts:78-104 | terminates; clips of the display size, the last one what is left of the rounded parent |
| `SmartExec.DisplayIsLargestShown` | packages/execution/src/smartExec.ts:78-92 | a clip is the largest multiple of the step within the quantity to be shown |
| `SmartExec.ClipsAreTheCeiling` | packages/execution/src/smartExec.ts:93-101 | such clips sum to the total and number its quotient by the display size, rounded up |
| `SmartExec.IcebergSumsToParentIff` | packages/execution/src/smartExec.ts:78-104 | they sum to exactly the parent if and only if it is a multiple of a positive step |
| `SmartExec.TwapOverworksAnOddParent` | packages/execution/src/smartExec.ts:51-58 | with a step of 2 a parent of 5 in two slices is worked as 2 and 4 |
| `SmartExec.IcebergOverworksAnOddParent` | packages/execution/src/smartExec.ts:93-101 | with a display of 2 it is worked as three clips of 2 |
| `OrderBooks.SortLevels` | packages/ingestion/src/orderbook.ts:225-230 | every level once, strictly sorted by price |
| `OrderBooks.BestKey` | packages/ingestion/src/orderbook.ts:232-242 | the largest or smallest price, none for an empty side |
| `OrderBooks.WriteLevels` | packages/ingestion/src/orderbook.ts:215-223 | raw levels are set in order: the last statement of a price counts, size zero removes, values that are no numbers are skipped |
| `OrderBooks.LevelsAreRestated` | packages/ingestion/src/orderbook.ts:215-223 | after an update every price it states last with a size above or below zero is there with that size, every price it states last with zero is gone, and all others are as they were; the written levels are that, and nothing else is |
| `OrderBooks.OrderBook.Snapshot` | packages/ingestion/src/orderbook.ts:88-95 | something is served exactly when healthy: the book sorted and cut to the depth |
| `OrderBooks.OrderBook.Apply` | packages/ingestion/src/orderbook.ts:105-108 | dispatches to snapshot or delta |
| `OrderBooks.OrderBook.ApplySnapshot` | packages/ingestion/src/orderbook.ts:105-127 | the book is just what the snapshot states, healthy unless that is crossed, and the snapshot is counted |
| `OrderBooks.OrderBook.ApplyDelta` | packages/ingestion/src/orderbook.ts:129-179 | unhealthy: refused and counted; old id: nothing; gap: stale, counted and reported; next id: each side as the delta restates it, healthy unless crossed |
| `OrderBooks.OrderBook.Validate` | packages/ingestion/src/orderbook.ts:181-192 | a crossed book goes stale |
| `OrderBooks.OrderBook.Invalidate` | packages/ingestion/src/orderbook.ts:194-203 | a book that held anything goes stale |
| `OrderBooks.OrderBook.Reset` | packages/ingestion/src/orderbook.ts:205-212 | back to empty |
| `OrderBooks.SortedViewIsUnique` | packages/ingestion/src/orderbook.ts:225-230 | there is one way to sort a book's levels |
| `OrderBooks.CutIsBest` | packages/ingestion/src/orderbook.ts:88-95 | the cut levels are the best ones: everything left out is worse |
| `BookReplicas.HealthyBookIsTheVenues` | packages/ingestion/src/orderbook.ts:105-192 | whatever the channel drops, repeats or reorders, a healthy book is the venue's book at its update id, uncrossed |
| `BookReplicas.ServedPricesAreTheVenues` | packages/ingestion/src/orderbook.ts:88-95 | what is served is the venue's book, sorted and cut; otherwise nothing is served |
| `BookReplicas.DeltaKeepsHealthIff` | packages/ingestion/src/orderbook.ts:129-192 | a genuine delta keeps a healthy replica healthy exactly when it is old, or next and the venue's book uncrossed; a gap is reported exactly when one is |
| `BookReplicas.UnbrokenStreamIsServed` | packages/ingestion/src/orderbook.ts:105-192 | after any past, a snapshot and every delta in order leave the replica healthy at the last |
| `BookReplicas.OnlyASnapshotRecovers` | packages/ingestion/src/orderbook.ts:129-145 | a book that is not healthy serves nothing and reports no gap until a snapshot |
| `BookReplicas.CrossedBookIsNotReRequested` | packages/ingestion/src/orderbook.ts:181-192 | a crossed book goes stale without a gap report, and stays so |
| `BookReplicas.CrossedBookExample` | packages/ingestion/src/orderbook.ts:181-192 | a concrete snapshot, a delta that crosses it and the next delta: stale, and no gap ever reported |
| `Ingestion.BybitIngestion.OnOpen` | packages/ingestion/src/bybitWs.ts:135-139 | an opened socket subscribes to everything |
| `Ingestion.BybitIngestion.OnClose` | packages/ingestion/src/bybitWs.ts:143-151 | a closed socket invalidates every book |
| `Ingestion.BybitIngestion.HandleBook` | packages/ingestion/src/bybitWs.ts:230-275 | a gap re-requests the book, a refusal emits nothing, an applied update of a healthy book emits its best levels |
| `Ingestion.BybitIngestion.HandleTrades` | packages/ingestion/src/bybitWs.ts:277-288 | one numbered event a trade |
| `Ingestion.BybitIngestion.HandleTicker` | packages/ingestion/src/bybitWs.ts:290-314 | omitted prices come from the last known ones; two numbers are used up whether or not both events are emitted |
| `Ingestion.TickersAreTheLatest` | packages/ingestion/src/normalize.ts:63-87 | in every run the prices kept for a symbol are nothing before its first last price, and since then each price as stated last, mark and index being that first price until they are stated |
| `Ingestion.EmittedTickersAreTheLatest` | packages/ingestion/src/bybitWs.ts:290-314 | a ticker frame emits exactly these prices if there are any, and its funding rate if it brings one |
| `Ingestion.BybitIngestion.HandleKlines` | packages/ingestion/src/bybitWs.ts:316-330 | one numbered event a kline |
| `Ingestion.EventsAreNumbered` | packages/ingestion/src/bybitWs.ts:230-330 | in every run emitted events carry strictly increasing numbers across all streams and symbols |
| `Ingestion.BooksStayFaithful` | packages/ingestion/src/bybitWs.ts:208-275 | in every run every healthy book is its venue's |
| `Ingestion.EmittedBooksAreTheVenues` | packages/ingestion/src/bybitWs.ts:230-275 | an emitted book event comes from a frame of its symbol and shows the venue's best 50 levels at that frame's id, uncrossed |
| `Ingestion.NoStalePricesAfterDisconnect` | packages/ingestion/src/bybitWs.ts:143-173 | after a disconnect no book of a symbol is emitted until its next snapshot |
| `Ingestion.GapReRequestsTheBook` | packages/ingestion/src/bybitWs.ts:254-259 | while connected a book is re-requested exactly when a gap is found |
| `CanonicalText.EscapeIsReadBack` | packages/security/src/auditChain.ts:45-54 | a JSON string ends where its text says and has one reading |
| `CanonicalText.CanonicaliseIsInjective` | packages/security/src/auditChain.ts:45-54 | no two entries serialise to the same text |
| `CanonicalText.PrefixedTextIsReadBack` | packages/security/src/auditChain.ts:56-61 | a previous hash and an entry joined into one text are both read back, as the hash holds no bracket |
| `AuditChains.VerifyChain` | packages/security/src/auditChain.ts:118-140 | valid exactly for valid chains; otherwise the least failing index, and whether its number, its link or its content fails first |
| `AuditChains.AuditChain.Append` | packages/security/src/auditChain.ts:90-103 | the entry commits to its position, the head and its content |
| `AuditChains.FirstEntryExample` | packages/security/src/auditChain.ts:45-61 | a concrete first entry: its digest is taken of 64 zeros and its fields in their order, control characters escaped |
| `AuditChains.AuditChain.Verify` | packages/security/src/auditChain.ts:105-107 | the chain's own verdict, as above |
| `AuditChains.AppendKeepsValid` | packages/security/src/auditChain.ts:90-103 | appending keeps a valid chain valid and repairs no broken one |
| `AuditChains.SameHeadSameChain` | packages/security/src/auditChain.ts:118-140 | two valid chains with one head are equal entry for entry, unless the digest of previous hash followed by text collides, yields the genesis value or a bracket on the very texts the two chains hash |
| `AuditChains.UnaryIsSound` | packages/security/src/auditChain.ts:56-61 | there is a digest that does none of that on any text |
| `AuditChains.PartedChainsNeverRejoin` | packages/security/src/auditChain.ts:56-61 | under the same condition, once two valid chains differ no later heads of theirs are equal |
| `AuditChains.EditIsLocated` | packages/security/src/auditChain.ts:118-140 | an edited entry breaks the chain exactly at its index, unless the digest collides on the texts hashed |
| `AuditChains.RehashedEditIsLocated` | packages/security/src/auditChain.ts:118-140 | rehashing it moves the break to the next entry, or changes the head when there is none |
| `AuditChains.RemovalIsLocated` | packages/security/src/auditChain.ts:118-140 | a removed entry is located at its index, unless it was the last: then only the head tells |
| `AuditChains.SwapIsLocated` | packages/security/src/auditChain.ts:118-140 | two swapped entries are located at the earlier one |

## Left out

- Floating point: prices, sizes, features and thresholds are exact reals, so IEEE rounding, NaN and infinities are not modelled; where the code tests for finite input the model has a finite/not-finite case (book levels) or starts from finite numbers.
- `Decimal.fromNumber` and `toNumber`: they rest on JavaScript number printing; Decimals start from parsed strings. Times and quantities that are numbers stay reals or integers.
- RiskSizing.ApprovedWithinEveryCeiling: amounts are Decimals throughout, so floating-point clamping is exact, the notional asked for is a Decimal that `ApprovedRiskIsBounded` takes to be at most the sizing mode's (the code converts that number itself), and the database reads are lists of rows.
- RiskSizing.ConvictionNeverGrows: the multiplier is a parameter between 0 and 1; how a score yields it is not modelled.
- LiveReplay.RunsTrack: intents use new ids and account events concern orders the engine holds and are never submissions; the journal is the written one with each submission added after its opening; a restarted session begins from the replay of its past journal, so from a cold start that corrected no position, and position overrides are not part of these runs.
- Engines.PositionsFollowFillsIff: position overrides and restored orders are not part of these runs.
- LivePipelines.ColdStartReachesTheVenue: no account event arrives between the pull and the corrections; the venue's listing is taken as the truth.
- SimRuns.NeverAnIllegalTransition: fresh ids and positive quantities are hypotheses; the strategy's intents and the gate's verdicts are parameters of each step.
- BookReplicas.HealthyBookIsTheVenues: a venue is a sequence of books, one per update id, and every received update is one it published; ids that restart for a different history are outside the statement, and after a crossed book no recovery is claimed.
- RiskRuns.CapsHoldAlways: marks and equity are fixed during the run, every traded symbol has a mark, a fill is booked before the next check, and reduce-only fills are against their position; the correlated cap holds only for the traded symbol's cluster at the moment of its check.
- RiskRuns.TrippedBookOnlyShrinks: that a reduce-only fill faces its position is the venue's doing; the gate looks at the flag and the simulated venue ignores it.
- RiskBatches.JointCapsIff: marks and equity are fixed while the event's orders fill, and every ordered symbol has a positive mark; the correlated cap is not part of it.
- RiskRuns.RateNeverExceeded: event times do not go back.
- Schedulers.RateScheduler.constructor: every category is configured, with a positive rate; `canSend` is `waitMs == 0` without back-off and is not modelled apart.
- Bars.BarAggregator.CloseExpired: bars are values held in the map, so handing out the live object (`pending`) is not modelled; the order in which one timer close emits several symbols is left open.
- AuditChains.SameHeadSameChain: SHA-256 is a function that is a parameter; that it does not collide is asked only on the texts the chains at hand hash, its hexadecimal output holds no bracket, and it is not the genesis value of 64 zeros there.
- CanonicalText.Canonicalise: numbers are integers written in plain digits and text holds no unpaired surrogates; JSON exponent forms do not arise for sequence numbers and millisecond times.
- Texts of reject and log reasons that quote numbers, the decision log's side column, transition callbacks, latency records and counters of messages are not modelled.
- Market events: exchange and receive timestamps, kline end times, topics, reconnect timers and schema handling are not modelled; a frame arrives already parsed or malformed.
- `FileJournal`: the journal is its list of entries; partial lines and file errors are not modelled.
- `liveBroker.ts`: only its first-in first-out queue of account events and the exchange ids it learns from them.
- The other indicators and features (`Atr`, `RealisedVolatility`, `stdev`, RSI, ADX) and the intel heuristics: transcendental, heuristic, or seeded differently from their batch forms.
- `planRepeg`, `checkSlippage`, `slippageBps`, `bookImbalance`, `roundQtyDown`, `roundToTick`, `protectivePrices`, `intervalFromTopic`: one-branch members that would only add easy properties.
- REST and WebSocket transport, signing, encryption, redaction, HTTP routes, the web UI, the database, worker threads and the kill-switch process.
- Interleavings inside an awaited call: each handler is one step.
