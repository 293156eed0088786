# Prime Jennie Runtime: a verified model

This project models the trading core of Prime Jennie Runtime in Dafny and proves what its parts promise,
each on its own and together. `dafny verify dfyconfig.toml` checks everything.

What is modelled, by file:

- **Exit engine.** `ExitModel` is the specification of the ten exit rules and of first-match evaluation;
  `ExitEvaluator` is the evaluator as it runs, one mutable position object updated in place, each check proved
  against its function. `ExitProperties` holds the theorems over whole tick runs.
- **Backtest.** `Backtest` specifies the simulator (two-pass entry, four ticks a bar, partial sales, forced close),
  `BacktestRunner` is the loop over its running variables, `BacktestProperties` proves conservation of shares and
  money, absence of look-ahead and bounded holding, `BacktestFills` what is traded, when and at which price.
- **Live exits.** `Orders` is what a broker may do with an order and what is believed of it; `ExitExecutor` drives
  decisions against such a broker; `ExitRun` proves what holds over whole live runs of ticks and forced liquidations;
  `Restart` cuts such runs by restarts; `LiveAndSimulated` compares them with the simulator.
- **Entries.** `PendingEntry` is the queue with its two maps, `EntryProtocol` the interleaving of sheet consumer, tick
  loop and purge loop as a state machine whose steps lie between two awaits, `EntryExecutor` the order itself,
  `PositionTracker` the store of open positions, `Calendar` the count of days held.
- **Risk throttle.** `RiskThrottle` is the five-level throttle with its timing theorems.
- **Subscriptions.** `GatewaySubscriber` is the quota allocator and the reconciliation with the gateway.
- **Incremental forms.** `BarEngine` (ticks to bars), `Indicators` (rolling average, Wilder RSI, death cross),
  `Scheduler` (reload of jobs) and `Ledger` (integer positions, outcomes), each against the plain definition.
- **Delivery and pacing.** `StreamConsumer` and `EventListener` are the two consumer-group protocols with crashes,
  `MinuteChart` is the adaptive request loop.

Conventions: prices and returns are reals; timestamps are integers of local time (seconds; a day is 86400); clocks,
broker and gateway answers, database outcomes, control flags and crashes are inputs that may take any value. Python's
`int()` truncates and `//` floors, SQL integer division truncates; each is written out where it matters.

## Where the code differs from what is said about it

- The README of the system (README.md:380-393) puts break-even ahead of the stop loss and the time stop. An active
  break-even rule always returns a decision (prime_jennie_runtime/fast_loop/exit_evaluator.py:245), so every rule behind it is
  silent for good: `ExitProperties.ActiveBreakevenMasks`, `ExitProperties.LatchedBreakevenFirst`,
  `ExitProperties.DueTickMayHold`. `ExitProperties.DueTickSells` says exactly when a due time stop sells.
- The simulator sells a fraction of the original quantity, the live executor a fraction of what is left, so the two can
  hold different quantities on the same ticks: `LiveAndSimulated.TwoLevelsDiffer`. Live never holds less
  (`LiveAndSimulated.LiveNeverHoldsLess`); `LiveAndSimulated.SameSale` is the exact condition for one sale, and
  `LiveAndSimulated.SameHoldingsIff` lifts it to whole runs; `LiveAndSimulated.SameHoldings` gives sheets on which the two
  never differ.
- A scale-out level is consumed when it is decided, not when its sale succeeds: `ExitRun.LiveRunLevels`.
- A blocked, simulated or raised sale is not saved, so a restart takes the position back to the last saved state and can
  decide a level a second time: `Restart.RestartRewinds`, `Restart.RestartRepeatsLevels`, `Restart.RestartRepeatsLevel`.
- A buy order that raises is not counted as a failed outcome: `EntryProtocol.RaisedOrdersNotCounted`.
- Bought shares are tracked only if the last word on the order was heard: `EntryExecutor.TracksWhatWasFilled`,
  `EntryExecutor.FillsLost`. The same holds for sales; an exit order whose first status shows no shares is not even
  cancelled (prime_jennie_runtime/fast_loop/exit_executor.py:252-259): `ExitRun.TrackedAgainstReal`,
  `ExitRun.SoldSharesOrderedAgain`.
- The event listener promises reprocessing on the next polling cycle and a dead-letter stream after five deliveries
  (prime_jennie_runtime/coordinator/listener.py:10-20). It reads only new messages, so neither happens unless someone
  else claims the message: `EventListener.NeverRetried`, `EventListener.FailedStaysPending`.
- The typed consumer's at-most-once promise fails when one consumer claims what another one has fetched, and holds as long
  as none does: `StreamConsumer.CarelessClaimRepeats`, `StreamConsumer.AtMostOnceForTwo`.
- A restart recovers pending messages only while they are still in the stream, which publishing trims:
  `StreamConsumer.TrimmingLosesMessage`.
- A failed delete of a removed sheet is only logged, and a restart can then bring back two pending sheets of one ticker:
  `EntryProtocol.RemovedComesBack`. They are still never held together: `EntryProtocol.EntrySafety`.
- The cap of twenty codes can be passed when the gateway's status cannot be read, when an unsubscribe request is refused,
  and when the sheet consumer subscribes the code of a new sheet (prime_jennie_runtime/fast_loop/consumer.py:164-169)
  before a reconciliation ends: `GatewaySubscriber.CapHoldsIff` gives the exact condition,
  `GatewaySubscriber.BlindSubscribeExceeds`, `GatewaySubscriber.RefusedUnsubscribeHappens` and
  `GatewaySubscriber.NewSheetExceeds` the inputs. The next undisturbed call repairs it: `GatewaySubscriber.NextCallRestores`.
- For fewer than eight targets a back-off makes the minute-chart loop faster, not slower:
  `MinuteChart.BackoffBelowBase`, `MinuteChart.FewTargets`.
- The live time stop counts holidays as business days, the simulator counts bars: `Calendar.LiveCountsNoFewer`.

## Model

| member | source | states |
|---|---|---|
| `ExitEvaluator.Evaluate` | prime_jennie_runtime/fast_loop/exit_evaluator.py:51-85 | One evaluation of a sheet on a tick: the decision and every field of the mutated position are those of the specification function, whose meaning the ExitProperties rows give |
| `ExitEvaluator.EvaluateRule` | prime_jennie_runtime/fast_loop/exit_evaluator.py:88-120 | Dispatch by rule type leaves exactly the state and decision of that rule |
| `ExitEvaluator.CheckFixedSl` | prime_jennie_runtime/fast_loop/exit_evaluator.py:149-169 | Stop loss at the entry threshold or at the raised stop when that is higher |
| `ExitEvaluator.CheckTrailingTp` | prime_jennie_runtime/fast_loop/exit_evaluator.py:190-214 | Trailing latch and stop below the watermark, updated in place |
| `ExitEvaluator.CheckBreakeven` | prime_jennie_runtime/fast_loop/exit_evaluator.py:217-253 | Break-even latch, stop raised once, sale at or below the floor |
| `ExitEvaluator.CheckScaleOut` | prime_jennie_runtime/fast_loop/exit_evaluator.py:256-280 | Lowest level not yet executed only; consumed in place when it fires |
| `ExitEvaluator.CheckOverextension` | prime_jennie_runtime/fast_loop/exit_evaluator.py:319-337 | Fires once, only with an RSI reading |
| `ExitEvaluator.CheckProfitFloor` | prime_jennie_runtime/fast_loop/exit_evaluator.py:340-363 | Profit-floor latch on the peak return, then the floor |
| `ExitEvaluator.CheckDeathCrossExit` | prime_jennie_runtime/fast_loop/exit_evaluator.py:381-426 | Once a day, on a death cross at a loss |
| `ExitEvaluator.PositionState.UpdateHigh` | prime_jennie_runtime/fast_loop/domain.py:53-58 | New highs raise the watermark and, for a positive entry price, the peak return |
| `ExitEvaluator.PositionState.CurrentReturnPct` | prime_jennie_runtime/fast_loop/domain.py:60-64 | Return on the entry price; zero for an entry price that is not positive |
| `ExitProperties.RuleMeaning` | prime_jennie_runtime/fast_loop/exit_evaluator.py:149-426 | Each of the ten rules decides exactly when its condition holds of prices, with no computed return in it, for every position whose peak return belongs to its watermark |
| `ExitProperties.UpdateHighConsistent` | prime_jennie_runtime/fast_loop/domain.py:53-58 | From the live start, or once a positive price was seen, the peak return belongs to the watermark |
| `ExitProperties.ReturnMeaning` | prime_jennie_runtime/fast_loop/domain.py:60-64 | The return times the entry price is the gain; it is zero for an entry price that is not positive |
| `ExitProperties.FirstMatch` | prime_jennie_runtime/fast_loop/exit_evaluator.py:51-85 | Evaluation decides exactly when some rule does, and its result is that of the first such rule in the state the earlier rules left |
| `ExitProperties.LaterRulesIrrelevant` | prime_jennie_runtime/fast_loop/exit_evaluator.py:51-85 | Rules behind a deciding one cannot influence decision or state |
| `ExitProperties.RunHistory` | prime_jennie_runtime/fast_loop/exit_evaluator.py:149-280 | Over any tick run the watermark is the running maximum, latches never reset, the raised stop is set at most once and consumed levels stay consumed |
| `ExitProperties.StopNeverFalls` | prime_jennie_runtime/fast_loop/exit_evaluator.py:149-253 | Over any tick run the effective stop never falls, and the first latched price is final |
| `ExitProperties.RunLevels` | prime_jennie_runtime/fast_loop/exit_evaluator.py:256-280 | The executed levels are always a prefix 0..k-1 and are reported in that order, so each fires at most once and none is skipped |
| `ExitProperties.RunPrefix` | prime_jennie_runtime/fast_loop/exit_evaluator.py:51-85 | Each decision of a run depends only on the ticks up to its own |
| `ExitProperties.RunAppend` | prime_jennie_runtime/fast_loop/exit_evaluator.py:51-85 | A run can be cut anywhere and resumed from the state reached |
| `ExitProperties.EvaluateFrame` | prime_jennie_runtime/fast_loop/exit_evaluator.py:51-85 | Quantity held and failure count never influence a decision |
| `ExitProperties.LiveAndSimulatedStartAgree` | prime_jennie_runtime/fast_loop/entry_executor.py:226-233 | The live start (watermark at the entry price) and the simulator start (watermark 0) give identical decisions, metadata included, on every sheet that satisfies the schema and every tick sequence |
| `ExitProperties.RunAlike` | prime_jennie_runtime/fast_loop/exit_evaluator.py:51-85 | Two positions that differ only in a watermark at or below the entry price, and its peak, decide alike for ever |
| `ExitProperties.ActiveBreakevenMasks` | prime_jennie_runtime/fast_loop/exit_evaluator.py:217-253 | Once a break-even rule is latched every evaluation decides something and no rule behind it matters again, for good |
| `ExitProperties.LatchedBreakevenFirst` | prime_jennie_runtime/fast_loop/exit_evaluator.py:217-253 | With break-even first and latched, a tick sells if and only if its price is at or below the latched floor; stop loss and time stop play no part |
| `ExitProperties.OnlyBreakevenHolds` | prime_jennie_runtime/fast_loop/exit_evaluator.py:217-253 | Break-even is the only rule that decides without selling, and only above its floor |
| `ExitProperties.DueTickSells` | prime_jennie_runtime/fast_loop/exit_evaluator.py:283-316 | On a due tick something is decided, and it sells unless, and only unless, some break-even rule in front of the time stop is latched or reached by the price, the price is above its floor (the latched one, or the one it would latch) and no rule in front of it fires; every part of the condition is read off the tick and the position |
| `ExitProperties.FiresMeaning` | prime_jennie_runtime/fast_loop/exit_evaluator.py:88-426 | Each of the ten rules decides exactly when its condition holds of position, observation and the computed returns |
| `ExitProperties.EvaluationMeaning` | prime_jennie_runtime/fast_loop/exit_evaluator.py:51-426 | The whole of one evaluation for every sheet, position and tick: nothing is decided exactly when no rule fires; otherwise the first rule to fire fixes reason, portion, stop price, metadata and every changed field, for a scale-out those of the lowest level not executed |
| `ExitProperties.SomeFirst` | prime_jennie_runtime/fast_loop/exit_evaluator.py:51-85 | Some rule is the first to fire, unless none does |
| `ExitProperties.CutoffMeaning` | prime_jennie_runtime/fast_loop/exit_evaluator.py:283-316 | The cutoff of time stops is 15:20 of every day |
| `ExitProperties.BreakevenFirst` | prime_jennie_runtime/fast_loop/exit_evaluator.py:217-253 | When no earlier rule fires a break-even rule decides exactly when latched or reached, and then holds exactly above its floor |
| `ExitProperties.DueTickMayHold` | prime_jennie_runtime/fast_loop/exit_evaluator.py:217-253 | Concrete counterexample: behind a latched break-even rule a due time stop does not sell |
| `PositionTracker.DecodeEncode` | prime_jennie_runtime/fast_loop/position_tracker.py:123-141 | The sorted list of executed levels in the backup record gives back the set it was made from, and the other fields are carried along |
| `PositionTracker.RestartIsTransparent` | prime_jennie_runtime/fast_loop/position_tracker.py:87-141 | A backup that was made of the state reached by any ticks brings back the decisions that state would have taken; whether one was made of it is the subject of the Restart rows |
| `PositionTracker.Tracker.Register` | prime_jennie_runtime/fast_loop/position_tracker.py:66-70 | State, backup and index after registering; the index stays the exact inverse if and only if the sheet id was not tracked under another ticker |
| `PositionTracker.Tracker.Persist` | prime_jennie_runtime/fast_loop/position_tracker.py:72-76 | The backup of a tracked sheet becomes its current state; nothing else changes |
| `PositionTracker.Tracker.Close` | prime_jennie_runtime/fast_loop/position_tracker.py:78-85 | State, index entry and backup disappear together; the index stays exact without empty entries |
| `PositionTracker.Tracker.SheetIdsFor` | prime_jennie_runtime/fast_loop/position_tracker.py:55-56 | Exactly the tracked sheets of the ticker |
| `BacktestRunner.SimulateSheet` | prime_jennie_runtime/backtest/runner.py:160-374 | The simulation loop (both entry passes, bars by four ticks, partial sales, forced close, report) computes the specification function that the BacktestProperties rows are about |
| `BacktestFills.SimulationTrades` | prime_jennie_runtime/backtest/runner.py:146-374 | A filled simulation trades its entry (market at the open, limit at the lower of limit and open, raised by the slippage of the estimated quantity, with the buy fee), then sales at one of the four quoted moments of later bars, lowered by the slippage, with the sell fee, and last perhaps a forced sale at the last close |
| `BacktestFills.SimulationReturn` | prime_jennie_runtime/backtest/runner.py:354-357 | The return times the entry cost is a hundred times the net profit |
| `BacktestFills.TickTrade` | prime_jennie_runtime/backtest/runner.py:275-323 | A tick books one sale exactly when shares are left and its evaluation decides to sell: that decision's reason and metadata, and the whole shares of its portion of the bought quantity |
| `BacktestFills.TickSees` | prime_jennie_runtime/backtest/runner.py:271-288 | What a tick's evaluation sees: its own price and time, the bar count, and at the close only the daily closes up to its own |
| `BacktestFills.TicksSeeNoMore` | prime_jennie_runtime/backtest/runner.py:271-323 | Within a day the first tick depends on the open only, the second also on the high, the third also on the low |
| `BacktestFills.SlippageBand` | prime_jennie_runtime/backtest/runner.py:83-104 | Slippage lies between its base and base * (1 + multiplier * clip), and is the base without volume slippage |
| `BacktestFills.StartMeaning` | prime_jennie_runtime/backtest/runner.py:242-264 | The simulated position starts as bought, with the closes up to the entry bar |
| `BacktestFills.ConditionMeaning` | prime_jennie_runtime/backtest/runner.py:62-80 | Price conditions hold exactly when some price of the day meets them; the volume condition compares with the mean of the last twenty volumes |
| `BacktestRunner.HoldAndSell` | prime_jennie_runtime/backtest/runner.py:263-352 | Bars behind the entry bar tick by tick, with closes, quantity and money carried along, then the forced sale of what is left |
| `BacktestRunner.RunDay` | prime_jennie_runtime/backtest/runner.py:271-321 | The ticks of one bar; nothing happens once everything is sold |
| `BacktestRunner.EntryConditionsOk` | prime_jennie_runtime/backtest/runner.py:62-80 | Entry conditions that daily bars can decide |
| `BacktestRunner.AttemptEntry` | prime_jennie_runtime/backtest/runner.py:107-143 | One attempt on one bar: conditions, then market or limit fill with slippage |
| `BacktestRunner.OpenPosition` | prime_jennie_runtime/backtest/runner.py:194-242 | The two passes, each with its failures |
| `BacktestProperties.SimulationConserves` | prime_jennie_runtime/backtest/runner.py:194-374 | A filled simulation starts with one buy, every sale is at least one share, sales add up to the bought quantity, and net profit equals sale proceeds minus entry cost minus all fees |
| `BacktestProperties.NoLookAhead` | prime_jennie_runtime/backtest/runner.py:263-327 | Two bar sequences equal up to bar j give the same trades up to the close of bar j, the forced sale at the end of the data aside |
| `BacktestProperties.SecondPassNotCheaper` | prime_jennie_runtime/backtest/runner.py:83-143 | With non-negative slippage settings the volume-aware second pass never fills below the first |
| `BacktestProperties.EntryWithinCapital` | prime_jennie_runtime/backtest/runner.py:194-242 | Entry price times quantity is at most the capital, and one share more would exceed it |
| `BacktestProperties.BoundedHolding` | prime_jennie_runtime/backtest/runner.py:271-327 | Without a break-even rule in front of the time stop a position on ascending bars is fully sold by the close of bar entry + v + L (v the holding bound, L the number of scale-out levels) when that many bars exist, and not by the forced sale |
| `BacktestProperties.AfterBarsLocal` | prime_jennie_runtime/backtest/runner.py:263-327 | The state after n bars depends on those n bars only |
| `BacktestProperties.LaterBarsTradeLater` | prime_jennie_runtime/backtest/runner.py:263-327 | Trades of bars behind bar n are later than every tick of bar n |
| `ExitExecutor.Executor.Execute` | prime_jennie_runtime/fast_loop/exit_executor.py:144-300 | One decision against any control flags and broker answer: position, tracker and backup become exactly what the value-level effect says, and other sheets are untouched |
| `ExitExecutor.Executor.RecordExitFailure` | prime_jennie_runtime/fast_loop/exit_executor.py:83-131 | A failure is counted and saved, and at the limit the sheet is closed |
| `ExitExecutor.Executor.MoveStop` | prime_jennie_runtime/fast_loop/exit_executor.py:155-165 | A decision that does not sell moves the stop and places no order |
| `ExitExecutor.Executor.SubtractFill` | prime_jennie_runtime/fast_loop/exit_executor.py:283-300 | A fill is subtracted, the failure count reset, and the sheet closed exactly when nothing is left |
| `ExitRun.LiveRunConserves` | prime_jennie_runtime/fast_loop/exit_executor.py:83-300 | Over ticks and forced liquidations, against any broker whose reported fills never exceed orders: tracked quantity is entry quantity minus reported fills, never negative; the failure count is the current streak; the sheet is tracked exactly while shares are left and the streak is below the limit |
| `ExitExecutor.OutcomeMeaning` | prime_jennie_runtime/fast_loop/exit_executor.py:144-300 | Each outcome of an execution occurs exactly in its case, over every decision, control and reply; a sale carries quantity and price of one status |
| `ExitExecutor.EffectMeaning` | prime_jennie_runtime/fast_loop/exit_executor.py:83-300 | What an execution changes: quantity, failure count, raised stop and nothing else; and exactly when the sheet is dropped |
| `ExitExecutor.LiveSellQuantityIs` | prime_jennie_runtime/fast_loop/exit_executor.py:217-220 | A live order is the whole shares of the portion of what is left, one at least |
| `ExitRun.LiquidationOrders` | prime_jennie_runtime/fast_loop/tick_loop.py:179-205 | A forced liquidation orders everything tracked, unless stopped or simulated |
| `ExitRun.TrackedAgainstReal` | prime_jennie_runtime/fast_loop/exit_executor.py:217-300 | Against any truthful broker, over every run: the tracked quantity is never below the shares really held, and equals them if and only if the last word on every order that went out was heard (which fails for a raised or refused order that fills, an empty first status, an unread or early status after the cancel) |
| `ExitRun.SoldSharesOrderedAgain` | prime_jennie_runtime/fast_loop/exit_executor.py:246-259 | Concrete run: an order whose first status shows no shares is sold out later, and the next tick orders the ten sold shares again |
| `ExitRun.LiveRunLevels` | prime_jennie_runtime/fast_loop/exit_evaluator.py:256-280 | Over any live run, for arbitrary flags and answers, the decided levels are the next ones in order and exactly they are spent, so none is decided twice, however its sale went |
| `Restart.BackupFresh` | prime_jennie_runtime/fast_loop/tick_loop.py:222-273 | After an event that keeps the sheet tracked the backup equals memory, unless the sale was blocked, simulated or raised, which leaves the backup as it was; afterwards no backup is left |
| `Restart.RestartRewinds` | prime_jennie_runtime/fast_loop/exit_executor.py:167-215 | In every live run a restart leaves exactly the state after the last event that saved |
| `Restart.RestartResumes` | prime_jennie_runtime/fast_loop/position_tracker.py:91-118 | Decisions, outcomes and state after a restart are those of a run without the events since the last saved one |
| `Restart.RestartTransparent` | prime_jennie_runtime/fast_loop/position_tracker.py:91-118 | A restart changes nothing when the last event saved; memory is unchanged if and only if the events since the last saved one left the position as it was; and then every later decision and outcome is unchanged |
| `Restart.RestartRepeatsLevels` | prime_jennie_runtime/fast_loop/exit_executor.py:167-215 | A level decided before a restart is decided again after it if and only if some level was decided since the last saved event and any level is decided later; the first one repeated is the first unsaved one |
| `Restart.RestartRepeatsLevel` | prime_jennie_runtime/fast_loop/exit_executor.py:167-181 | Concrete input: a level decided while everything is stopped is decided again after a restart, and was silent without it |
| `ExitRun.LevelNotRetried` | prime_jennie_runtime/fast_loop/exit_evaluator.py:256-280 | A spent level stays spent and silent for the rest of any live run |
| `LiveAndSimulated.SellComparison` | prime_jennie_runtime/fast_loop/exit_executor.py:217-220 | The live order, a fraction of what is left, never leaves less than the simulator, which sells the fraction of the original |
| `LiveAndSimulated.SameSale` | prime_jennie_runtime/fast_loop/exit_executor.py:217-220 | From equal holdings both sell the same exactly when the sale takes all, one share is left, or the fraction of the original comes to no more than the fraction of the rest, one share at least |
| `LiveAndSimulated.LiveNeverHoldsLess` | prime_jennie_runtime/fast_loop/exit_executor.py:217-300 | Same sheet, same ticks, every order filled: while the simulator holds shares the live side is tracked and decides the same, and live never holds fewer shares |
| `LiveAndSimulated.SameHoldings` | prime_jennie_runtime/backtest/runner.py:271-321 | When every level behind the first of each scale-out rule sells everything, live and simulator hold exactly the same after every tick sequence |
| `LiveAndSimulated.SameHoldingsIff` | prime_jennie_runtime/backtest/runner.py:271-321 | For every sheet and tick sequence the two hold the same after every tick if and only if each sale of the simulator meets the condition of SameSale |
| `LiveAndSimulated.OneLevelSuffices` | prime_jennie_runtime/fast_loop/exit_evaluator.py:256-280 | Sheets whose scale-out rules have one level at most meet that condition |
| `LiveAndSimulated.TwoLevelsDiffer` | prime_jennie_runtime/fast_loop/exit_executor.py:217-220 | Concrete run: two half-sales of a hundred shares leave twenty-five live and none in the simulator |
| `LiveAndSimulated.SimTickIsTickStep` | prime_jennie_runtime/backtest/runner.py:271-321 | The comparison uses the simulator's own tick |
| `RiskThrottle.IntradayRiskThrottle.UpdateLevel` | prime_jennie_runtime/fast_loop/risk_throttle.py:172-230 | One update on the object, its cached level and the two stored keys, against the pure step |
| `RiskThrottle.IntradayRiskThrottle.ApplyRecoveryLogic` | prime_jennie_runtime/fast_loop/risk_throttle.py:235-289 | Worsening at once; improvement timed by the stored recovery start, damaged values included |
| `RiskThrottle.IntradayRiskThrottle.LoadState` | prime_jennie_runtime/fast_loop/risk_throttle.py:157-165 | Level and multiplier are restored from a valid stored level |
| `RiskThrottle.RawLevelMeaning` | prime_jennie_runtime/fast_loop/risk_throttle.py:81-117 | Which severity the nested thresholds and the SOX floor reach, as one condition per severity, both directions; the multiplier is that of the market level |
| `RiskThrottle.RawLevelMonotone` | prime_jennie_runtime/fast_loop/risk_throttle.py:81-117 | Worse readings anywhere never give a milder raw level |
| `RiskThrottle.UpdateMeaning` | prime_jennie_runtime/fast_loop/risk_throttle.py:172-289 | Never milder than the readings; readings as bad or worse take effect at once; milder ones move at most one step; the multiplier is that of the level |
| `RiskThrottle.RecoveryMeaning` | prime_jennie_runtime/fast_loop/risk_throttle.py:235-289 | For better readings: one step down exactly when the timer has run 1800, 1200, 600 or 300 seconds for the level, and what the timer is afterwards |
| `RiskThrottle.MultiplierMeaning` | prime_jennie_runtime/fast_loop/risk_throttle.py:172-230 | The multiplier after an update is 1, 0.8, 0.6, 0.3 or 0 by level |
| `RiskThrottle.RestartTransparent` | prime_jennie_runtime/fast_loop/risk_throttle.py:157-230 | An object restarted from the stored keys behaves like the one it replaces |
| `RiskThrottle.TimerMeaning` | prime_jennie_runtime/fast_loop/risk_throttle.py:235-289 | A running timer was set at an earlier update since when readings were strictly better at every update and the level did not change |
| `RiskThrottle.RecoveryIsEarned` | prime_jennie_runtime/fast_loop/risk_throttle.py:235-289 | An improvement is preceded, by at least the level's recovery time, by an update since which every reading was strictly better |
| `RiskThrottle.RecoveryTakesTime` | prime_jennie_runtime/fast_loop/risk_throttle.py:235-289 | From an update after which no timer runs, reaching a milder level takes the recovery times of all levels in between; Critical to Normal at least 3900 seconds |
| `RiskThrottle.SteadyRecovery` | prime_jennie_runtime/fast_loop/risk_throttle.py:235-289 | Where every update of a steady calm run stands |
| `RiskThrottle.FourteenUpdates` | prime_jennie_runtime/fast_loop/risk_throttle.py:235-289 | Under steady calm every 300 seconds, Critical reaches Normal at the fourteenth update and not before |
| `PendingEntry.PendingEntryQueue.Add` | prime_jennie_runtime/fast_loop/pending_entry.py:93-108 | A new sheet enters map and index; a queued id is left alone; the index stays the exact inverse |
| `PendingEntry.PendingEntryQueue.Remove` | prime_jennie_runtime/fast_loop/pending_entry.py:110-126 | Sheet and index entry disappear together, empty index entries are dropped |
| `PendingEntry.PendingEntryQueue.PurgeExpired` | prime_jennie_runtime/fast_loop/pending_entry.py:128-137 | What is left is exactly what is still valid; the number removed is returned |
| `PendingEntry.PendingEntryQueue.ContainsTicker` | prime_jennie_runtime/fast_loop/pending_entry.py:76-77 | True exactly when some queued sheet has the ticker |
| `PendingEntry.AddExact` | prime_jennie_runtime/fast_loop/pending_entry.py:93-108 | Adding keeps the index the exact inverse, and one sheet per ticker if there was none for it |
| `PendingEntry.RemoveExact` | prime_jennie_runtime/fast_loop/pending_entry.py:110-126 | Removing keeps the index the exact inverse and one sheet per ticker |
| `EntryProtocol.StepKeepsInv` | prime_jennie_runtime/fast_loop/tick_loop.py:295-398 | Every atomic step of consumer, tick loop and purge loop, and a holding closed at any moment, keeps the joint invariant, and one pending sheet, and one holding, per ticker |
| `EntryProtocol.QueueChanges` | prime_jennie_runtime/fast_loop/tick_loop.py:295-398 | Over every action: a queued sheet leaves if and only if it is looked at while expired or held, its fill is reported, its order was simulated, its failed outcome reaches the limit, or it is next in the purge; it enters only with a cooldown answer without a recent stop loss |
| `EntryProtocol.QueuedIff` | prime_jennie_runtime/fast_loop/tick_loop.py:295-398 | Over every run: a sheet is queued if and only if it came and no reason to leave has come up since |
| `EntryProtocol.HoldingsChange` | prime_jennie_runtime/fast_loop/tick_loop.py:362-379 | Holdings change only by a filled order and by a closed holding |
| `EntryProtocol.RejectsChange` | prime_jennie_runtime/fast_loop/tick_loop.py:380-398 | Reject counts change only by a failed outcome and when a sheet is forgotten |
| `EntryProtocol.NothingButTheTick` | prime_jennie_runtime/fast_loop/tick_loop.py:313-369 | A sheet whose conditions are not met, that is not affordable, or whose order raised leaves queue, indexes and counts alone |
| `EntryProtocol.TickChanges` | prime_jennie_runtime/fast_loop/tick_loop.py:305-370 | A sheet is sized only after its conditions are met and while its ticker is not held, ordered only in a positive quantity, and the other sheets of the tick are kept in order |
| `EntryProtocol.PurgeAndReceive` | prime_jennie_runtime/fast_loop/pending_entry.py:128-137 | A purge takes exactly the expired sheets; a received sheet waits for the cooldown answer unless its ticker is held or pending |
| `PendingEntry.PendingEntryQueue.LoadFromRedis` | prime_jennie_runtime/fast_loop/pending_entry.py:141-167 | Loading restores exactly the stored sheets, with an exact index |
| `EntryProtocol.RestoredOk` | prime_jennie_runtime/fast_loop/pending_entry.py:141-167 | What a start loads satisfies the invariant, and has one pending sheet per ticker if and only if the store has, and one holding per ticker likewise |
| `EntryProtocol.StoredWithin` | prime_jennie_runtime/fast_loop/pending_entry.py:104-126 | If every delete so far was carried out, the store holds queued sheets only, whatever was saved |
| `EntryProtocol.RestartKeepsOnePerTicker` | prime_jennie_runtime/fast_loop/pending_entry.py:110-167 | Then a restart at any moment of any run brings back one sheet per ticker |
| `EntryProtocol.RemovedComesBack` | prime_jennie_runtime/fast_loop/pending_entry.py:122-126 | Concrete run: one failed delete, and after a restart an expired sheet is queued beside its successor of the same ticker |
| `EntryProtocol.EntrySafety` | prime_jennie_runtime/fast_loop/consumer.py:77-129 | From every state that satisfies the invariant, a restored one included, under every interleaving at await points: both indexes stay exact inverses, no queued sheet is at the limit of failed outcomes, and what was one per ticker at the start, pending or held, stays so |
| `EntryProtocol.NoSecondBuy` | prime_jennie_runtime/fast_loop/tick_loop.py:305-370 | While a buy is being placed no sheet of that ticker is held, even if a restart has brought back two sheets of it |
| `EntryProtocol.FailureStaysOrRemoves` | prime_jennie_runtime/fast_loop/tick_loop.py:380-398 | A failed outcome either counts one more failure or removes the sheet in the same step, the latter exactly at the limit |
| `EntryProtocol.FewFailuresWhileQueued` | prime_jennie_runtime/fast_loop/tick_loop.py:380-398 | Over every run a sheet has fewer failed outcomes than the limit for as long as it stays queued, so it leaves after at most that many |
| `EntryProtocol.RaisedOrdersNotCounted` | prime_jennie_runtime/fast_loop/tick_loop.py:361-369 | From the empty system, for every n, a run in which n orders for one sheet raise and it is still queued without a reject or failure recorded |
| `EntryExecutor.Executor.Execute` | prime_jennie_runtime/fast_loop/entry_executor.py:85-262 | Exactly the filled shares are tracked, as a fresh position whose watermark is its entry price; nothing is tracked on a refused, raised, unfilled, invalid or simulated order; the rest of an incomplete order is always asked to be cancelled |
| `Orders.BelievedMeaning` | prime_jennie_runtime/fast_loop/entry_executor.py:171-222 | What is believed is one status as a whole: the second one exactly when the first shows some but not all shares and the second can be read and shows any |
| `Orders.BelievesNoMore` | prime_jennie_runtime/fast_loop/entry_executor.py:144-222 | For every truthful reply an executor believes in no more shares than were filled, and in all of them exactly when nothing was filled or a first status with shares was followed up to the last word |
| `EntryExecutor.TracksWhatWasFilled` | prime_jennie_runtime/fast_loop/entry_executor.py:144-222 | For every truthful reply, raised and refused orders and unreadable second statuses included: never more shares are tracked than bought, and exactly the bought ones if and only if no order went out or the last word on it was heard |
| `EntryExecutor.FillsLost` | prime_jennie_runtime/fast_loop/kis_client.py:73-82 | Two concrete replies that lose shares: a fill between an empty first status and its cancel, and one before a second status that cannot be read |
| `EntryExecutor.Aligned` | prime_jennie_runtime/fast_loop/entry_executor.py:381-395 | The aligned price is the highest multiple of the price unit that is not above the price |
| `EntryExecutor.AlignedTwice` | prime_jennie_runtime/fast_loop/entry_executor.py:381-395 | Aligning never changes the price band, so the result is valid in its own band and aligning again changes nothing |
| `EntryExecutor.NeverBidsAbove` | prime_jennie_runtime/fast_loop/entry_executor.py:356-378 | A limit order has a positive quantity and never bids above the sheet's price |
| `Calendar.BusinessDaysSince` | prime_jennie_runtime/fast_loop/tick_loop.py:473-490 | The day-by-day loop counts the business days after entry up to now |
| `Calendar.WeekMeaning` | prime_jennie_runtime/fast_loop/tick_loop.py:473-490 | All days of the week but Saturday and Sunday are business days |
| `Calendar.WholeWeeks` | prime_jennie_runtime/fast_loop/tick_loop.py:473-490 | Closed form: five business days per whole week whatever the day of entry |
| `Calendar.LiveCountsNoFewer` | prime_jennie_runtime/fast_loop/tick_loop.py:222-230 | For any sequence of trading days the live count is never below the simulator's bar count, and equal exactly while no business day is missing from the bars |
| `Indicators.CalculateSma` | prime_jennie_runtime/fast_loop/indicators.py:12-25 | The rolling-sum average equals the direct window mean at every index, absent before the first full window |
| `Indicators.CheckDeathCross` | prime_jennie_runtime/fast_loop/indicators.py:84-105 | The signal computed from two averages is the cross of the direct window means with the gap |
| `Indicators.DeathCrossLocal` | prime_jennie_runtime/fast_loop/indicators.py:84-105 | The signal depends only on the last long + 1 closes |
| `Indicators.DeathCrossNotTwice` | prime_jennie_runtime/fast_loop/indicators.py:84-105 | For positive prices it is never true on two consecutive closes |
| `Indicators.DeathCrossFromFlat` | prime_jennie_runtime/fast_loop/indicators.py:84-105 | Concrete closes: equal averages on the close before count as not yet below |
| `Indicators.CalculateRsi` | prime_jennie_runtime/fast_loop/indicators.py:40-62 | First RSI routine computes Wilder's RSI; absent for too few closes |
| `BarEngine.ComputeRsi` | prime_jennie_runtime/fast_loop/bar_engine.py:223-246 | Second RSI routine, written differently, returns the same on every input |
| `Indicators.WilderIsWeighted` | prime_jennie_runtime/fast_loop/indicators.py:40-62 | Wilder's average is the sum of the values, each one part in the period when it comes in, shrinking by the same factor with every later one |
| `Indicators.RsiMeaning` | prime_jennie_runtime/fast_loop/indicators.py:40-62 | The reading, from the closes alone: the share of the averaged rises in rises and falls, in per cent, and one hundred without falls |
| `Indicators.RsiInRange` | prime_jennie_runtime/fast_loop/indicators.py:40-62 | The result lies in [0, 100] |
| `Indicators.RsiScaleInvariant` | prime_jennie_runtime/fast_loop/indicators.py:40-62 | Positive scaling of the closes changes nothing |
| `Indicators.RsiMirror` | prime_jennie_runtime/fast_loop/indicators.py:40-62 | Negating the closes gives 100 minus the RSI when both averages are non-zero |
| `BarEngine.BarEngine.Update` | prime_jennie_runtime/fast_loop/bar_engine.py:79-144 | After every tick all three maps are what the grouping definition makes of the ticks seen; the completed bar is returned exactly when the slot changes |
| `BarEngine.BarEngine.RollBar` | prime_jennie_runtime/fast_loop/bar_engine.py:106-137 | Extend the building bar, or complete it, trim the history and start the next |
| `BarEngine.BarEngine.AccumulateIntraday` | prime_jennie_runtime/fast_loop/bar_engine.py:139-144 | Running volume of the day, reset on a new date |
| `BarEngine.BarEngine.IntradayCumVolume` | prime_jennie_runtime/fast_loop/bar_engine.py:171-179 | The volume of the last day's run of ticks, nothing on another day |
| `BarEngine.BarEngine.VolumeMa` | prime_jennie_runtime/fast_loop/bar_engine.py:181-195 | Mean volume of the last period bars, absent while there are fewer |
| `BarEngine.BarEngine.RecentHigh` | prime_jennie_runtime/fast_loop/bar_engine.py:206-216 | The highest high of the last bars: an upper bound that is attained |
| `BarEngine.BarEngine.RsiLookup` | prime_jennie_runtime/fast_loop/bar_engine.py:197-204 | RSI over the closes of the history |
| `BarEngine.RunsCut` | prime_jennie_runtime/fast_loop/bar_engine.py:79-144 | The runs lose, duplicate and reorder no tick; one slot per run, a different slot in the next |
| `BarEngine.CutUnique` | prime_jennie_runtime/fast_loop/bar_engine.py:79-144 | No other cut of the ticks has these properties |
| `BarEngine.Extremes` | prime_jennie_runtime/fast_loop/bar_engine.py:133-134 | High and low bound every price of the run and are attained |
| `BarEngine.BarMeaning` | prime_jennie_runtime/fast_loop/bar_engine.py:106-137 | A bar starts at the multiple of its width at or before its first tick, opens at the first price and closes at the last |
| `BarEngine.NewestMeaning` | prime_jennie_runtime/fast_loop/bar_engine.py:117-123 | The kept history is the end of the completed bars |
| `BarEngine.VolumeMeaning` | prime_jennie_runtime/fast_loop/bar_engine.py:139-144 | A missing or negative volume counts as nothing |
| `BarEngine.TimesRise` | prime_jennie_runtime/fast_loop/bar_engine.py:79-144 | For ticks in time order bar times strictly increase |
| `BarEngine.VolumeKept` | prime_jennie_runtime/fast_loop/bar_engine.py:79-144 | Before trimming, bar volumes add up to the tick volumes |
| `BarEngine.LastDayVolume` | prime_jennie_runtime/fast_loop/bar_engine.py:139-144 | For ticks in time order the running volume is that day's whole volume |
| `GatewaySubscriber.DedupCodes` | prime_jennie_runtime/fast_loop/gateway_subscriber.py:117-125 | First occurrences in order |
| `GatewaySubscriber.LoadSubscriptionCodes` | prime_jennie_runtime/fast_loop/gateway_subscriber.py:139-201 | The fill loop returns, sorted, the first twenty distinct codes of the prioritised candidate list |
| `GatewaySubscriber.AllocationSize` | prime_jennie_runtime/fast_loop/gateway_subscriber.py:165-186 | The result has min(20, distinct wanted codes) codes and is all of them when they fit |
| `GatewaySubscriber.Priority` | prime_jennie_runtime/fast_loop/gateway_subscriber.py:178-186 | A code gets a place exactly when fewer than twenty distinct codes come before its first mention |
| `GatewaySubscriber.FirstsPlace` | prime_jennie_runtime/fast_loop/gateway_subscriber.py:165-186 | A position has a place exactly when fewer than twenty distinct positions are in front of it; a kept code, positions and kept codes |
| `GatewaySubscriber.EarlySheetPlace` | prime_jennie_runtime/fast_loop/gateway_subscriber.py:169-170 | A sheet has a place whenever positions, kept codes and the sheets in front of it are fewer than fifteen distinct codes |
| `GatewaySubscriber.LateSheetPlace` | prime_jennie_runtime/fast_loop/gateway_subscriber.py:178-186 | A later sheet that turnover does not list has a place if and only if positions, kept codes, turnover and the sheets in front of it are fewer than twenty |
| `GatewaySubscriber.TurnoverPlace` | prime_jennie_runtime/fast_loop/gateway_subscriber.py:172-186 | A turnover code that nobody has asked for before has a place if and only if positions, kept codes, early sheets and the turnover codes in front of it are fewer than twenty |
| `GatewaySubscriber.ReservedShare` | prime_jennie_runtime/fast_loop/gateway_subscriber.py:165-186 | While positions and kept codes number at most fifteen, at least min(5, turnover codes that are neither held, kept nor early sheets) places go to turnover |
| `GatewaySubscriber.HeldFirst` | prime_jennie_runtime/fast_loop/gateway_subscriber.py:165-186 | Positions and kept codes all get a place if they fit; positions beat everything else |
| `GatewaySubscriber.MakeRoom` | prime_jennie_runtime/fast_loop/gateway_subscriber.py:314-329 | Missing codes, and an unsubscribe of just the surplus of unwanted codes, both by what the status said, whatever the gateway streams by then |
| `GatewaySubscriber.SurplusMeaning` | prime_jennie_runtime/fast_loop/gateway_subscriber.py:319-323 | What is dropped are the lowest of the unwanted codes |
| `GatewaySubscriber.WindowMeaning` | prime_jennie_runtime/fast_loop/gateway_subscriber.py:128-136 | The stream window is 8:50 to 15:35 |
| `GatewaySubscriber.EnsureSubscribed` | prime_jennie_runtime/fast_loop/gateway_subscriber.py:274-356 | Codes, gateway contents, dropped codes and no-op flag after one reconciliation, for every pattern of failing calls and whatever codes others subscribe between the status and the end |
| `GatewaySubscriber.SettledSize` | prime_jennie_runtime/fast_loop/gateway_subscriber.py:314-343 | How many codes are streamed afterwards, counted from the inputs: those before, less the dropped ones, plus the added ones |
| `GatewaySubscriber.CapRestored` | prime_jennie_runtime/fast_loop/gateway_subscriber.py:314-340 | After successful calls the gateway streams every wanted code and exactly min(20, old and wanted together) codes, whatever it streamed before |
| `GatewaySubscriber.CapHoldsIff` | prime_jennie_runtime/fast_loop/gateway_subscriber.py:296-343 | Over every status, streamer state, pair of answers and set of codes that others subscribe meanwhile: the cap of twenty holds afterwards if and only if the codes before, less the dropped, plus the added ones, plus what others add to them, number at most twenty |
| `GatewaySubscriber.CapHoldsAlone` | prime_jennie_runtime/fast_loop/gateway_subscriber.py:296-343 | If nobody else subscribes, that is so if and only if the surplus was dropped (known status, unsubscribe carried out) or what was streamed, with the target if that was subscribed, fits anyway |
| `GatewaySubscriber.NewSheetExceeds` | prime_jennie_runtime/fast_loop/consumer.py:164-169 | A full gateway with nothing to do streams twenty-one codes when the sheet consumer subscribes a new one before the reconciliation ends |
| `GatewaySubscriber.NewSheetHappens` | prime_jennie_runtime/fast_loop/gateway_subscriber.py:302-308 | That is the state inside the stream window while every position is streamed |
| `GatewaySubscriber.NextCallRestores` | prime_jennie_runtime/fast_loop/gateway_subscriber.py:314-343 | From any number of streamed codes the next undisturbed call with successful requests restores the cap, if and only if there is anything to ask for or the cap was kept |
| `GatewaySubscriber.RefusedUnsubscribeExceeds` | prime_jennie_runtime/fast_loop/gateway_subscriber.py:322-343 | A refused unsubscribe with a known status leaves a full gateway with all its codes and the whole target |
| `GatewaySubscriber.RefusedUnsubscribeHappens` | prime_jennie_runtime/fast_loop/gateway_subscriber.py:322-343 | Outside the window one new position and a refused unsubscribe give twenty-one codes |
| `GatewaySubscriber.SecondCallIsNoop` | prime_jennie_runtime/fast_loop/gateway_subscriber.py:302-340 | A second call on the same rows, in the same window and with a running streamer, drops and changes nothing |
| `GatewaySubscriber.SessionKeepsStreams` | prime_jennie_runtime/fast_loop/gateway_subscriber.py:302-308 | Inside the stream window no streamed code is lost while positions and streamed codes fit together |
| `GatewaySubscriber.BlindSubscribe` | prime_jennie_runtime/fast_loop/gateway_subscriber.py:296-314 | After a failed status call the cap survives exactly when old and wanted codes fit together |
| `GatewaySubscriber.BlindSubscribeExceeds` | prime_jennie_runtime/fast_loop/gateway_subscriber.py:296-314 | A full gateway, one new position and a failed status call give twenty-one codes |
| `StreamConsumer.StepKeeps` | prime_jennie_runtime/infra/redis_streams.py:153-199 | Every step of the single consumer keeps: fetched is pending, held is neither pending nor handled, handled has no repetition |
| `StreamConsumer.AtMostOnce` | prime_jennie_runtime/infra/redis_streams.py:153-199 | Crashes, restarts and failed acknowledgements anywhere: the handler never runs twice on a message |
| `StreamConsumer.MessageFate` | prime_jennie_runtime/infra/redis_streams.py:51-199 | In every single-consumer run, with crashes, restarts, lost reads, failed acknowledgements and a stream that is trimmed: a message that was read past was trimmed before, or was delivered, and then it was handled, once, if and only if it is neither pending nor held nor lost; losses are a crash while it is held, an acknowledgement carried out but reported as failed, an unusable message, and a claim of it when it was trimmed |
| `StreamConsumer.ExactlyOnceWhenSmooth` | prime_jennie_runtime/infra/redis_streams.py:118-199 | In runs without these four, crashes elsewhere included, each delivered message no longer pending or held was handled exactly once |
| `StreamConsumer.CrashLosesMessage` | prime_jennie_runtime/infra/redis_streams.py:155-158 | A crash right after the acknowledgement loses the message for good |
| `StreamConsumer.TrimmingLosesMessage` | prime_jennie_runtime/infra/redis_streams.py:51-56 | Concrete run: a message read before a crash and trimmed before the restart is dropped by the claim |
| `StreamConsumer.TwoConsumersMayRepeat` | prime_jennie_runtime/infra/redis_streams.py:172-199 | Two consumers of one group can both handle a message that one claims from the other's batch |
| `StreamConsumer.AtMostOnceForTwo` | prime_jennie_runtime/infra/redis_streams.py:172-199 | Two consumers, crashes anywhere: no message is handled twice as long as neither claims a message the other has fetched |
| `StreamConsumer.CarelessClaimRepeats` | prime_jennie_runtime/infra/redis_streams.py:172-196 | Whenever one consumer can claim a message that the other one has fetched, there is a continuation in which it is handled twice |
| `EventListener.ArchiveSafety` | prime_jennie_runtime/coordinator/listener.py:143-309 | At most one row per stream id; every acknowledged message is in the log, was moved to the dead-letter stream, or is gone; every other delivered message is pending or gone; and only what is gone was passed over |
| `EventListener.NeverRetried` | prime_jennie_runtime/coordinator/listener.py:363-370 | Over every run, outside claims included, each message is processed at most once; a pending message's delivery count is one plus its outside claims; what is in the dead-letter stream was claimed at least four times |
| `EventListener.FailedStaysPending` | prime_jennie_runtime/coordinator/listener.py:143-230 | A message whose insert failed stays pending, unacknowledged and never processed again, unless it is claimed from outside four times, or once when it is gone from the stream |
| `EventListener.FailedInsert` | prime_jennie_runtime/coordinator/listener.py:143-230 | Concrete run: one message, one failed insert, pending after the cycle |
| `Scheduler.SchedulerRunner.ReloadOnce` | prime_jennie_runtime/infra/scheduler.py:319-342 | After a reload the jobs are exactly those of a rebuild from this snapshot, whatever was loaded before; unchanged rows are not touched |
| `Scheduler.SchedulerRunner.LoadSpec` | prime_jennie_runtime/infra/scheduler.py:323-335 | One row: untouched when its signature is known, otherwise its job is replaced or removed |
| `Scheduler.SchedulerRunner.AddJob` | prime_jennie_runtime/infra/scheduler.py:378-403 | Unknown handlers and invalid cron expressions add no job |
| `Scheduler.SchedulerRunner.DropGone` | prime_jennie_runtime/infra/scheduler.py:337-342 | Jobs and signatures of vanished rows disappear |
| `Scheduler.RebuiltMeaning` | prime_jennie_runtime/infra/scheduler.py:378-403 | A rebuild holds one job per enabled row with known handler and valid cron, with that row's handler, schedule and arguments, and no other job |
| `Scheduler.RunJob` | prime_jennie_runtime/infra/scheduler.py:422-445 | Stops at the first success, fails only after all attempts failed |
| `Ledger.LedgerSound` | prime_jennie_runtime/fast_loop/persistence.py:325-398 | After any buys and sells, while the row exists: 0 <= total - quantity * average < quantity, and the average lies between the lowest and highest truncated price since opening |
| `Ledger.RowIsHolding` | prime_jennie_runtime/fast_loop/persistence.py:325-398 | For every history: the row exists while shares are held, its amount is what they cost (a buy adds quantity * price, a sale leaves the rest at the whole units of the cost of one), and its average those whole units |
| `Ledger.BuysAddUp` | prime_jennie_runtime/fast_loop/persistence.py:325-358 | Whatever happened before, buys raise the amount by exactly what they paid and the quantity by exactly their shares, and the average is the whole units of the cost of one share |
| `Ledger.SaleKeepsAverage` | prime_jennie_runtime/fast_loop/persistence.py:360-398 | A sale leaves the rest at the old average, and removes the row exactly with the last share |
| `Ledger.QuantityConserved` | prime_jennie_runtime/fast_loop/persistence.py:325-398 | The row never holds less than bought minus sold, and exactly that if and only if no sale exceeded the holding |
| `Ledger.BuyKeeps` | prime_jennie_runtime/fast_loop/persistence.py:325-358 | The weighted-average upsert keeps the row's bounds |
| `Ledger.SellKeeps` | prime_jennie_runtime/fast_loop/persistence.py:360-398 | The partial sale keeps the row's bounds |
| `Ledger.TradeRecorder.RecordBuy` | prime_jennie_runtime/fast_loop/persistence.py:172-213 | Execution and row are written together or not at all; nothing for a quantity that is not positive |
| `Ledger.TradeRecorder.RecordSell` | prime_jennie_runtime/fast_loop/persistence.py:215-259 | As for buys; a full sale also writes the sheet's outcome in a second transaction |
| `Ledger.TradeRecorder.UpdatePositionSell` | prime_jennie_runtime/fast_loop/persistence.py:360-398 | Quantity falls, average stays, the row disappears with its last share; no row, no change |
| `Ledger.OutcomePrices` | prime_jennie_runtime/fast_loop/persistence.py:84-93 | For positive quantities an outcome exists exactly when there are buys and sells, and its prices lie within their fills' range |
| `Ledger.OutcomeMeaning` | prime_jennie_runtime/fast_loop/persistence.py:84-115 | All of an outcome in terms of the executions: prices, matched quantity, gross, fees, net and rate, the first buy, and time and reason of a latest sale |
| `Ledger.OnlySplits` | prime_jennie_runtime/fast_loop/persistence.py:84-85 | Buys and sales are all executions, each once |
| `Ledger.ProfitIsCashFlow` | prime_jennie_runtime/fast_loop/persistence.py:92-97 | For equal bought and sold quantity net profit = sales * (1 - sell fee) - purchases * (1 + buy fee) |
| `Ledger.ProfitableIff` | prime_jennie_runtime/fast_loop/persistence.py:92-97 | Net profit is positive exactly when the exit price after its fees exceeds the entry price with its fees |
| `MinuteChart.Collect` | prime_jennie_runtime/jobs/minute_chart.py:172-218 | The work-queue loop terminates; its requests are the targets followed by those whose first attempt met congestion; rows, failures and back-offs are counted exactly; every start keeps its interval |
| `MinuteChart.OnceOrTwice` | prime_jennie_runtime/jobs/minute_chart.py:183-218 | Each target is requested once, or twice exactly when its first attempt met congestion; nothing else is requested; back-offs number at most the targets |
| `MinuteChart.EveryTargetEnds` | prime_jennie_runtime/jobs/minute_chart.py:183-218 | For each target exactly one of its requests is terminal (stored, broken, or a congested retry), and it is the last request for it |
| `MinuteChart.EndingsAddUp` | prime_jennie_runtime/jobs/minute_chart.py:183-218 | So stored requests and given-up targets add up to the targets |
| `MinuteChart.IntervalBand` | prime_jennie_runtime/jobs/minute_chart.py:199-208 | The interval stays between min(base, 30) and max(base, min(8 * base, 30)) |
| `MinuteChart.IntervalMeaning` | prime_jennie_runtime/jobs/minute_chart.py:197-208 | Congestion of a first attempt doubles the interval up to eight times the base and 30 s; stored rows take a fifth off down to the base; anything else leaves it |
| `MinuteChart.BaseMeaning` | prime_jennie_runtime/jobs/minute_chart.py:75-88 | The base interval spreads the requests over the window, at the least interval or more |
| `MinuteChart.StartsApart` | prime_jennie_runtime/jobs/minute_chart.py:183-188 | Requests start at least the least interval (0.35 s by default), or the 30 s cap if that is shorter, apart |
| `MinuteChart.BackoffBelowBase` | prime_jennie_runtime/jobs/minute_chart.py:204-208 | Backing off makes the interval shorter than its base exactly when the base exceeds the 30 s cap |
| `MinuteChart.FewTargets` | prime_jennie_runtime/jobs/minute_chart.py:75-88 | With the default window that is exactly for fewer than eight targets |

## Left out

- EntrySafety: assumes that a sheet id determines its ticker, because the tracker's index breaks otherwise (`PositionTracker.Tracker.Register` gives the exact condition).
- EntrySafety: the manual buys of control/consumer.py (adopt, approved buy) are not steps of the model; they bypass the ticker check. A manual sale is a holding closed at any moment.
- LiveAndSimulatedStartAgree: compares decisions on the same ticks; the simulator's four ticks a bar and the live tick stream are different samples of a day.
- TwoConsumersMayRepeat: the claim's minimum idle time of 60 seconds is a matter of timing and is not modelled; it bounds neither how long a batch takes nor, therefore, what may be claimed.
- ArchiveSafety: the trimming of the dead-letter stream to its maximum length is not modelled; `dead` is the set of messages ever moved there.
- ReloadOnce: the trigger time and run history that the scheduler keeps inside a job; a reload applies a snapshot in one step, as the code does after its fetch.
- LedgerSound: column overflow of 32-bit integers; prices are taken to be not negative.
- Collect: the database query that chooses the targets, and the log lines.
- EnsureSubscribed: others only add codes, as the sheet consumer does, because nobody else sends the unsubscribe request; codes are ranks in the order of code strings, and the status lists them in that order, as the gateway does (prime_jennie_runtime/kis_gateway/streamer.py:451-458); the warning about positions left out.
- Time zones: local time is a single integer clock. The death-cross date check, which uses the tick's own zone, is on that clock too.
- Float rounding: all prices, averages and intervals are reals.
- MessageFate: any message may be trimmed, not only the oldest ones; that a claim removes trimmed messages from the pending list is what Redis does since version 7.0.
- RestartKeepsOnePerTicker: the expiry times of stored sheets, which only take sheets away, and the stored ticker index, which is not read.
- Redis expiry times, notifications, event publishing, dashboards and logging.
- The condition checks of live entries (EntryConditionEvaluator): their verdict is an arbitrary input of the entry protocol.
- The sizer, HTTP clients and order confirmation polling: their answers are inputs.
- DecodeEncode: dates keep their form; their text in the record and the JSON syntax are not modelled.
- RestartRewinds: a write to the store is taken to succeed; one that fails leaves the backup as stale as a raised sale does. Records that cannot be read are not modelled.
- The daily-closes cache.
- Moving-average periods below one, which make the source raise, are not values of the period type.
- EMA, Bollinger bands and MACD: only sums over windows.
- The rewrite of cron weekdays; a cron expression is valid or not.
- Concurrency of the bar engine: its lock makes every call atomic, and the model has one caller.
