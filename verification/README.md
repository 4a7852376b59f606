# A verified model of the trading core

This project models, in Dafny 4.11, three clusters of a trading server and proves properties of them over every
input, every run and every interleaving. `dafny verify dfyconfig.toml` checks all of it.

**The backtester** (`ExecutionSimulator`, `BacktestEngine`, `Metrics`). A loop over candles that fills orders with
spread, slippage, fees, a volume cap and a cash cap, in two execution modes. `BacktestEngine` holds the imperative
engine, proved against a specification run `RunTo`; `NoLookAhead`, `TradeLog`, `Accounting` and `FlatMarket` prove
theorems about that run for all strategies and all candle series, and so does `Solvency`. `Fills`, `Signals` and
`Figures` say what every fill, every piece of advice and every reported figure comes to, without reference to how it is
computed. A strategy is any function from the window of closes to a side and a confidence. Money is `real`.

**Order admission** (`Gateway`, `GatewayOrders`, `GatewayOutcomes`, `Validation`, `Gates`, `Rules`, `Pipeline`,
`Trails`, `Remembered`, `AtMostOnce`, `WholeExecutions`, `Approvals`, `Decisions`, `OwnOrders`, `LoopGuard`,
`GuardAnswers`).
Everything that runs between two awaits is one atomic step; a run is any sequence of steps, so a theorem over runs is
a theorem over interleavings. Risk agent, broker, hard limits, kill switch and clocks are parameters. Each module
specifies its steps as functions on a state, proves what every run keeps, and gives the class whose methods are proved
to perform exactly those steps. `Approvals` composes two of these systems. `GatewayOutcomes`, `Rules`, `Trails`,
`Remembered`, `Decisions`, `OwnOrders` and `GuardAnswers` are the partners of those step functions: they read rules,
outcomes and answers off the inputs and the history of a run, and prove the two readings equal.

**Streams and serialisation** (`Text`, `PieceStream`, `AcpFraming`, `Headers`, `AcpConnection`, `AcpOutcomes`,
`LineStream`, `CliTask`, `LineOutcomes`, `WriteQueue`, `WriteHistory`, `RunLock`, `LockHistory`). `PieceStream` proves
once why chunk boundaries do not matter to a buffered reader; the Content-Length framing (Base Protocol of the Language
Server Protocol 3.17), the JSON-lines transport and the command-line task are instances. `AcpConnection` follows
requests and responses as in section 5 of JSON-RPC 2.0.
`WriteQueue` and `RunLock` treat the per-file write chains and the exclusive run lock; `AcpOutcomes`, `WriteHistory` and
`LockHistory` tell outcomes, files and locks from the history of events alone.

## What turned out not to hold

The code was kept as it is; each of these comes with an input that shows it and, where there is one, the exact
condition under which the expected property holds.

- `slippage: 0` selects the default slippage (`BacktestEngine.ZeroSlippageNeedsBasisPoints`).
- Expectancy and total pnl of one report disagree by the entry fees (`Accounting.ExpectancyLeavesOutEntryFees`).
- A strategy is solvent on all data exactly when it is never short on any (`Solvency.SolventExactlyWhenNeverShort`);
  every open short can be ruined by one bar (`Solvency.RuinousBar`).
- With negative equity the one-pass drawdown can be too small; `Metrics.ScanIsMaxDrawdownExactlyWhen` says when it is
  right.
- An exit books the whole position even when only part of it was filled (`TradeLog.ExitBooksMoreThanItFills`).
- Frames are measured in bytes when written and in characters when read: a frame arrives if and only if its body is
  ASCII (`AcpFraming.DeliveredExactlyWhenAscii`). A body that does not decode, or text without a header, ends the round
  and holds back what stands behind it (`AcpFraming.OneRoundDeliversAllExactlyWhen`), until later chunks catch up.
- The truncation flag can be raised although no text was lost (`CliTask.FlagIsTruthfulExactlyWhen`).
- The daily order maximum can be exceeded by the number of overlapping requests less one, and that bound is attained
  (`Gateway.QuotaUnderOverlap`, `GatewayOrders.QuotaBoundIsAttained`). Overlapping requests with one idempotency key
  make two orders (`GatewayOrders.OverlapMakesTwoOrders`, `GatewayOrders.AdmissionBesideDecided`), while an order
  without a key of its own can never be placed a second time (`Gateway.SameOrderIsNeverPlacedAgain`).
- A refusal by risk is logged as granted exactly when its approval is not required
  (`Gates.RefusalMarkedGrantedExactlyWhen`).
- The daily reset forgets executions that are still under way: a signal sent before and after it is executed twice
  (`AtMostOnce.ResetAllowsAnother`), and the late follow-up of an older exception can do the same within a day
  (`AtMostOnce.OneBrokerCallExactlyWhenQuiet`). Keys join two ids with a colon and are not injective
  (`AtMostOnce.SharedKeyExactlyWhen`).
- A proposal with a blank plan id can be executed twice (`Approvals.BlankPlanExecutesTwice`), and a decision made while
  an approval waits is overwritten (`Approvals.DecisionIsFinalExactlyWhen`, `Approvals.RejectedYetApproved`). A call
  made past the service under the key of a proposal takes the place of the proposal's order
  (`OwnOrders.ForeignOrderTakesItsPlace`); without one an approved proposal executes its own
  (`OwnOrders.ApprovedExecutedItsOwn`).
- The comment at `apps/server/src/llm/agent-runtime.ts:721` promises exclusive execution. A run superseded by a run of
  its own agent is not aborted and cannot be cancelled any more (`RunLock.ExclusionLostExactlyBySelfRestart`,
  `RunLock.SupersededRunIsOutOfReach`), and a run that throws before its guarded block keeps the lock
  (`RunLock.EscapedRunKeepsLock`).

## Model

| member | source | states |
|---|---|---|
| `ExecutionSimulator.CashCappedIsLargestAffordable` | apps/server/src/backtesting/execution-simulator.ts:110-135 | a purchase goes through whole if it can be paid; otherwise exactly the largest affordable quantity does, if it reaches the quantity and notional minima; otherwise nothing |
| `ExecutionSimulator.DivisionFindsLargest` | apps/server/src/backtesting/execution-simulator.ts:116-122 | cash divided by the cost of one unit is the largest affordable quantity, and the only one |
| `ExecutionSimulator.MarketFillPrice` | apps/server/src/backtesting/execution-simulator.ts:84-105 | a market fill never beats its reference price and a sale never has a negative price (the exact price: `Fills.MarketPrice`) |
| `ExecutionSimulator.MarketBuyIsAffordable` | apps/server/src/backtesting/execution-simulator.ts:63-148 | price times quantity plus fee of every market purchase is within the cash, the quantity within the order and the volume cap |
| `ExecutionSimulator.LimitBuyIsAffordable` | apps/server/src/backtesting/execution-simulator.ts:153-248 | the same for a limit purchase at any price, cash and quantity; it also never pays more than its limit and only fills when the bar reached it |
| `ExecutionSimulator.SellIgnoresCash` | apps/server/src/backtesting/execution-simulator.ts:116 | a sale is not checked against the cash at all |
| `ExecutionSimulator.FilledQuantityPositive` | apps/server/src/backtesting/execution-simulator.ts:107-148 | a fill of a positive order is positive, at most the order, and costs no negative fee |
| `Fills.MarketPrice` | apps/server/src/backtesting/execution-simulator.ts:69-105 | in basis points of the reference price: a purchase costs half the spread and the slippage more than the reference price, a sale brings that much less; a price of zero or less is not traded |
| `Fills.MarketSale` | apps/server/src/backtesting/execution-simulator.ts:84-148 | a sale at a positive price fills for all that volume lets through, whatever the cash, at the taker fee |
| `Fills.MarketPurchase` | apps/server/src/backtesting/execution-simulator.ts:107-148 | a purchase fills whole if price, quantity and taker fee can be paid; else for exactly the quantity that spends the cash, unless that is below 0.000001 or the minimum value |
| `Fills.VolumeLetsThrough` | apps/server/src/backtesting/execution-simulator.ts:84-91 | all of the order passes unless the bar has a volume and a share of it is the cap |
| `Fills.LimitPrice` | apps/server/src/backtesting/execution-simulator.ts:158-205 | a limit that the range of the bar does not reach trades nothing; one that it reaches trades at the limit, or at the open when that is better, as a maker without spread or slippage |
| `Fills.LimitSale` | apps/server/src/backtesting/execution-simulator.ts:206-248 | a reached limit sale fills for all that volume lets through, at the maker fee |
| `Fills.LimitPurchase` | apps/server/src/backtesting/execution-simulator.ts:206-248 | a reached limit purchase is paid like a market purchase, at the maker fee |
| `BacktestEngine.Engine.constructor` | apps/server/src/backtesting/backtest-engine.ts:91-110 | the settings in force after defaults; parameters tested for truth treat zero as absent |
| `BacktestEngine.ZeroSlippageNeedsBasisPoints` | apps/server/src/backtesting/backtest-engine.ts:97 | asking for zero slippage by `slippage` alone gives the default of 5 basis points; only `slippageBps: 0` gives none |
| `BacktestEngine.SettingsExactlyWhen` | apps/server/src/backtesting/backtest-engine.ts:91-110 | every setting is the parameter given for it or its default, with zero counting as absent where the source tests for truth |
| `BacktestEngine.Engine.FillPending` | apps/server/src/backtesting/backtest-engine.ts:156-200 | step 1 of a bar over the loop variables is the specification step |
| `BacktestEngine.Engine.FollowExitSignal` | apps/server/src/backtesting/backtest-engine.ts:209-265 | the exit half of step 3 is the specification step, in both modes |
| `BacktestEngine.Engine.FollowEntrySignal` | apps/server/src/backtesting/backtest-engine.ts:267-311 | the entry half of step 3 is the specification step, in both modes |
| `BacktestEngine.MarkToMarket` | apps/server/src/backtesting/backtest-engine.ts:313-321 | equity is capital plus the entry value and unrealised result of what is open |
| `BacktestEngine.RecordExit` | apps/server/src/backtesting/backtest-engine.ts:161-182 | capital and trade log after an executed exit, for longs and shorts |
| `BacktestEngine.Engine.NextBar` | apps/server/src/backtesting/backtest-engine.ts:153-322 | one pass through the loop body is one bar of the specification |
| `BacktestEngine.Engine.RunBars` | apps/server/src/backtesting/backtest-engine.ts:146-322 | the loop computes the specification run over all candles |
| `BacktestEngine.Engine.RunBacktest` | apps/server/src/backtesting/backtest-engine.ts:116-363 | the reported curve, trades, dates and metrics are those of the run; an empty series gives the initial capital alone |
| `NoLookAhead.AdviceSeesOnlyTheLookback` | apps/server/src/backtesting/backtest-engine.ts:206-207 | what the strategy sees at bar i depends only on the closes of the lookback bars before i |
| `NoLookAhead.SamePastSameRun` | apps/server/src/backtesting/backtest-engine.ts:153-322 | series that agree on their first n bars (ranges aside) have the same book and curve through bar n - 1, for every strategy |
| `NoLookAhead.PrefixOfDataPrefixOfResult` | apps/server/src/backtesting/backtest-engine.ts:153-322 | a backtest of a prefix of the data gives a prefix of the full curve and of the full trade log |
| `NoLookAhead.FillsKnownAtOpen` | apps/server/src/backtesting/backtest-engine.ts:156-200 | with execution at the next open, what bar n fills does not depend on its high, low or close |
| `TradeLog.EveryBarWellFormed` | apps/server/src/backtesting/backtest-engine.ts:156-311 | a pending order is exactly the open position's exit or an entry with nothing open; trades have positive quantity, end after they begin and do not overlap, strictly apart in next-open mode |
| `TradeLog.EveryBarSized` | apps/server/src/backtesting/backtest-engine.ts:156-311 | the part of that which needs no time stamps, for arbitrary candles |
| `TradeLog.ExitBooksMoreThanItFills` | apps/server/src/backtesting/backtest-engine.ts:160-182 | an executed exit books the whole position, though it filled less of it if and only if the bar's volume, or for a short the cash, was too small; the fee is that of the part filled |
| `TradeLog.EntryScheduledExactlyWhen` | apps/server/src/backtesting/backtest-engine.ts:267-282 | an entry of q units is scheduled if and only if the advice is confident, nothing is open, q is the largest whole quantity within the risk amount and it costs less than half the capital |
| `Signals.WindowIsTheLastCloses` | apps/server/src/backtesting/backtest-engine.ts:206-207 | the strategy is shown the last closes before the bar, in order |
| `Signals.ExitScheduledExactlyWhen` | apps/server/src/backtesting/backtest-engine.ts:209-224 | in next-open mode an exit of the whole position is scheduled if and only if the advice opposes the position, whatever its confidence; nothing else changes |
| `Signals.ExitAtCloseExactlyWhen` | apps/server/src/backtesting/backtest-engine.ts:225-265 | in close mode the position goes, with one trade, if and only if the advice opposes it and its exit fills at the close |
| `Signals.EntryExactlyWhen` | apps/server/src/backtesting/backtest-engine.ts:267-311 | in both modes an entry of q units follows if and only if the advice is confident and q is the largest whole quantity within the risk amount, for under half the capital |
| `Signals.PositionEndsExactlyWhen` | apps/server/src/backtesting/backtest-engine.ts:156-224 | over any run: a position open after bar i is gone after bar i + 1, with its trade, if and only if bar i's advice opposed it and the order to unwind it fills at the next open |
| `Signals.SellingAdviceEndsLong` | apps/server/src/backtesting/backtest-engine.ts:156-224 | over any run: advice to sell ends a long by the end of the next bar that opens above zero, with one trade at the open less half the spread and the slippage |
| `Signals.LastPointIsWorth` | apps/server/src/backtesting/backtest-engine.ts:313-321 | every point of the curve is what the book is worth at the close: a long what it fetches, a short its proceeds less buying back |
| `Accounting.EveryBarBalanced` | apps/server/src/backtesting/backtest-engine.ts:163-196 | capital is initial capital plus trade pnl less entry fees less what is tied up, at every bar |
| `Accounting.EquityIdentity` | apps/server/src/backtesting/backtest-engine.ts:163-321 | equity is initial capital plus pnl of closed trades less all entry fees paid plus the unrealised result, at every bar, both modes, partial fills included |
| `Accounting.ExpectancyLeavesOutEntryFees` | apps/server/src/backtesting/metrics.ts:57-158 | total pnl and expectancy of one report differ by exactly the entry fees and the open result |
| `Solvency.LongOnlyRunsAreSolvent` | apps/server/src/backtesting/backtest-engine.ts:156-321 | a run that opens no short never has negative capital or equity |
| `Solvency.NeverSellingIsSolvent` | apps/server/src/backtesting/backtest-engine.ts:267-282 | a strategy that never advises selling with confidence is solvent on all data: the condition can be checked before the run |
| `Solvency.RuinousBar` | apps/server/src/backtesting/backtest-engine.ts:160-182 | in either mode, with any costs, advice and book: an open short is ruined by any bar at a price above twice its entry value plus the capital per unit |
| `Solvency.SolventExactlyWithoutShort` | apps/server/src/backtesting/backtest-engine.ts:156-321 | from any solvent book, equity stays at or above zero on every continuation that advises no new short if and only if no short is open or about to be |
| `Solvency.SolventExactlyWhenNeverShort` | apps/server/src/backtesting/backtest-engine.ts:153-322 | a strategy is solvent on all data if and only if it is never short on any |
| `Solvency.ShortsStay` | apps/server/src/backtesting/backtest-engine.ts:171-196 | a short once opened shows in the position or the trades ever after, so that the end of a run tells |
| `Solvency.ShortRunsCanGoUnder` | apps/server/src/backtesting/backtest-engine.ts:186-196 | an input: a concrete run whose short is ruined |
| `Solvency.LongOnlyDrawdownIsTrue` | apps/server/src/backtesting/metrics.ts:115-135 | the drawdown a run without shorts reports is the true maximum drawdown and a percentage |
| `FlatMarket.NoFreeLunch` | apps/server/src/backtesting/backtest-engine.ts:153-322 | on a flat market the curve never rises and never exceeds the initial capital, for every strategy, mode and volume, long or short; with no costs it stays exactly there |
| `FlatMarket.BarNeverGains` | apps/server/src/backtesting/backtest-engine.ts:156-311 | no bar of a flat market raises the value of the book |
| `Metrics.Calculate` | apps/server/src/backtesting/metrics.ts:57-158 | the loop over local variables and the trade analysis compute the specified report |
| `Metrics.ScanIsMaxDrawdown` | apps/server/src/backtesting/metrics.ts:115-135 | the one-pass scan equals the maximum over all pairs of points, for non-negative equity |
| `Metrics.ReportedDrawdown` | apps/server/src/backtesting/metrics.ts:115-135 | the reported drawdown is that maximum and lies between 0 and 100 |
| `Metrics.ScanIsMaxDrawdownExactlyWhen` | apps/server/src/backtesting/metrics.ts:115-135 | for every curve: the scan is exact if and only if no point is negative, or the greatest fall ends below zero at a point before which every positive point equals the initial capital |
| `Metrics.NegativeEquityMisstatesDrawdown` | apps/server/src/backtesting/metrics.ts:115-135 | on a curve whose negative points all come after a positive point other than the initial capital the scan is never exact |
| `Metrics.NegativeEquityUnderstatesDrawdown` | apps/server/src/backtesting/metrics.ts:130 | an input: a fall of 200 percent that is reported as 150 |
| `Metrics.DurationBounded` | apps/server/src/backtesting/metrics.ts:124-133 | no drawdown is reported longer than the backtest |
| `Figures.ScanIsLongestSpell` | apps/server/src/backtesting/metrics.ts:115-135 | the one-pass scan finds the longest stretch of time, over all pairs of points, in which the curve never rose above where the stretch began |
| `Figures.ReportedDuration` | apps/server/src/backtesting/metrics.ts:115-135 | the reported drawdown duration is that stretch, for every curve |
| `Figures.InfiniteExactlyWhen` | apps/server/src/backtesting/metrics.ts:130 | the scan divides by zero if and only if the curve falls below zero from a peak of zero |
| `Figures.BarsAreEvenlySpaced` | apps/server/src/backtesting/metrics.ts:124 | bars are taken to be evenly spaced from the start to the end of the backtest |
| `Metrics.WinnersAndLosersPartition` | apps/server/src/backtesting/metrics.ts:138-146 | winners and losers split the trades and their pnl |
| `Metrics.ExpectancyIsMeanPnl` | apps/server/src/backtesting/metrics.ts:148-158 | win rate times average win less loss rate times average loss is the mean pnl of the trades |
| `Figures.TradeCounts` | apps/server/src/backtesting/metrics.ts:138-152 | the counts and fees of the analysis are those of the trades |
| `Figures.TradeRates` | apps/server/src/backtesting/metrics.ts:148-149 | win and loss rate are shares of all trades |
| `Figures.TradeAverages` | apps/server/src/backtesting/metrics.ts:154-157 | average win, average loss and average pnl spread their totals over the winners, the others and all trades |
| `Figures.TradeRatios` | apps/server/src/backtesting/metrics.ts:151-156 | profit factor and win-loss ratio compare what was won with what was lost, 999 standing for no loss at all |
| `Figures.TotalFigures` | apps/server/src/backtesting/metrics.ts:57-59 | total pnl and total return against the end of the curve and the initial capital |
| `Text.ParsePrinted` | apps/server/src/cli/acp-transport.ts:142 | reading a printed number back gives the number |
| `Rules.CaseIsIgnored` | apps/server/src/execution-pipeline/permission.ts:55-58 | comparing in one case ignores the case of letters and nothing else |
| `Rules.SpaceExactlyWhen` | apps/server/src/execution-pipeline/validation.ts:24-27 | the code points that count as white space |
| `Rules.TrimRemovesWhiteSpace` | apps/server/src/execution-pipeline/validation.ts:24-27 | trimming removes exactly the white space around a text |
| `AcpFraming.CompleteFrame` | apps/server/src/cli/acp-transport.ts:132-155 | a complete ASCII frame in front is taken off exactly and its body decoded |
| `AcpFraming.IncompleteFrame` | apps/server/src/cli/acp-transport.ts:133-144 | a proper prefix of an ASCII frame waits, unchanged |
| `AcpFraming.RoundTrip` | apps/server/src/cli/acp-transport.ts:81-155 | any list of decodable ASCII bodies, framed, concatenated and cut into any chunks, is delivered exactly, in order, with an empty buffer at the end |
| `AcpFraming.DeliveredSoFar` | apps/server/src/cli/acp-transport.ts:122-155 | mid-stream, exactly the bodies whose frames have arrived whole have been delivered, and the buffer holds exactly the rest |
| `AcpFraming.DeliveredExactlyWhenAscii` | apps/server/src/cli/acp-transport.ts:81 | the header counts bytes and the reader characters: a single frame is delivered if and only if its body is ASCII |
| `AcpFraming.RoundStopsAtFirstDud` | apps/server/src/cli/acp-transport.ts:125-154 | whatever decodable frames come first are delivered; the first undecodable body, or text without a header, is dropped and ends the round with everything behind it left in the buffer |
| `AcpFraming.OneRoundDeliversAllExactlyWhen` | apps/server/src/cli/acp-transport.ts:122-155 | one round delivers every message of a stream if and only if none stands behind a piece that yields none |
| `AcpFraming.LaterChunksCatchUp` | apps/server/src/cli/acp-transport.ts:122-155 | nothing is lost: as many further chunks as there are such pieces deliver everything |
| `AcpFraming.UndecodableFrameDelaysTheNext` | apps/server/src/cli/acp-transport.ts:125-154 | an instance: a complete frame behind one that does not decode waits for the next chunk |
| `Headers.HeaderExactlyWhen` | apps/server/src/cli/acp-transport.ts:133-142 | the length read from a header is the one at the first place where the key stands, in any case, with white space and digits behind it; a header without such a place has none |
| `Headers.BodyBytes` | apps/server/src/cli/acp-transport.ts:81 | the length written into a header is the number of bytes of the body in UTF-8 |
| `PieceStream.FeedAll` | apps/server/src/cli/acp-transport.ts:122-130 | a stream of self-delimiting pieces is delivered piece by piece under every chunking |
| `PieceStream.FeedIsDrain` | apps/server/src/cli/parsing.ts:50-54 | for a reader whose answers survive more input, feeding chunks equals reading the whole at once |
| `AcpConnection.EveryRunAccounted` | apps/server/src/cli/acp-transport.ts:75-191 | over any run, issued ids split disjointly into pending and settled, each caller is called back once, timers run for exactly the pending ids, and nothing is pending after close |
| `AcpConnection.OutcomesAreFinal` | apps/server/src/cli/acp-transport.ts:75-191 | no outcome ever changes and no id is issued twice, from any state to any later one |
| `AcpConnection.UnknownResponseChangesNothing` | apps/server/src/cli/acp-transport.ts:165-167 | late, repeated or unknown responses reach observers and change nothing else |
| `AcpConnection.ClosedIsFinal` | apps/server/src/cli/acp-transport.ts:75-130 | after close everything issued is settled and no operation has any effect |
| `AcpOutcomes.EveryCallerGetsItsFate` | apps/server/src/cli/acp-transport.ts:75-191 | over any run every caller gets the outcome of the first event to concern its request: its failed write, a message with its id, which resolves or rejects it as the message says, its timer, or close |
| `AcpOutcomes.OutcomeExactlyWhen` | apps/server/src/cli/acp-transport.ts:75-191 | a caller has an outcome if and only if some event is the first to concern its request and has that effect; so it resolves with a message exactly when that message, with its id and no error, came first |
| `AcpOutcomes.SubscribersAreTold` | apps/server/src/cli/acp-transport.ts:157-191 | notification subscribers are told of exactly the observed messages without an id that name a method, and what is observed is what arrived while the connection was open |
| `AcpConnection.WrittenAreFrames` | apps/server/src/cli/acp-transport.ts:79-104 | what a connection writes is the frames of the accepted bodies, in order |
| `AcpConnection.ReceiverObservesWhatWasSent` | apps/server/src/cli/acp-transport.ts:75-191 | two connections end to end: the receiver observes exactly the messages the sender wrote, in any interleaving and chunking |
| `AcpConnection.AcpConnection.constructor` | apps/server/src/cli/acp-transport.ts:46-52 | a fresh connection: nothing pending, id 1 next |
| `AcpConnection.AcpConnection.Request` | apps/server/src/cli/acp-transport.ts:75-96 | issues the next id, arms its timer, and settles at once when the write fails or the connection is closed |
| `AcpConnection.AcpConnection.Notify` | apps/server/src/cli/acp-transport.ts:99-105 | writes a frame, or refuses when closed |
| `AcpConnection.AcpConnection.Close` | apps/server/src/cli/acp-transport.ts:107-120 | settles every pending request, drops the buffer, and does nothing the second time |
| `AcpConnection.AcpConnection.SettleAllPending` | apps/server/src/cli/acp-transport.ts:112-116 | the loop rejects each pending request exactly once |
| `AcpConnection.AcpConnection.TimerFires` | apps/server/src/cli/acp-transport.ts:83-86 | a timer settles its own request as timed out |
| `AcpConnection.AcpConnection.Ingest` | apps/server/src/cli/acp-transport.ts:122-130 | the loop takes off and dispatches every complete frame |
| `AcpConnection.AcpConnection.TakeFrame` | apps/server/src/cli/acp-transport.ts:132-155 | one attempt at the front of the buffer |
| `AcpConnection.AcpConnection.DispatchMessage` | apps/server/src/cli/acp-transport.ts:157-191 | observers first, then the pending request the id names, or the notification handlers |
| `LineStream.LinesIgnoreChunks` | apps/server/src/cli/parsing.ts:50-54 | lines fed chunk by chunk are the lines of the whole text, even when a chunk ends between CR and LF |
| `LineStream.JoinedLinesSplit` | apps/server/src/cli/parsing.ts:50-54 | any lines, each ended by LF or CR LF and cut into any chunks, come out as exactly those lines |
| `LineStream.TransportIgnoresChunks` | apps/server/src/cli/protocol-transport.ts:71-94 | messages and drops are those of the lines of the whole stream, whatever the chunks |
| `LineStream.JsonLineTransport.Ingest` | apps/server/src/cli/protocol-transport.ts:71-94 | delivers every complete line that parses, counts the others, keeps the rest; nothing after close |
| `LineStream.JsonLineTransport.Close` | apps/server/src/cli/protocol-transport.ts:62-69 | closes once and forgets the buffer |
| `LineOutcomes.TransportDelivers` | apps/server/src/cli/protocol-transport.ts:71-94 | whatever the chunks, exactly the messages of the complete lines that parse once trimmed are delivered, in order, and the lines that are neither blank nor parse are counted |
| `LineStream.CaptureKeepsTheEnd` | apps/server/src/cli/process-runner.ts:111-202 | bounded capture folded over chunks keeps exactly the last characters of the whole output, and its flag says whether any were lost |
| `CliTask.OutputIgnoresChunks` | apps/server/src/cli/cli-manager.ts:251-327 | two processes that print the same text leave the same task output, however the text was cut |
| `CliTask.CollectedIsPrefixOfFullText` | apps/server/src/cli/cli-manager.ts:258-327 | the collected text is exactly the first maxOutputChars characters of the full text, the tool calls are all of them in order, and the flag goes up exactly as described |
| `LineOutcomes.TaskCollects` | apps/server/src/cli/cli-manager.ts:251-327 | whatever the chunks, the collected text is the beginning of what the lines said, deltas by their content and plain lines whole, up to the limit, with every tool call; lost text is always flagged |
| `CliTask.FlagIsTruthfulExactlyWhen` | apps/server/src/cli/cli-manager.ts:258-273 | the truncation flag tells the truth about lost text if and only if no empty text comes last at exactly the limit |
| `CliTask.FlagCanOverstate` | apps/server/src/cli/cli-manager.ts:258-264 | an input for which it does not |
| `CliTask.Collector.Push` | apps/server/src/cli/cli-manager.ts:258-273 | the bounded append is the specification |
| `CliTask.Collector.Handle` | apps/server/src/cli/cli-manager.ts:275-296 | one line: tool call, delta or plain text |
| `CliTask.Collector.OnStdoutChunk` | apps/server/src/cli/cli-manager.ts:310-316 | one chunk: complete lines are handled in order, the rest is kept |
| `CliTask.Collector.Flush` | apps/server/src/cli/cli-manager.ts:323-327 | an unterminated last line still counts |
| `LoopGuard.CleanupIsInvisible` | apps/server/src/core/loop-guard.ts:37-53 | with a monotone clock, cleaning up at any moments never changes an answer |
| `LoopGuard.AcceptedAreApart` | apps/server/src/core/loop-guard.ts:92-106 | activities of a symbol that are let through are a cooldown apart |
| `LoopGuard.WindowBound` | apps/server/src/core/loop-guard.ts:92-106 | any window of length W lets through at most 1 + floor(W / cooldown) activities of a symbol |
| `LoopGuard.DepthBounded` | apps/server/src/core/loop-guard.ts:58-87 | the recorded depth never exceeds the maximum |
| `LoopGuard.DepthCountsOpenTraces` | apps/server/src/core/loop-guard.ts:58-87 | when callers exit only what they entered, the depth is the number of open traces |
| `GuardAnswers.DuplicateExactlyWhen` | apps/server/src/core/loop-guard.ts:37-55 | with a monotone clock and any clean-ups, an event is a duplicate if and only if it was last recorded less than the time to live ago, at a clock reading other than zero |
| `GuardAnswers.CleanupForgetsExactlyStale` | apps/server/src/core/loop-guard.ts:132-139 | cleaning up forgets exactly the recordings older than the time to live |
| `GuardAnswers.RetryExactlyWhen` | apps/server/src/core/loop-guard.ts:111-120 | the n-th retry under a correlation is answered with n and allowed while n is within the maximum |
| `GuardAnswers.EntryExactlyWhen` | apps/server/src/core/loop-guard.ts:58-87 | entering a trace is answered with the depth it leads to, counted over all calls, and allowed while that is within the maximum |
| `GuardAnswers.CooldownExactlyWhen` | apps/server/src/core/loop-guard.ts:92-106 | activity is let through if and only if the cooldown has passed since the last that was, and otherwise told what is left of it |
| `LoopGuard.LoopGuard.IsDuplicateEvent` | apps/server/src/core/loop-guard.ts:37-44 | the answer of the specification |
| `LoopGuard.LoopGuard.RecordEvent` | apps/server/src/core/loop-guard.ts:49-53 | state after recording an event |
| `LoopGuard.LoopGuard.Enter` | apps/server/src/core/loop-guard.ts:58-74 | answer and state of entering a trace |
| `LoopGuard.LoopGuard.Exit` | apps/server/src/core/loop-guard.ts:79-87 | state after leaving a trace |
| `LoopGuard.LoopGuard.CheckSymbolCooldown` | apps/server/src/core/loop-guard.ts:92-106 | answer and state of a cooldown check |
| `LoopGuard.LoopGuard.Retry` | apps/server/src/core/loop-guard.ts:111-120 | answer and state of recording a retry |
| `LoopGuard.LoopGuard.CleanupAt` | apps/server/src/core/loop-guard.ts:132-139 | the deleting loop leaves exactly the events that are not stale |
| `Gateway.EveryStateTracked` | apps/server/src/gateway/finance-gateway.ts:183-216 | waiting, decided and unrecorded requests fit together in every reachable state |
| `Gateway.EveryStateBalanced` | apps/server/src/gateway/finance-gateway.ts:144-316 | requests counted are approved, rejected or waiting; approvals are exactly the orders created; an agent's daily count is its orders since the last reset |
| `Gateway.EventKeeps` | apps/server/src/gateway/finance-gateway.ts:298-310 | induction over the subscriptions an event reaches |
| `Gateway.QuotaUnderOverlap` | apps/server/src/gateway/finance-gateway.ts:252-403 | orders of the day plus outstanding requests stay within maxDailyOrders - 1 + k, where k bounds the overlap; without overlap the daily maximum is kept |
| `Gateway.PendingCountsWaiting` | apps/server/src/gateway/finance-gateway.ts:184-341 | with distinct ids the pending count reported is the number of requests waiting |
| `Gateway.PendingWithinLimit` | apps/server/src/gateway/finance-gateway.ts:171-175 | the pending table never outgrows its limit |
| `Gateway.LimitBoundsOverlap` | apps/server/src/gateway/finance-gateway.ts:171-215 | with distinct ids the pending limit bounds the overlap |
| `Gateway.DailyOrdersBounded` | apps/server/src/gateway/finance-gateway.ts:171-403 | hence daily orders plus pending stay within maxDailyOrders - 1 + maxPendingRequests |
| `GatewayOrders.QuotaBoundIsAttained` | apps/server/src/gateway/finance-gateway.ts:171-403 | that bound is attained, for every daily maximum and every pending limit |
| `GatewayOrders.OneOrderPerKey` | apps/server/src/gateway/finance-gateway.ts:149-188 | when requests with one idempotency key never overlap, at most one order is created under each key |
| `GatewayOrders.OverlapMakesTwoOrders` | apps/server/src/gateway/finance-gateway.ts:149-188 | two requests waiting under one key, both approved, create two orders |
| `GatewayOrders.AdmissionBesideDecided` | apps/server/src/gateway/finance-gateway.ts:149-191 | a request admitted while one with its key is decided but not yet recorded: once approved, the key has two orders if and only if the first was approved |
| `GatewayOrders.EveryStateLogged` | apps/server/src/gateway/finance-gateway.ts:252-293 | orders in the log are exactly those of approved decisions, as far as they are not recorded yet |
| `Gateway.UpdateImposesDefaults` | apps/server/src/gateway/finance-gateway.ts:130-134 | an agent without permissions on file is unlimited, and any update, even an empty one, puts it under the default limits |
| `Gateway.SameOrderIsNeverPlacedAgain` | apps/server/src/gateway/finance-gateway.ts:147-150 | an order without a key of its own, once decided and recorded, is never looked at again, daily resets included |
| `GatewayOrders.EventSettlesItsOwn` | apps/server/src/gateway/finance-gateway.ts:298-310 | a risk decision that names only a correlation id settles its own request and no other |
| `GatewayOutcomes.IdentifiersAre` | apps/server/src/gateway/finance-gateway.ts:145-147 | each identifier is the first of its sources that is given and not blank, trimmed |
| `GatewayOutcomes.DefaultKeyNamesTheOrder` | apps/server/src/gateway/finance-gateway.ts:147 | the key of a request without one names agent, upper-case symbol, side, quantity and price |
| `GatewayOutcomes.UpdateChangesWhatItNames` | apps/server/src/gateway/finance-gateway.ts:130-134 | a partial update changes the fields it names, for the agent it names, over what was on file or the defaults |
| `GatewayOutcomes.AdmittedExactlyWhen` | apps/server/src/gateway/finance-gateway.ts:144-200 | a submission opens a wait if and only if it is new and every rule of admission holds, each spelled out |
| `GatewayOutcomes.TurnedAwayFor` | apps/server/src/gateway/finance-gateway.ts:158-185 | a new request that breaks a rule is rejected at once for the first rule it breaks, and counted |
| `GatewayOutcomes.RepeatedChangesNothing` | apps/server/src/gateway/finance-gateway.ts:148-152 | a repeated submission changes nothing and gets the remembered decision or the pending promise |
| `GatewayOutcomes.RiskEventDecides` | apps/server/src/gateway/finance-gateway.ts:206-316 | in every state a risk event decides exactly the waiting requests it names, each rightly: approved with a ticket where one is required gives one order and one count each; anything else counts as rejected and leaves log, approvals and daily counts alone |
| `GatewayOutcomes.TimeoutRejects` | apps/server/src/gateway/finance-gateway.ts:312-316 | a timeout rejects its own request as timed out and counts it, if it still waits |
| `GatewayOutcomes.OrderCreatedExactlyWhen` | apps/server/src/gateway/finance-gateway.ts:206-316 | in every run a step creates an order if and only if it is a risk event that names the waiting request, approves it and brings a ticket where one is required |
| `GatewayOutcomes.EveryDecisionHasItsCause` | apps/server/src/gateway/finance-gateway.ts:202-316 | every decision of every run was made by what ended the wait and is the right one for it |
| `GatewayOutcomes.FollowUpRemembers` | apps/server/src/gateway/finance-gateway.ts:189-195 | the follow-up remembers the decision under the request's key and frees its correlation id |
| `Gateway.FinanceGateway.constructor` | apps/server/src/gateway/finance-gateway.ts:103-119 | a fresh gateway |
| `Gateway.FinanceGateway.SetAgentPermissions` | apps/server/src/gateway/finance-gateway.ts:130-134 | a partial update over what is on file, or over the defaults |
| `Gateway.FinanceGateway.SubmitRequest` | apps/server/src/gateway/finance-gateway.ts:144-195 | identifiers resolved from the request, duplicate tables, checks in order, counters and the wait that is opened |
| `Gateway.FinanceGateway.Decide` | apps/server/src/gateway/finance-gateway.ts:209-296 | clean-up, counting, announcement and outcome of one decision |
| `Gateway.FinanceGateway.OnRiskEvent` | apps/server/src/gateway/finance-gateway.ts:298-310 | the loop over subscriptions settles every request the event matches |
| `Gateway.FinanceGateway.OnTimeout` | apps/server/src/gateway/finance-gateway.ts:312-316 | a timeout rejects a request that is still waiting |
| `Gateway.FinanceGateway.RecordDecision` | apps/server/src/gateway/finance-gateway.ts:185-191 | the follow-up fills the duplicate table and frees the correlation id |
| `Gateway.FinanceGateway.ResetCounts` | apps/server/src/gateway/finance-gateway.ts:465-468 | only the daily counts are forgotten |
| `Validation.NormalFormIsFixed` | apps/server/src/execution-pipeline/validation.ts:17-80 | a signal that validation has normalised passes validation again, unchanged |
| `Rules.SymbolExactlyWhen` | apps/server/src/execution-pipeline/validation.ts:28-30 | a symbol is two to twelve capitals or digits, or such a text with USDT behind it |
| `Rules.ValidExactlyWhen` | apps/server/src/execution-pipeline/validation.ts:18-88 | validation accepts exactly the orders whose fields are well formed, and normalises each to what it says |
| `Rules.DeniedExactlyWhen` | apps/server/src/execution-pipeline/permission.ts:36-67 | an order is denied on a ground if and only if that ground holds and none before it; it is permitted if and only if none of the six holds, allow lists of symbols and strategies included |
| `Gates.ReportsFirstFailure` | apps/server/src/execution-pipeline/pipeline.ts:148-386 | an execution succeeds if and only if every gate passes, and otherwise reports the first that does not, in the documented order |
| `Gates.TrailsAreHonest` | apps/server/src/execution-pipeline/pipeline.ts:148-411 | the audit trail runs in stage order, approves everything before the end and refuses there if and only if the execution failed |
| `Gates.SuccessIsWithinLimits` | apps/server/src/execution-pipeline/pipeline.ts:159-378 | what success guarantees about the signal handed in: limits, permissions, risk approval with ticket, kill switch, broker |
| `Rules.SucceedsExactlyWhen` | apps/server/src/execution-pipeline/pipeline.ts:148-391 | an execution succeeds if and only if its order meets every rule, each spelled out, and the broker accepts it: nothing gets through that should not, nothing is refused without a reason |
| `Rules.ThrowsExactlyWhen` | apps/server/src/execution-pipeline/pipeline.ts:159-241 | an exception escapes only from the kill switch, or from the hard limits of a well-formed order within its value |
| `Gates.RefusalMarkedGrantedExactlyWhen` | apps/server/src/execution-pipeline/pipeline.ts:247-270 | when risk refuses or issues no ticket, the trail says granted, wherever the execution ends, if and only if approval is not required |
| `Gates.RefusedSignalReachesBroker` | apps/server/src/execution-pipeline/pipeline.ts:247-270 | an input: a refused signal that reaches the broker |
| `Gates.GatesLeaveTrail` | apps/server/src/execution-pipeline/pipeline.ts:159-291 | the trail each verdict of the gates comes with |
| `Trails.TrailTellsTheWay` | apps/server/src/execution-pipeline/pipeline.ts:148-391 | mark by mark: a first mark that says neither, an approval for every gate behind it, and a last word that approves if and only if the execution succeeded |
| `AtMostOnce.OncePerPeriod` | apps/server/src/execution-pipeline/pipeline.ts:109-146 | at most once between resets: after any cut of any run, while nothing is reset, at most one execution started under a key reaches the broker and at most one starts if none throws, provided no older one has thrown with its follow-up still due |
| `AtMostOnce.OneBrokerCallExactlyWhenQuiet` | apps/server/src/execution-pipeline/pipeline.ts:109-146 | after a reset the broker is called at most once under a key until the next if and only if that proviso holds |
| `AtMostOnce.LateFollowUpFreesTheKey` | apps/server/src/execution-pipeline/pipeline.ts:141-144 | an input: the late follow-up of an old exception takes a new execution out of flight, and a second one starts |
| `AtMostOnce.ResetAllowsAnother` | apps/server/src/execution-pipeline/pipeline.ts:109 | in every state, a reset between two calls under a new key makes two executions |
| `AtMostOnce.SameSignalTwiceAroundReset` | apps/server/src/execution-pipeline/pipeline.ts:109 | an input: one signal, two broker calls around the daily reset |
| `AtMostOnce.SharedKeyExactlyWhen` | apps/server/src/execution-pipeline/pipeline.ts:133 | two identities share a key if and only if they are equal or one is the other with a piece moved across the colon |
| `AtMostOnce.KeysWithoutColonsDiffer` | apps/server/src/execution-pipeline/pipeline.ts:133 | correlation ids without a colon never merge distinct identities |
| `Pipeline.EveryRunFiled` | apps/server/src/execution-pipeline/pipeline.ts:132-146 | in every run, resets included: phases agree with verdicts, and a key in flight leads to an execution of that key whose follow-up is due |
| `Remembered.TablesTellTheHistory` | apps/server/src/execution-pipeline/pipeline.ts:125-146 | in every run, resets included: a key is in flight exactly from the start to the follow-up of an execution under it, and its remembered result is that of the last execution under it to be followed up with one |
| `Remembered.CallerGets` | apps/server/src/execution-pipeline/pipeline.ts:133-145 | a caller gets the remembered result, else the execution under way, else a new one |
| `Remembered.StartsExactlyWhen` | apps/server/src/execution-pipeline/pipeline.ts:125-145 | a call starts an execution, with the gates run under the counts in force, if and only if its identifiers are text and nothing is known under its key |
| `WholeExecutions.ResultAndTrailAreTheGates` | apps/server/src/execution-pipeline/pipeline.ts:148-411 | in every run: result and own audit entries of a resolved execution are those of the gates on its own signal and world, with the counts in force when it started |
| `WholeExecutions.ResolvedExecutionsAreSound` | apps/server/src/execution-pipeline/pipeline.ts:148-411 | in every run: its entries run in stage order, refuse at the end if and only if it failed, and it succeeded if and only if every gate passed |
| `WholeExecutions.SuccessKeptTheLimits` | apps/server/src/execution-pipeline/pipeline.ts:159-378 | in every run: a success kept every limit that applied to its signal when it started |
| `Rules.ResolvedSucceedsExactlyWhen` | apps/server/src/execution-pipeline/pipeline.ts:125-391 | in every run a resolved execution succeeded if and only if its order met every rule under the counts in force when it started, and the broker accepted it |
| `WholeExecutions.DailyLimitUnderOverlap` | apps/server/src/execution-pipeline/pipeline.ts:281-372 | successes of the day plus executions at the broker stay within the daily maximum less one plus the overlap |
| `AtMostOnce.BrokerAtMostOncePerKey` | apps/server/src/execution-pipeline/pipeline.ts:132-146 | the same from the beginning of a run, where nothing is older |
| `Pipeline.DailyCountsSuccesses` | apps/server/src/execution-pipeline/pipeline.ts:372 | an agent's daily count is its successful executions since the last reset, in every run |
| `Remembered.CountsTellTheHistory` | apps/server/src/execution-pipeline/pipeline.ts:372 | in every run the count is how often the broker accepted an execution of the agent since the last reset |
| `Pipeline.AuditIsFaithful` | apps/server/src/execution-pipeline/audit.ts:16-42 | the log is the suffix of all entries; an execution's audit ids are exactly the entries it recorded, in order, whatever was recorded in between, and their marks are its trail |
| `Pipeline.FiltersCompose` | apps/server/src/execution-pipeline/audit.ts:46-48 | filtering by one thing after the other is filtering by all of them |
| `Pipeline.ListingTellsTheTrail` | apps/server/src/execution-pipeline/audit.ts:44-51 | asked for the ids of an execution that shares them with no other, a log that dropped nothing lists exactly its trail |
| `Trails.StoreKeepsTheLatest` | apps/server/src/execution-pipeline/audit.ts:29-31 | in every run the log keeps the latest five thousand entries |
| `Trails.ListingExactlyWhen` | apps/server/src/execution-pipeline/audit.ts:44-51 | a listing is the entries that match every filter given, in order, cut to the limit |
| `Trails.KeyExactlyWhen` | apps/server/src/execution-pipeline/pipeline.ts:127-133 | a call has a key unless an identifier is neither text nor absent, and runs under the first trimmed identifiers it brings, generated ones standing in |
| `Pipeline.PipelineAuditLog.Record` | apps/server/src/execution-pipeline/audit.ts:16-42 | push and splice keep the latest 5000 entries |
| `Pipeline.PipelineAuditLog.List` | apps/server/src/execution-pipeline/audit.ts:44-51 | filters, then the limit, negative limits included |
| `Pipeline.PipelineAuditLog.Clear` | apps/server/src/execution-pipeline/audit.ts:61-63 | empties the log |
| `Pipeline.ExecutionPipeline.constructor` | apps/server/src/execution-pipeline/pipeline.ts:58-62 | a fresh pipeline |
| `Pipeline.ExecutionPipeline.PushAudit` | apps/server/src/execution-pipeline/pipeline.ts:150-157 | records an entry and appends its id to the execution's own list |
| `Pipeline.ExecutionPipeline.CheckSignal` | apps/server/src/execution-pipeline/pipeline.ts:159-229 | the gates before risk, with their marks: where one stops the execution, or the signal that gets past them all |
| `Pipeline.ExecutionPipeline.AssessSignal` | apps/server/src/execution-pipeline/pipeline.ts:231-298 | risk and permission, with their marks |
| `Pipeline.ExecutionPipeline.ExecuteInternal` | apps/server/src/execution-pipeline/pipeline.ts:148-298 | the gates one after the other: the verdict and the marks left on the way are the specification's |
| `Pipeline.ExecutionPipeline.Execute` | apps/server/src/execution-pipeline/pipeline.ts:125-146 | a remembered result, the promise in flight, or a new execution |
| `Pipeline.ExecutionPipeline.OnBrokerAnswer` | apps/server/src/execution-pipeline/pipeline.ts:354-385 | result, mark and daily count after the broker's answer |
| `Pipeline.ExecutionPipeline.OnSettled` | apps/server/src/execution-pipeline/pipeline.ts:141-144 | a result is remembered, an exception is not, and the key leaves the table in flight |
| `Pipeline.ExecutionPipeline.ResetDailyCounts` | apps/server/src/execution-pipeline/pipeline.ts:109 | counts and both duplicate tables are forgotten |
| `Approvals.OneExecutionPerProposal` | apps/server/src/approvals/approval-service.ts:166-219 | at most once between resets, across both components: after any cut, two approvals of a proposal whose plan is absent or non-blank, whose executions started since, never reach the broker through different executions, and start only one if nothing throws, under the same proviso |
| `Approvals.OneExecutionBetweenResets` | apps/server/src/approvals/approval-service.ts:166-219 | hence for the approvals made between a reset and the next |
| `Approvals.ResetBetweenApprovalsExecutesTwice` | apps/server/src/approvals/approval-service.ts:166-219 | a reset between two approvals makes two executions under the same key, in every reachable state |
| `Approvals.BlankPlanExecutesTwice` | apps/server/src/approvals/approval-service.ts:208 | with any blank plan, in every reachable state, two approvals that draw different generated ids start two executions |
| `Approvals.EveryRunSound` | apps/server/src/approvals/approval-service.ts:107-279 | the invariant behind it, in every run, resets included: ids are fresh, and what a claim waits for runs under the key of its proposal |
| `Approvals.IdsDiffer` | apps/server/src/approvals/approval-service.ts:109-111 | no two proposals get the same id, whatever the clock says |
| `Approvals.DecisionIsFinalExactlyWhen` | apps/server/src/approvals/approval-service.ts:166-279 | a decision stands through every continuation of a run if and only if no approval of the proposal is still waiting |
| `Approvals.RejectedYetApproved` | apps/server/src/approvals/approval-service.ts:247-279 | a proposal rejected while an approval waits ends up approved |
| `Approvals.ApprovalsAreJustified` | apps/server/src/approvals/approval-service.ts:171-249 | in every run an approved proposal carries the outcome one of its own approvals resumed with, and no approval goes ahead after expiry |
| `OwnOrders.ApprovedExecutedItsOwn` | apps/server/src/approvals/approval-service.ts:166-258 | in every run whose other calls leave the keys of proposals alone: an approved proposal carries the result of an execution under its own key, which took to the broker only the proposal's own symbol, side, quantity and price; the one exception is a result the factory handed over itself |
| `OwnOrders.ForeignOrderTakesItsPlace` | apps/server/src/approvals/approval-service.ts:186-214 | the proviso is needed: a call made past the service under an unused key of a proposal, for any other quantity, is what the approval that follows waits for |
| `Decisions.ApprovalExactlyWhen` | apps/server/src/approvals/approval-service.ts:166-258 | an approval goes ahead if and only if its proposal is pending and in time after the sweep, and then asks for the proposal's own order; it expires when read too late, fails when the factory throws |
| `Decisions.RefusedExactlyWhen` | apps/server/src/approvals/approval-service.ts:170-203 | the refusal a caller of approve gets is the one whose ground there is, and there is at most one |
| `Decisions.DeliveryDecides` | apps/server/src/approvals/approval-service.ts:206-247 | what the promise of a factory comes to: a pipeline is asked for the order, a value approves, nothing leaves the proposal pending, a rejection fails it |
| `Decisions.ExecutionDecides` | apps/server/src/approvals/approval-service.ts:204-247 | a claim whose execution is over approves its proposal with the result, or fails it when an exception escaped |
| `Decisions.SweepExpires` | apps/server/src/approvals/approval-service.ts:149-164 | sweeping expires exactly the pending proposals whose time is over |
| `Decisions.RejectionExactlyWhen` | apps/server/src/approvals/approval-service.ts:260-281 | rejecting takes effect if and only if the proposal is pending and in time |
| `Decisions.ProposalIsPending` | apps/server/src/approvals/approval-service.ts:107-135 | a new proposal is pending under its own id until its time to live is over |
| `Approvals.ApprovalService.constructor` | apps/server/src/approvals/approval-service.ts:40-46 | a fresh service |
| `Approvals.ApprovalService.ProposeTrade` | apps/server/src/approvals/approval-service.ts:107-135 | a pending proposal under a new id |
| `Approvals.ApprovalService.SweepExpired` | apps/server/src/approvals/approval-service.ts:149-164 | the loop expires exactly the pending proposals that are due |
| `Approvals.ApprovalService.ApproveProposal` | apps/server/src/approvals/approval-service.ts:166-231 | sweep, the refusals in order, the factory, and the hand-over to the pipeline |
| `Approvals.ApprovalService.OnFactory` | apps/server/src/approvals/approval-service.ts:220-246 | what the promise of a factory delivers: a pipeline, a result, nothing, or a rejection |
| `Approvals.ApprovalService.OnExecuted` | apps/server/src/approvals/approval-service.ts:233-249 | approved with the result, or failed |
| `Approvals.ApprovalService.RejectProposal` | apps/server/src/approvals/approval-service.ts:260-279 | sweep, then rejected if pending |
| `WriteQueue.EveryRunSerial` | apps/server/src/llm/persistence.ts:50-66 | in every interleaving: each link follows the previous write to its path or starts when all are done, writes finish in order, and a queue entry is the last write to its path |
| `WriteQueue.WritesRunInEnqueueOrder` | apps/server/src/llm/persistence.ts:50-66 | writes to a path run once each in enqueue order whatever fails, and all of them have run once its queue entry is gone |
| `WriteQueue.FileHoldsLatest` | apps/server/src/llm/persistence.ts:50-66 | the file holds the payload of the last enqueued write that succeeded |
| `WriteQueue.NothingStalls` | apps/server/src/llm/persistence.ts:51-58 | the first outstanding write to a path is always due, also after a failed one |
| `WriteHistory.FilesTellTheHistory` | apps/server/src/llm/persistence.ts:50-64 | told from the history alone: a write runs when every earlier write to its path has and not before, a file holds the payload of the last that ran and succeeded, and a queue entry lives until its last write is cleaned up after |
| `WriteQueue.AgentPersistence.constructor` | apps/server/src/llm/persistence.ts:15-19 | nothing queued |
| `WriteQueue.AgentPersistence.EnqueueWrite` | apps/server/src/llm/persistence.ts:50-60 | chains behind the path's last write and becomes its last |
| `WriteQueue.AgentPersistence.OnPreviousSettled` | apps/server/src/llm/persistence.ts:51-58 | the write runs when the one before it has settled either way |
| `WriteQueue.AgentPersistence.OnTailSettled` | apps/server/src/llm/persistence.ts:61-64 | drops the queue entry only when it is still this write's |
| `RunLock.AtMostOneAgentActive` | apps/server/src/llm/agent-runtime.ts:721-736 | in every reachable state at most one agent holds a lock, for a run of its own that has not finished |
| `RunLock.FinishingReleasesOnlyItsOwn` | apps/server/src/llm/agent-runtime.ts:935-937 | a run that ends gives back its own lock and never that of a newer run |
| `RunLock.StartSilencesOthers` | apps/server/src/llm/agent-runtime.ts:655-662 | starting a run aborts the holder of another agent |
| `RunLock.ExclusionLostExactlyBySelfRestart` | apps/server/src/llm/agent-runtime.ts:721-726 | the holder stays the only run able to act unless the agent of an acting run starts another: if and only if |
| `RunLock.SupersededRunIsOutOfReach` | apps/server/src/llm/agent-runtime.ts:647-669 | a run superseded by its own agent can no longer be cancelled; only its caller or its own end stops it |
| `RunLock.EscapedRunKeepsLock` | apps/server/src/llm/agent-runtime.ts:739-766 | a run that throws before its guarded block keeps the lock |
| `RunLock.EveryRunExclusive` | apps/server/src/llm/agent-runtime.ts:253-260 | the invariant behind these: the lock is the latest run's, and a run acting without it was superseded by its agent's very next run |
| `LockHistory.OneLockTellsAll` | apps/server/src/llm/agent-runtime.ts:647-672 | in every reachable state the table of locks is one lock: the last run started, unless given up, cancelled or finished since; a run is aborted exactly when cancelled while it held that lock or aborted by its caller |
| `LockHistory.CancellationExactlyWhen` | apps/server/src/llm/agent-runtime.ts:647-669 | cancelling one agent, all others or all aborts the holder and frees its lock if it is reached, and changes nothing otherwise |
| `RunLock.FindUnusedId` | apps/server/src/llm/agent-runtime.ts:623-625 | the search ends with the first unused candidate, after at most as many tries as there are agents |
| `RunLock.CandidatesDiffer` | apps/server/src/llm/agent-runtime.ts:623-625 | all candidates are different |
| `RunLock.AgentRuntime.constructor` | apps/server/src/llm/agent-runtime.ts:93-120 | no run active |
| `RunLock.AgentRuntime.StopAgent` | apps/server/src/llm/agent-runtime.ts:254-260 | aborts the holder and takes its lock, answering whether there was one |
| `RunLock.AgentRuntime.CancelOtherAgents` | apps/server/src/llm/agent-runtime.ts:655-662 | the loop cancels every agent but one |
| `RunLock.AgentRuntime.CancelAllAgents` | apps/server/src/llm/agent-runtime.ts:664-669 | the loop cancels every agent |
| `RunLock.AgentRuntime.BeginRun` | apps/server/src/llm/agent-runtime.ts:724-732 | others cancelled, lock taken, given back at once when the caller had already aborted |
| `RunLock.AgentRuntime.EndRun` | apps/server/src/llm/agent-runtime.ts:935-937 | gives the lock back only if it is still this run's |
| `RunLock.AgentRuntime.OnCallerAbort` | apps/server/src/llm/agent-runtime.ts:733 | aborts the run, not its lock |
| `RunLock.AgentRuntime.DuplicateAgent` | apps/server/src/llm/agent-runtime.ts:620-645 | the copy is stored under the first candidate not in use and nothing else changes |

## Left out

Arithmetic and text:
- Floating point, and the rounding of reported metrics to two or three decimals: amounts are exact reals.
- Growth rate, volatility, Sharpe and Sortino ratios: they need roots and powers.
- Letter case and white space outside ASCII, except the white space that trimming recognises; characters outside the basic plane count as one here and as two in the source.
- JSON parsing and printing: a decoder is any partial function from text to messages, a body any text.

Backtester:
- Symbols, order types and reason texts inside orders, fills and results; the strategy is a pure function of the window, so strategies with state of their own are not covered.

Order admission:
- The risk agent, broker, hard limits, kill switch, ticket issuing and routing: arbitrary answers. Clocks and generated ids are parameters.
- The order manager and the table of its idempotency keys (`apps/server/src/execution-pipeline/pipeline.ts:302-339`): an exception in it is a broker exception here.
- Events on the bus other than `order.created`, the history of the last 2000 decisions, and reason texts.
- Handlers that call back into the same object while an event is being published; the exception handlers are assumed not to throw themselves.
- The text that a number prints as inside a default idempotency key: any function of the number. Permission to cancel orders, which admission does not read.
- A proposal lives in the map and not as a shared object; a claim names it by its id, which is never reused.
- `PipelineAuditLog` forwarding to the bus, and the caller-supplied ids and times of its entries: an entry's id is its number.

Streams and serialisation:
- Spawning, signals, events of a task other than its output, session states, subscriber sets (one observer list stands for them all) and errors thrown by subscribers.
- `WriteQueue.FileHoldsLatest`: a write that fails is taken to leave the file as it was, which is what the atomic rename (`apps/server/src/atomic.ts`) is for.
- The run between taking and giving back the lock: routing, the tool loop and conversations; abort listeners that act synchronously.
- `RunLock.AgentRuntime.DuplicateAgent`: an agent has five fields here; the others are copied by the source unchanged.
- HTTP routes, event streams, dashboards, WebSockets, provider calls, registries, bot and connection stores, and chat: input and output, or easy members.
