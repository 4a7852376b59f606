/** The bar loop: a pending fill, the strategy's advice, an exit or an entry, and a mark to market. */
module BacktestEngine {
  import opened Common
  import opened ExecutionSimulator
  import Metrics

  datatype Mode = NextBarOpen | CurrentBarClose

  /** A strategy's answer; `side` is None for "hold". */
  datatype Advice = Advice(side: Option<Side>, confidence: real)

  /** Any deterministic strategy: it only ever sees the window of closes it is handed. */
  type Strategy = seq<real> -> Advice

  datatype Settings = Settings(initialCapital: real, config: Config, mode: Mode, riskPerTradePct: real)

  datatype Position = Position(side: Side, entryPrice: real, quantity: real, entryTime: real)

  datatype Trade = Trade(entryPrice: real, exitPrice: real, side: Side, quantity: real, pnl: real, fees: real,
                         entryTime: real, exitTime: real)

  datatype Book = Book(capital: real, position: Option<Position>, pending: Option<Order>, trades: seq<Trade>)

  datatype Run = Run(book: Book, equityCurve: seq<real>)

  // ---------------------------------------------------------------------------------------------
  // One bar

  /** The result of the position if it ended at this price, before any fee. */
  function Unrealized(p: Position, price: real): real {
    if p.side == Buy then (price - p.entryPrice) * p.quantity else (p.entryPrice - price) * p.quantity
  }

  function ProfitAndLoss(p: Position, exitPrice: real, fee: real): real { Unrealized(p, exitPrice) - fee }

  function ClosePosition(b: Book, p: Position, fill: Fill, time: real): Book {
    if !fill.filled then b
    else
      var pnl := ProfitAndLoss(p, fill.fillPrice, fill.fee);
      b.(capital := b.capital + (pnl + Amount(p.entryPrice, p.quantity)),
         position := None,
         trades := b.trades + [Trade(p.entryPrice, fill.fillPrice, p.side, p.quantity, pnl, fill.fee, p.entryTime, time)])
  }

  function OpenPosition(b: Book, side: Side, fill: Fill, time: real): Book {
    if !fill.filled || fill.filledQuantity <= 0.0 then b
    else
      b.(capital := b.capital - (Amount(fill.fillPrice, fill.filledQuantity) + fill.fee),
         position := Some(Position(side, fill.fillPrice, fill.filledQuantity, time)))
  }

  /** Step 1: an order left by the previous bar executes at this bar's open. */
  function ExecutePending(s: Settings, b: Book, c: Candle): Book {
    if s.mode != NextBarOpen || b.pending.None? then b
    else
      var fill := FillMarketOrder(s.config, b.pending.value, c, b.capital, Some(c.open));
      var after := match b.position
                   case Some(p) => ClosePosition(b, p, fill, c.timestamp)
                   case None => OpenPosition(b, b.pending.value.side, fill, c.timestamp);
      after.(pending := None)
  }

  function ExitOrder(p: Position, c: Candle): Order {
    Order(p.side.Opposite(), p.quantity, None, c.timestamp)
  }

  /** Step 3a: advice against the open position schedules, or immediately fills, its exit. */
  function HandleExit(s: Settings, b: Book, c: Candle, advice: Advice): Book {
    if b.position.None? || advice.side != Some(b.position.value.side.Opposite()) then b
    else
      var order := ExitOrder(b.position.value, c);
      if s.mode == NextBarOpen then b.(pending := Some(order))
      else
        ClosePosition(b, b.position.value, FillMarketOrder(s.config, order, c, b.capital, Some(c.close)), c.timestamp)
  }

  function RiskAmount(capital: real, pct: real): real { capital * pct }

  function TargetQuantity(riskAmount: real, approxPrice: real): int {
    if approxPrice > 0.0 then (riskAmount / approxPrice).Floor else 0
  }

  function Notional(price: real, units: int): real { price * units as real }

  /** Step 3b: confident advice with nothing open and nothing pending schedules, or fills, an entry. */
  function HandleEntry(s: Settings, b: Book, c: Candle, advice: Advice): Book {
    if b.position.Some? || b.pending.Some? || advice.side.None? || advice.confidence <= 0.5 then b
    else
      var target := TargetQuantity(RiskAmount(b.capital, s.riskPerTradePct), c.close);
      if target <= 0 || Notional(c.close, target) >= b.capital * 0.5 then b
      else
        var order := Order(advice.side.value, target as real, None, c.timestamp);
        if s.mode == NextBarOpen then b.(pending := Some(order))
        else
          OpenPosition(b, order.side, FillMarketOrder(s.config, order, c, b.capital, Some(c.close)), c.timestamp)
  }

  /** Step 4: what the book is worth at a price. */
  function Equity(capital: real, position: Option<Position>, price: real): real {
    match position
    case None => capital
    case Some(p) => capital + (Amount(p.entryPrice, p.quantity) + Unrealized(p, price))
  }

  /** Step 2: the closes of the `lookback` bars before bar i. */
  function Window(candles: seq<Candle>, lookback: nat, i: nat): seq<real>
    requires i <= |candles|
  {
    var from := if i < lookback then 0 else i - lookback;
    seq(i - from, k requires 0 <= k < i - from => candles[from + k].close)
  }

  function BarBook(s: Settings, b: Book, c: Candle, advice: Advice): Book {
    HandleEntry(s, HandleExit(s, ExecutePending(s, b, c), c, advice), c, advice)
  }

  function Bar(s: Settings, r: Run, c: Candle, advice: Advice): Run {
    var b := BarBook(s, r.book, c, advice);
    Run(b, r.equityCurve + [Equity(b.capital, b.position, c.close)])
  }

  function Start(s: Settings): Run { Run(Book(s.initialCapital, None, None, []), []) }

  /** The run just before bar n; the first `lookback` bars only feed the window. */
  function RunTo(s: Settings, strategy: Strategy, candles: seq<Candle>, lookback: nat, n: nat): Run
    requires n <= |candles|
  {
    if n <= lookback then Start(s)
    else
      Bar(s, RunTo(s, strategy, candles, lookback, n - 1), candles[n - 1], strategy(Window(candles, lookback, n - 1)))
  }

  /** What a closed trade contributes to the analysis. */
  function Outcomes(trades: seq<Trade>): seq<Metrics.Outcome> {
    seq(|trades|, k requires 0 <= k < |trades| => Metrics.Outcome(trades[k].pnl, trades[k].fees))
  }

  // ---------------------------------------------------------------------------------------------
  // The engine

  datatype Params = Params(initialCapital: Option<real>, feeRate: Option<real>, makerFeeRate: Option<real>,
                           takerFeeRate: Option<real>, slippage: Option<real>, slippageBps: Option<real>,
                           spreadBps: Option<real>, maxVolumeParticipation: Option<real>, mode: Option<Mode>,
                           riskPerTradePct: Option<real>)

  /** A parameter tested for truth rather than presence: zero counts as absent. */
  function Truthy(o: Option<real>, default: real): real {
    if o.Some? && o.value != 0.0 then o.value else default
  }

  function Configure(p: Params): Settings {
    var taker := p.takerFeeRate.GetOr(p.feeRate.GetOr(DEFAULT_CONFIG.takerFeeRate));
    var slippageBps := p.slippageBps.GetOr(
      if p.slippage.Some? && p.slippage.value != 0.0 then p.slippage.value * 10000.0 else DEFAULT_CONFIG.slippageBps);
    Settings(Truthy(p.initialCapital, 100000.0),
             Config(slippageBps, p.spreadBps.GetOr(DEFAULT_CONFIG.spreadBps), p.makerFeeRate.GetOr(taker * 0.5), taker,
                    p.maxVolumeParticipation.GetOr(DEFAULT_CONFIG.maxVolumeParticipation), DEFAULT_CONFIG.minNotional),
             p.mode.GetOr(NextBarOpen), Truthy(p.riskPerTradePct, 0.01))
  }

  /** Asking for zero slippage by `slippage` alone is not honoured: the default of 5 basis points applies. */
  lemma ZeroSlippageNeedsBasisPoints(p: Params)
    requires p.slippage == Some(0.0)
    ensures Configure(p).config.slippageBps == 0.0 <==> p.slippageBps == Some(0.0)
  {
  }

  /** A parameter that counts: given, and not zero. */
  predicate Given(o: Option<real>, value: real) { o == Some(value) && value != 0.0 }

  /** Every setting is the parameter that was given for it, or its documented default. */
  lemma SettingsExactlyWhen(p: Params)
    ensures var s := Configure(p);
            && (Given(p.initialCapital, s.initialCapital)
                || (s.initialCapital == 100000.0 && p.initialCapital.GetOr(0.0) == 0.0))
            && (Given(p.riskPerTradePct, s.riskPerTradePct)
                || (s.riskPerTradePct == 0.01 && p.riskPerTradePct.GetOr(0.0) == 0.0))
            && (p.mode == Some(s.mode) || (p.mode.None? && s.mode == NextBarOpen))
    ensures var c := Configure(p).config;
            && (p.slippageBps == Some(c.slippageBps) || p.slippageBps.None?)
            && (p.slippageBps.None? ==>
                  Given(p.slippage, c.slippageBps / 10000.0) || (c.slippageBps == 5.0 && p.slippage.GetOr(0.0) == 0.0))
            && (p.spreadBps == Some(c.spreadBps) || (p.spreadBps.None? && c.spreadBps == 4.0))
            && (p.maxVolumeParticipation == Some(c.maxVolumeParticipation)
                || (p.maxVolumeParticipation.None? && c.maxVolumeParticipation == 0.1))
            && c.minNotional == 5.0
    ensures var c := Configure(p).config;
            && (p.takerFeeRate == Some(c.takerFeeRate) || p.takerFeeRate.None?)
            && (p.takerFeeRate.None? ==> p.feeRate == Some(c.takerFeeRate) || (p.feeRate.None? && c.takerFeeRate == 0.001))
            && (p.makerFeeRate == Some(c.makerFeeRate)
                || (p.makerFeeRate.None? && c.makerFeeRate + c.makerFeeRate == c.takerFeeRate))
  {
  }

  datatype Result = Result(equityCurve: seq<real>, trades: seq<Trade>, startDate: real, endDate: real,
                           metrics: Option<Metrics.Report>)

  class Engine {
    var initialCapital: real
    var config: Config
    var executionMode: Mode
    var riskPerTradePct: real

    function Current(): Settings
      reads this
    {
      Settings(initialCapital, config, executionMode, riskPerTradePct)
    }

    constructor (params: Params)
      ensures Current() == Configure(params)
    {
      initialCapital := 100000.0;
      if params.initialCapital.Some? && params.initialCapital.value != 0.0 {
        initialCapital := params.initialCapital.value;
      }
      riskPerTradePct := 0.01;
      if params.riskPerTradePct.Some? && params.riskPerTradePct.value != 0.0 {
        riskPerTradePct := params.riskPerTradePct.value;
      }
      executionMode := params.mode.GetOr(NextBarOpen);
      var slippageBps := params.slippageBps.GetOr(
        if params.slippage.Some? && params.slippage.value != 0.0 then params.slippage.value * 10000.0
        else DEFAULT_CONFIG.slippageBps);
      var takerFeeRate := params.takerFeeRate.GetOr(params.feeRate.GetOr(DEFAULT_CONFIG.takerFeeRate));
      config := Config(slippageBps, params.spreadBps.GetOr(DEFAULT_CONFIG.spreadBps),
                       params.makerFeeRate.GetOr(takerFeeRate * 0.5), takerFeeRate,
                       params.maxVolumeParticipation.GetOr(DEFAULT_CONFIG.maxVolumeParticipation),
                       DEFAULT_CONFIG.minNotional);
    }

    /** Step 1 of a bar, on the loop's local variables. */
    method FillPending(capital: real, position: Option<Position>, pendingOrder: Option<Order>, trades: seq<Trade>,
                       candle: Candle)
      returns (capital': real, position': Option<Position>, pendingOrder': Option<Order>, trades': seq<Trade>)
      ensures Book(capital', position', pendingOrder', trades')
           == ExecutePending(Current(), Book(capital, position, pendingOrder, trades), candle)
    {
      capital', position', pendingOrder', trades' := capital, position, pendingOrder, trades;
      if executionMode == NextBarOpen && pendingOrder.Some? {
        var fill := FillMarketOrder(config, pendingOrder.value, candle, capital, Some(candle.open));
        if position.Some? {
          if fill.filled {
            capital', trades' := RecordExit(capital, trades, position.value, fill, candle.timestamp);
            position' := None;
          }
        } else {
          if fill.filled && fill.filledQuantity > 0.0 {
            capital' := capital - (Amount(fill.fillPrice, fill.filledQuantity) + fill.fee);
            position' := Some(Position(pendingOrder.value.side, fill.fillPrice, fill.filledQuantity, candle.timestamp));
          }
        }
        pendingOrder' := None;
      }
    }

    /** The exit half of step 3. */
    method FollowExitSignal(capital: real, position: Option<Position>, pendingOrder: Option<Order>, trades: seq<Trade>,
                            candle: Candle, advice: Advice)
      returns (capital': real, position': Option<Position>, pendingOrder': Option<Order>, trades': seq<Trade>)
      ensures Book(capital', position', pendingOrder', trades')
           == HandleExit(Current(), Book(capital, position, pendingOrder, trades), candle, advice)
    {
      capital', position', pendingOrder', trades' := capital, position, pendingOrder, trades;
      if position.Some? {
        var p := position.value;
        var shouldExit := (p.side == Buy && advice.side == Some(Sell)) || (p.side == Sell && advice.side == Some(Buy));
        if shouldExit {
          var order := Order(if p.side == Buy then Sell else Buy, p.quantity, None, candle.timestamp);
          if executionMode == NextBarOpen {
            pendingOrder' := Some(order);
          } else {
            var fill := FillMarketOrder(config, order, candle, capital, Some(candle.close));
            if fill.filled {
              capital', trades' := RecordExit(capital, trades, p, fill, candle.timestamp);
              position' := None;
            }
          }
        }
      }
    }

    /** The entry half of step 3. */
    method FollowEntrySignal(capital: real, position: Option<Position>, pendingOrder: Option<Order>, trades: seq<Trade>,
                             candle: Candle, advice: Advice)
      returns (capital': real, position': Option<Position>, pendingOrder': Option<Order>)
      ensures Book(capital', position', pendingOrder', trades)
           == HandleEntry(Current(), Book(capital, position, pendingOrder, trades), candle, advice)
    {
      capital', position', pendingOrder' := capital, position, pendingOrder;
      if position.None? && pendingOrder.None? && advice.side.Some? && advice.confidence > 0.5 {
        var riskAmount := RiskAmount(capital, riskPerTradePct);
        var approxPrice := candle.close;
        var targetQuantity := if approxPrice > 0.0 then (riskAmount / approxPrice).Floor else 0;
        if targetQuantity > 0 && Notional(approxPrice, targetQuantity) < capital * 0.5 {
          var order := Order(advice.side.value, targetQuantity as real, None, candle.timestamp);
          if executionMode == NextBarOpen {
            pendingOrder' := Some(order);
          } else {
            var fill := FillMarketOrder(config, order, candle, capital, Some(candle.close));
            if fill.filled && fill.filledQuantity > 0.0 {
              capital' := capital - (Amount(fill.fillPrice, fill.filledQuantity) + fill.fee);
              position' := Some(Position(advice.side.value, fill.fillPrice, fill.filledQuantity, candle.timestamp));
            }
          }
        }
      }
    }

    /** One pass through the body of the bar loop. */
    method NextBar(capital: real, position: Option<Position>, pendingOrder: Option<Order>, trades: seq<Trade>,
                   equityCurve: seq<real>, candle: Candle, advice: Advice)
      returns (capital': real, position': Option<Position>, pendingOrder': Option<Order>, trades': seq<Trade>,
               equityCurve': seq<real>)
      ensures Run(Book(capital', position', pendingOrder', trades'), equityCurve')
           == Bar(Current(), Run(Book(capital, position, pendingOrder, trades), equityCurve), candle, advice)
    {
      capital', position', pendingOrder', trades' := FillPending(capital, position, pendingOrder, trades, candle);
      capital', position', pendingOrder', trades' :=
        FollowExitSignal(capital', position', pendingOrder', trades', candle, advice);
      capital', position', pendingOrder' :=
        FollowEntrySignal(capital', position', pendingOrder', trades', candle, advice);
      var equity := MarkToMarket(capital', position', candle.close);
      equityCurve' := equityCurve + [equity];
    }

    /** The bar loop over local variables. */
    method RunBars(strategy: Strategy, candles: seq<Candle>, lookback: nat)
      returns (equityCurve: seq<real>, trades: seq<Trade>)
      ensures var run := RunTo(Current(), strategy, candles, lookback, |candles|);
              equityCurve == run.equityCurve && trades == run.book.trades
    {
      var capital := initialCapital;
      var position: Option<Position> := None;
      var pendingOrder: Option<Order> := None;
      trades, equityCurve := [], [];
      var i: nat := lookback;
      while i < |candles|
        invariant lookback <= i && (i <= |candles| || i == lookback)
        invariant Run(Book(capital, position, pendingOrder, trades), equityCurve)
               == RunTo(Current(), strategy, candles, lookback, if i <= |candles| then i else |candles|)
      {
        capital, position, pendingOrder, trades, equityCurve :=
          NextBar(capital, position, pendingOrder, trades, equityCurve, candles[i], strategy(Window(candles, lookback, i)));
        i := i + 1;
      }
    }

    /** The whole backtest: the bars, then the metrics. */
    method RunBacktest(strategy: Strategy, candles: seq<Candle>, lookback: nat) returns (result: Result)
      ensures candles == [] ==> result == Result([initialCapital], [], 0.0, 0.0, None)
      ensures candles != [] ==>
                var run := RunTo(Current(), strategy, candles, lookback, |candles|);
                && result.equityCurve == run.equityCurve && result.trades == run.book.trades
                && result.startDate == candles[0].timestamp && result.endDate == candles[|candles| - 1].timestamp
                && result.metrics == Some(Metrics.Summary(initialCapital, run.equityCurve, Outcomes(run.book.trades),
                                                          result.startDate, result.endDate))
    {
      if candles == [] {
        return Result([initialCapital], [], 0.0, 0.0, None);
      }
      var equityCurve, trades := RunBars(strategy, candles, lookback);
      var startDate, endDate := candles[0].timestamp, candles[|candles| - 1].timestamp;
      var report := Metrics.Calculate(initialCapital, equityCurve, Outcomes(trades), startDate, endDate);
      result := Result(equityCurve, trades, startDate, endDate, Some(report));
    }
  }

  /** Step 4 of a bar. */
  method MarkToMarket(capital: real, position: Option<Position>, close: real) returns (equity: real)
    ensures equity == Equity(capital, position, close)
  {
    equity := capital;
    if position.Some? {
      var p := position.value;
      var unrealized;
      if p.side == Buy {
        unrealized := (close - p.entryPrice) * p.quantity;
      } else {
        unrealized := (p.entryPrice - close) * p.quantity;
      }
      assert unrealized == Unrealized(p, close);
      equity := equity + (Amount(p.entryPrice, p.quantity) + unrealized);
    }
  }

  /** The bookkeeping of an executed exit, shared by both execution modes. */
  method RecordExit(capital: real, trades: seq<Trade>, p: Position, fill: Fill, time: real)
    returns (newCapital: real, newTrades: seq<Trade>)
    requires fill.filled
    ensures forall pending :: ClosePosition(Book(capital, Some(p), pending, trades), p, fill, time)
                           == Book(newCapital, None, pending, newTrades)
  {
    var pnl;
    if p.side == Buy {
      pnl := (fill.fillPrice - p.entryPrice) * p.quantity - fill.fee;
    } else {
      pnl := (p.entryPrice - fill.fillPrice) * p.quantity - fill.fee;
    }
    assert pnl == ProfitAndLoss(p, fill.fillPrice, fill.fee);
    newCapital := capital + (pnl + Amount(p.entryPrice, p.quantity));
    newTrades := trades + [Trade(p.entryPrice, fill.fillPrice, p.side, p.quantity, pnl, fill.fee, p.entryTime, time)];
  }
}
