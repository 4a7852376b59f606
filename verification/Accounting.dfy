/** Where the money goes: the accounting identity, and what the two averages of a report leave out. */
module Accounting {
  import opened Common
  import opened ExecutionSimulator
  import opened BacktestEngine
  import Metrics

  // ---------------------------------------------------------------------------------------------
  // The accounting identity

  /** Fees paid when the positions behind the closed trades were opened; no trade's pnl contains them. */
  function EntryFees(s: Settings, trades: seq<Trade>): real {
    if trades == [] then 0.0
    else
      var t := trades[|trades| - 1];
      EntryFees(s, trades[..|trades| - 1]) + Fee(t.entryPrice, s.config.takerFeeRate, t.quantity)
  }

  function OpenFee(s: Settings, position: Option<Position>): real {
    match position
    case None => 0.0
    case Some(p) => Fee(p.entryPrice, s.config.takerFeeRate, p.quantity)
  }

  function OpenNotional(position: Option<Position>): real {
    match position
    case None => 0.0
    case Some(p) => Amount(p.entryPrice, p.quantity)
  }

  function TradePnl(trades: seq<Trade>): real { Metrics.SumPnl(Outcomes(trades)) }

  ghost predicate Balanced(s: Settings, b: Book) {
    b.capital == s.initialCapital + TradePnl(b.trades) - EntryFees(s, b.trades)
                 - OpenFee(s, b.position) - OpenNotional(b.position)
  }

  lemma PnlOfOneMore(trades: seq<Trade>, t: Trade)
    ensures TradePnl(trades + [t]) == TradePnl(trades) + t.pnl
  {
    assert Outcomes(trades + [t])[..|trades|] == Outcomes(trades);
  }

  lemma CloseKeepsBalance(s: Settings, b: Book, fill: Fill, time: real)
    requires Balanced(s, b) && b.position.Some?
    ensures Balanced(s, ClosePosition(b, b.position.value, fill, time))
  {
    if fill.filled {
      var b' := ClosePosition(b, b.position.value, fill, time);
      PnlOfOneMore(b.trades, b'.trades[|b.trades|]);
      assert b'.trades[..|b.trades|] == b.trades;
    }
  }

  lemma OpenKeepsBalance(s: Settings, b: Book, order: Order, c: Candle, base: real, time: real)
    requires Balanced(s, b) && b.position.None?
    ensures Balanced(s, OpenPosition(b, order.side, FillMarketOrder(s.config, order, c, b.capital, Some(base)), time))
  {
  }

  lemma BarKeepsBalance(s: Settings, b: Book, c: Candle, advice: Advice)
    requires Balanced(s, b)
    ensures Balanced(s, BarBook(s, b, c, advice))
  {
    var b1 := ExecutePending(s, b, c);
    if s.mode == NextBarOpen && b.pending.Some? {
      if b.position.Some? {
        CloseKeepsBalance(s, b, FillMarketOrder(s.config, b.pending.value, c, b.capital, Some(c.open)), c.timestamp);
      } else {
        OpenKeepsBalance(s, b, b.pending.value, c, c.open, c.timestamp);
      }
    }
    assert Balanced(s, b1);
    var b2 := HandleExit(s, b1, c, advice);
    if b1.position.Some? {
      var order := ExitOrder(b1.position.value, c);
      CloseKeepsBalance(s, b1, FillMarketOrder(s.config, order, c, b1.capital, Some(c.close)), c.timestamp);
    }
    assert Balanced(s, b2);
    if b2.position.None? && advice.side.Some? {
      var target := TargetQuantity(RiskAmount(b2.capital, s.riskPerTradePct), c.close);
      OpenKeepsBalance(s, b2, Order(advice.side.value, target as real, None, c.timestamp), c, c.close, c.timestamp);
    }
  }

  lemma {:induction false} EveryBarBalanced(s: Settings, strategy: Strategy, candles: seq<Candle>, lookback: nat, n: nat)
    requires n <= |candles|
    ensures Balanced(s, RunTo(s, strategy, candles, lookback, n).book)
  {
    if n > lookback {
      EveryBarBalanced(s, strategy, candles, lookback, n - 1);
      BarKeepsBalance(s, RunTo(s, strategy, candles, lookback, n - 1).book, candles[n - 1],
                      strategy(Window(candles, lookback, n - 1)));
    }
  }

  /**
   * At every bar, in both modes and with partial fills: equity is the initial capital plus the pnl of
   * the closed trades, less all entry fees paid so far, plus the unrealised result of what is open.
   */
  lemma EquityIdentity(s: Settings, strategy: Strategy, candles: seq<Candle>, lookback: nat, n: nat)
    requires lookback < n <= |candles|
    ensures var run := RunTo(s, strategy, candles, lookback, n);
            && run.equityCurve != []
            && run.equityCurve[|run.equityCurve| - 1]
               == s.initialCapital + TradePnl(run.book.trades) - EntryFees(s, run.book.trades) - OpenFee(s, run.book.position)
                  + match run.book.position { case None => 0.0 case Some(p) => Unrealized(p, candles[n - 1].close) }
  {
    EveryBarBalanced(s, strategy, candles, lookback, n);
  }

  /**
   * The two averages a report offers disagree by exactly what trades leave out: total pnl comes from
   * equity, expectancy from the trades' pnl, and entry fees and open results are only in the former.
   */
  lemma {:induction false} ExpectancyLeavesOutEntryFees(s: Settings, strategy: Strategy, candles: seq<Candle>, lookback: nat)
    requires lookback < |candles|
    ensures var run := RunTo(s, strategy, candles, lookback, |candles|);
            var report := Metrics.Summary(s.initialCapital, run.equityCurve, Outcomes(run.book.trades),
                                          candles[0].timestamp, candles[|candles| - 1].timestamp);
            && report.trades.expectancy == Metrics.Ratio(TradePnl(run.book.trades), |run.book.trades|)
            && report.totalPnl == TradePnl(run.book.trades) - EntryFees(s, run.book.trades) - OpenFee(s, run.book.position)
                 + match run.book.position { case None => 0.0 case Some(p) => Unrealized(p, candles[|candles| - 1].close) }
  {
    EquityIdentity(s, strategy, candles, lookback, |candles|);
    Metrics.ExpectancyIsMeanPnl(Outcomes(RunTo(s, strategy, candles, lookback, |candles|).book.trades));
  }
}
