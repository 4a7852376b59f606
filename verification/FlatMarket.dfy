/** On a market that never moves, trading can only cost money; with no costs it changes nothing. */
module FlatMarket {
  import opened Common
  import opened ExecutionSimulator
  import opened BacktestEngine
  import TradeLog

  /** Every bar opens and closes at the same positive price; volumes, highs and lows are arbitrary. */
  ghost predicate Flat(candles: seq<Candle>, price: real) {
    price > 0.0 && forall k :: 0 <= k < |candles| ==> candles[k].open == price && candles[k].close == price
  }

  function Worth(b: Book, price: real): real { Equity(b.capital, b.position, price) }

  /** A step on a flat market: never a gain, and without costs no loss either. */
  ghost predicate NoGain(s: Settings, before: Book, after: Book, price: real) {
    && Worth(after, price) <= Worth(before, price)
    && (CostFree(s.config) ==> Worth(after, price) == Worth(before, price))
  }

  /** A position is worth no more at a price that is worse for its side. */
  lemma WorsePrice(p: Position, worse: real, better: real)
    requires p.quantity > 0.0 && if p.side == Buy then worse <= better else better <= worse
    ensures Unrealized(p, worse) <= Unrealized(p, better)
  {
    var a, b := if p.side == Buy then worse - p.entryPrice else p.entryPrice - worse,
                if p.side == Buy then better - p.entryPrice else p.entryPrice - better;
    Scale(a, b, p.quantity);
  }

  lemma CloseNeverGains(s: Settings, b: Book, order: Order, c: Candle, price: real)
    requires Frictional(s.config) && price > 0.0 && b.position.Some? && b.position.value.quantity > 0.0
    requires order.side == b.position.value.side.Opposite() && order.quantity == b.position.value.quantity
    ensures var fill := FillMarketOrder(s.config, order, c, b.capital, Some(price));
            NoGain(s, b, ClosePosition(b, b.position.value, fill, c.timestamp), price)
  {
    var p, fill := b.position.value, FillMarketOrder(s.config, order, c, b.capital, Some(price));
    if fill.filled {
      MarketFillPrice(s.config, order, c, b.capital, Some(price));
      FilledQuantityPositive(s.config, order, c, b.capital, Some(price));
      WorsePrice(p, fill.fillPrice, price);
      if CostFree(s.config) { FreeFill(s.config, order, c, b.capital, price); }
    }
  }

  /** What a fill does to the worth of the book: the new position at market, less what it cost. */
  lemma OpenedWorth(b: Book, side: Side, fill: Fill, time: real, price: real)
    requires b.position.None? && fill.filled && fill.filledQuantity > 0.0
    ensures var p := Position(side, fill.fillPrice, fill.filledQuantity, time);
            Worth(OpenPosition(b, side, fill, time), price) == Worth(b, price) - fill.fee + Unrealized(p, price)
  {
  }

  lemma UnrealizedAtEntry(p: Position)
    ensures Unrealized(p, p.entryPrice) == 0.0
  {
  }

  lemma OpenNeverGains(s: Settings, b: Book, order: Order, c: Candle, price: real)
    requires Frictional(s.config) && price > 0.0 && b.position.None? && order.quantity > 0.0
    ensures var fill := FillMarketOrder(s.config, order, c, b.capital, Some(price));
            NoGain(s, b, OpenPosition(b, order.side, fill, c.timestamp), price)
  {
    var fill := FillMarketOrder(s.config, order, c, b.capital, Some(price));
    if fill.filled {
      MarketFillPrice(s.config, order, c, b.capital, Some(price));
      FilledQuantityPositive(s.config, order, c, b.capital, Some(price));
      var p := Position(order.side, fill.fillPrice, fill.filledQuantity, c.timestamp);
      OpenedWorth(b, order.side, fill, c.timestamp, price);
      WorsePrice(p, price, fill.fillPrice);
      UnrealizedAtEntry(p);
      if CostFree(s.config) { FreeFill(s.config, order, c, b.capital, price); }
    }
  }

  lemma {:induction false} BarNeverGains(s: Settings, b: Book, c: Candle, advice: Advice, price: real)
    requires Frictional(s.config) && price > 0.0 && c.open == price && c.close == price && TradeLog.Sized(s, b)
    ensures NoGain(s, b, BarBook(s, b, c, advice), price)
  {
    TradeLog.BarKeepsSized(s, b, c, advice);
    var b1 := ExecutePending(s, b, c);
    if s.mode == NextBarOpen && b.pending.Some? {
      if b.position.Some? {
        CloseNeverGains(s, b, b.pending.value, c, price);
      } else {
        OpenNeverGains(s, b, b.pending.value, c, price);
      }
    }
    assert NoGain(s, b, b1, price);
    var b2 := HandleExit(s, b1, c, advice);
    if b1.position.Some? { CloseNeverGains(s, b1, ExitOrder(b1.position.value, c), c, price); }
    assert NoGain(s, b1, b2, price);
    var target := TargetQuantity(RiskAmount(b2.capital, s.riskPerTradePct), c.close);
    if b2.position.None? && advice.side.Some? && target > 0 {
      OpenNeverGains(s, b2, Order(advice.side.value, target as real, None, c.timestamp), c, price);
    }
  }

  /** The curve so far: below the initial capital, never rising, and ending at the book's worth. */
  ghost predicate OnlyLoses(s: Settings, run: Run, price: real) {
    && (forall i :: 0 <= i < |run.equityCurve| ==> run.equityCurve[i] <= s.initialCapital)
    && (forall i, j :: 0 <= i <= j < |run.equityCurve| ==> run.equityCurve[j] <= run.equityCurve[i])
    && (CostFree(s.config) ==> forall i :: 0 <= i < |run.equityCurve| ==> run.equityCurve[i] == s.initialCapital)
    && Worth(run.book, price)
       == if run.equityCurve == [] then s.initialCapital else run.equityCurve[|run.equityCurve| - 1]
  }

  lemma BarOnlyLoses(s: Settings, run: Run, c: Candle, advice: Advice, price: real)
    requires OnlyLoses(s, run, price) && c.close == price && NoGain(s, run.book, BarBook(s, run.book, c, advice), price)
    ensures OnlyLoses(s, Bar(s, run, c, advice), price)
  {
    var curve := run.equityCurve;
    var last := Worth(BarBook(s, run.book, c, advice), price);
    assert Bar(s, run, c, advice).equityCurve == curve + [last];
    if curve != [] { assert curve[|curve| - 1] >= last; }
  }

  /**
   * No free lunch: on a flat market, whatever the strategy, the mode and the volumes, long or short,
   * the equity curve never rises and never exceeds the initial capital; when slippage, spread and
   * fees are all zero it stays exactly at the initial capital.
   */
  lemma {:induction false} NoFreeLunch(s: Settings, strategy: Strategy, candles: seq<Candle>, lookback: nat, n: nat,
                                       price: real)
    requires n <= |candles| && Flat(candles, price) && Frictional(s.config)
    ensures OnlyLoses(s, RunTo(s, strategy, candles, lookback, n), price)
  {
    if n > lookback {
      NoFreeLunch(s, strategy, candles, lookback, n - 1, price);
      TradeLog.EveryBarSized(s, strategy, candles, lookback, n - 1);
      var before := RunTo(s, strategy, candles, lookback, n - 1);
      var c, advice := candles[n - 1], strategy(Window(candles, lookback, n - 1));
      BarNeverGains(s, before.book, c, advice, price);
      BarOnlyLoses(s, before, c, advice, price);
    }
  }
}
