/** When a backtest can run out of money: never without a short, and always possible with one. */
module Solvency {
  import opened Common
  import opened ExecutionSimulator
  import opened BacktestEngine
  import FlatMarket
  import Metrics
  import NoLookAhead
  import TradeLog

  // ---------------------------------------------------------------------------------------------
  // What longs keep

  /** What is open, if anything, is long. */
  predicate Long(b: Book) { b.position.Some? ==> b.position.value.side == Buy }

  ghost predicate NoShort(b: Book) { Long(b) && forall i :: 0 <= i < |b.trades| ==> b.trades[i].side == Buy }

  ghost predicate Solvent(b: Book) {
    b.capital >= 0.0
    && (b.position.Some? ==> b.position.value.quantity > 0.0 && b.position.value.entryPrice >= 0.0)
  }

  lemma AmountGrows(price: real, a: real, b: real)
    requires price >= 0.0 && 0.0 <= a <= b
    ensures 0.0 <= Amount(price, a) <= Amount(price, b)
  {
    if price > 0.0 {
      Scale(0.0, a, price);
      Scale(a, b, price);
    } else {
      assert price == 0.0;
    }
  }

  /** Fees of at most the whole price leave a sale's proceeds non-negative, even on a partial fill. */
  lemma FeeAtMostProceeds(price: real, rate: real, filled: real, quantity: real)
    requires price >= 0.0 && 0.0 <= rate <= 1.0 && 0.0 < filled <= quantity
    ensures 0.0 <= Fee(price, rate, filled) <= Amount(price, quantity)
  {
    AmountGrows(price, filled, quantity);
    AmountGrows(Amount(price, filled), rate, 1.0);
    assert Amount(Amount(price, filled), rate) == Fee(price, rate, filled);
  }

  /** Entry value plus the price move since is the value at the new price. */
  lemma Revalue(p: Position, price: real)
    requires p.side == Buy
    ensures Amount(p.entryPrice, p.quantity) + Unrealized(p, price) == Amount(price, p.quantity)
  {
  }

  lemma CloseLongStaysSolvent(s: Settings, b: Book, order: Order, c: Candle, base: real, time: real)
    requires Frictional(s.config) && s.config.takerFeeRate <= 1.0
    requires Solvent(b) && b.position.Some? && b.position.value.side == Buy
    requires order.side == Sell && order.quantity == b.position.value.quantity
    ensures Solvent(ClosePosition(b, b.position.value, FillMarketOrder(s.config, order, c, b.capital, Some(base)), time))
  {
    var p, fill := b.position.value, FillMarketOrder(s.config, order, c, b.capital, Some(base));
    if fill.filled {
      MarketFillPrice(s.config, order, c, b.capital, Some(base));
      FilledQuantityPositive(s.config, order, c, b.capital, Some(base));
      FeeAtMostProceeds(fill.fillPrice, s.config.takerFeeRate, fill.filledQuantity, p.quantity);
      Revalue(p, fill.fillPrice);
    }
  }

  lemma OpenLongStaysSolvent(s: Settings, b: Book, order: Order, c: Candle, base: real, time: real)
    requires Frictional(s.config) && Solvent(b) && b.position.None? && order.side == Buy
    ensures Solvent(OpenPosition(b, order.side, FillMarketOrder(s.config, order, c, b.capital, Some(base)), time))
  {
    MarketFillPrice(s.config, order, c, b.capital, Some(base));
    MarketBuyIsAffordable(s.config, order, c, b.capital, Some(base));
  }

  lemma PendingStaysSolvent(s: Settings, b: Book, c: Candle)
    requires Frictional(s.config) && s.config.takerFeeRate <= 1.0 && TradeLog.Sized(s, b) && Solvent(b)
    requires Long(b) && Long(ExecutePending(s, b, c))
    ensures Solvent(ExecutePending(s, b, c))
  {
    if s.mode == NextBarOpen && b.pending.Some? {
      var order := b.pending.value;
      if b.position.Some? {
        CloseLongStaysSolvent(s, b, order, c, c.open, c.timestamp);
      } else if order.side == Buy {
        OpenLongStaysSolvent(s, b, order, c, c.open, c.timestamp);
      }
    }
  }

  lemma ExitStaysSolvent(s: Settings, b: Book, c: Candle, advice: Advice)
    requires Frictional(s.config) && s.config.takerFeeRate <= 1.0 && Solvent(b) && Long(b)
    ensures Solvent(HandleExit(s, b, c, advice)) && Long(HandleExit(s, b, c, advice))
  {
    if b.position.Some? && s.mode == CurrentBarClose && advice.side == Some(b.position.value.side.Opposite()) {
      CloseLongStaysSolvent(s, b, ExitOrder(b.position.value, c), c, c.close, c.timestamp);
    }
  }

  lemma EntryStaysSolvent(s: Settings, b: Book, c: Candle, advice: Advice)
    requires Frictional(s.config) && Solvent(b) && Long(b) && Long(HandleEntry(s, b, c, advice))
    ensures Solvent(HandleEntry(s, b, c, advice))
  {
    if b.position.None? && s.mode == CurrentBarClose && advice.side == Some(Buy) {
      var target := TargetQuantity(RiskAmount(b.capital, s.riskPerTradePct), c.close);
      OpenLongStaysSolvent(s, b, Order(Buy, target as real, None, c.timestamp), c, c.close, c.timestamp);
    }
  }

  /** A position opened in the middle of a bar is still open at its end, so the ends of bars tell. */
  lemma LongThroughoutBar(s: Settings, b: Book, c: Candle, advice: Advice)
    requires Long(b) && Long(BarBook(s, b, c, advice))
    ensures Long(ExecutePending(s, b, c)) && Long(HandleExit(s, ExecutePending(s, b, c), c, advice))
  {
  }

  lemma BarStaysSolvent(s: Settings, b: Book, c: Candle, advice: Advice)
    requires Frictional(s.config) && s.config.takerFeeRate <= 1.0 && TradeLog.Sized(s, b) && Solvent(b)
    requires Long(b) && Long(BarBook(s, b, c, advice)) && c.close >= 0.0
    ensures var b' := BarBook(s, b, c, advice); Solvent(b') && Equity(b'.capital, b'.position, c.close) >= 0.0
  {
    LongThroughoutBar(s, b, c, advice);
    var b1 := ExecutePending(s, b, c);
    PendingStaysSolvent(s, b, c);
    ExitStaysSolvent(s, b1, c, advice);
    EntryStaysSolvent(s, HandleExit(s, b1, c, advice), c, advice);
    SolventEquity(BarBook(s, b, c, advice), c.close);
  }

  lemma SolventEquity(b: Book, price: real)
    requires Solvent(b) && Long(b) && price >= 0.0
    ensures Equity(b.capital, b.position, price) >= 0.0
  {
    if b.position.Some? {
      var p := b.position.value;
      Revalue(p, price);
      if price > 0.0 { Scale(0.0, p.quantity, price); }
    }
  }

  /** RunTo unrolled once, for proofs that have already dealt with the bar's three phases. */
  lemma OneMoreBar(s: Settings, strategy: Strategy, candles: seq<Candle>, lookback: nat, n: nat)
    requires lookback < n <= |candles|
    ensures var before, after := RunTo(s, strategy, candles, lookback, n - 1), RunTo(s, strategy, candles, lookback, n);
            && after.book == BarBook(s, before.book, candles[n - 1], strategy(Window(candles, lookback, n - 1)))
            && after.equityCurve
               == before.equityCurve + [Equity(after.book.capital, after.book.position, candles[n - 1].close)]
  {
  }

  // ---------------------------------------------------------------------------------------------
  // Runs without a short

  ghost predicate AlwaysLong(s: Settings, strategy: Strategy, candles: seq<Candle>, lookback: nat, n: nat)
    requires n <= |candles|
  {
    forall m :: 0 <= m <= n ==> Long(RunTo(s, strategy, candles, lookback, m).book)
  }

  ghost predicate NonNegativeCloses(candles: seq<Candle>) { forall k :: 0 <= k < |candles| ==> candles[k].close >= 0.0 }

  ghost predicate NonNegative(curve: seq<real>) { forall k :: 0 <= k < |curve| ==> curve[k] >= 0.0 }

  /** A run that is never short at the end of a bar never has negative capital or equity. */
  lemma {:induction false} AlwaysLongIsSolvent(s: Settings, strategy: Strategy, candles: seq<Candle>, lookback: nat, n: nat)
    requires n <= |candles| && s.initialCapital >= 0.0 && Frictional(s.config) && s.config.takerFeeRate <= 1.0
    requires NonNegativeCloses(candles) && AlwaysLong(s, strategy, candles, lookback, n)
    ensures var run := RunTo(s, strategy, candles, lookback, n); Solvent(run.book) && NonNegative(run.equityCurve)
  {
    if n > lookback {
      var before, c := RunTo(s, strategy, candles, lookback, n - 1), candles[n - 1];
      AlwaysLongIsSolvent(s, strategy, candles, lookback, n - 1);
      TradeLog.EveryBarSized(s, strategy, candles, lookback, n - 1);
      assert Long(before.book) && Long(RunTo(s, strategy, candles, lookback, n).book);
      OneMoreBar(s, strategy, candles, lookback, n);
      BarStaysSolvent(s, before.book, c, strategy(Window(candles, lookback, n - 1)));
    }
  }

  /** Once a short has been opened it shows in the position or in the trades ever after. */
  lemma ShortsStay(s: Settings, b: Book, c: Candle, advice: Advice)
    requires NoShort(BarBook(s, b, c, advice))
    ensures NoShort(ExecutePending(s, b, c)) && NoShort(HandleExit(s, ExecutePending(s, b, c), c, advice)) && NoShort(b)
  {
    var b1 := ExecutePending(s, b, c);
    var b2 := HandleExit(s, b1, c, advice);
    assert NoShort(b2);
    if b1.trades != b2.trades {
      assert b2.trades[|b1.trades|].side == b1.position.value.side;
      assert forall i :: 0 <= i < |b1.trades| ==> b2.trades[i] == b1.trades[i];
    }
    assert NoShort(b1);
    if b.trades != b1.trades {
      assert b1.trades[|b.trades|].side == b.position.value.side;
      assert forall i :: 0 <= i < |b.trades| ==> b1.trades[i] == b.trades[i];
    }
  }

  lemma {:induction false} NoShortMeansAlwaysLong(s: Settings, strategy: Strategy, candles: seq<Candle>, lookback: nat,
                                                  n: nat)
    requires n <= |candles| && NoShort(RunTo(s, strategy, candles, lookback, n).book)
    ensures AlwaysLong(s, strategy, candles, lookback, n)
  {
    if n > 0 {
      if n > lookback {
        ShortsStay(s, RunTo(s, strategy, candles, lookback, n - 1).book, candles[n - 1],
                   strategy(Window(candles, lookback, n - 1)));
      }
      NoShortMeansAlwaysLong(s, strategy, candles, lookback, n - 1);
    }
  }

  /**
   * A run that has opened no short (all its trades and its open position are long) has never had
   * negative capital or equity.
   */
  lemma {:induction false} LongOnlyRunsAreSolvent(s: Settings, strategy: Strategy, candles: seq<Candle>, lookback: nat,
                                                  n: nat)
    requires n <= |candles| && s.initialCapital >= 0.0 && Frictional(s.config) && s.config.takerFeeRate <= 1.0
    requires NonNegativeCloses(candles) && NoShort(RunTo(s, strategy, candles, lookback, n).book)
    ensures var run := RunTo(s, strategy, candles, lookback, n); Solvent(run.book) && NonNegative(run.equityCurve)
  {
    NoShortMeansAlwaysLong(s, strategy, candles, lookback, n);
    AlwaysLongIsSolvent(s, strategy, candles, lookback, n);
  }

  // ---------------------------------------------------------------------------------------------
  // A condition that can be checked beforehand

  /** Advice that never makes the engine enter short. */
  predicate NeverEntersShort(advice: Advice) { advice.side == Some(Sell) ==> advice.confidence <= 0.5 }

  /** A short is open, or will be by the next bar that can be traded. */
  predicate ShortAhead(b: Book) {
    if b.position.Some? then b.position.value.side == Sell else b.pending.Some? && b.pending.value.side == Sell
  }

  ghost predicate NoShortAhead(b: Book) {
    !ShortAhead(b) && forall i :: 0 <= i < |b.trades| ==> b.trades[i].side == Buy
  }

  lemma BarOpensNoShort(s: Settings, b: Book, c: Candle, advice: Advice)
    requires TradeLog.Sized(s, b) && !ShortAhead(b) && NeverEntersShort(advice)
    ensures !ShortAhead(BarBook(s, b, c, advice))
    ensures NoShortAhead(b) ==> NoShortAhead(BarBook(s, b, c, advice))
  {
    var b1 := ExecutePending(s, b, c);
    assert !ShortAhead(b1) && (NoShortAhead(b) ==> NoShortAhead(b1));
    var b2 := HandleExit(s, b1, c, advice);
    TradeLog.BarKeepsSized(s, b, c, advice);
    assert !ShortAhead(b2) && (NoShortAhead(b) ==> NoShortAhead(b2));
  }

  /** A strategy that never advises selling with confidence opens no short on any data. */
  lemma {:induction false} NeverSellingIsNeverShort(s: Settings, strategy: Strategy, candles: seq<Candle>, lookback: nat,
                                                    n: nat)
    requires n <= |candles| && forall window :: NeverEntersShort(strategy(window))
    ensures NoShortAhead(RunTo(s, strategy, candles, lookback, n).book)
  {
    if n > lookback {
      NeverSellingIsNeverShort(s, strategy, candles, lookback, n - 1);
      TradeLog.EveryBarSized(s, strategy, candles, lookback, n - 1);
      BarOpensNoShort(s, RunTo(s, strategy, candles, lookback, n - 1).book, candles[n - 1],
                      strategy(Window(candles, lookback, n - 1)));
    }
  }

  /** So it is solvent on all data. */
  lemma {:induction false} NeverSellingIsSolvent(s: Settings, strategy: Strategy, candles: seq<Candle>, lookback: nat)
    requires s.initialCapital >= 0.0 && Frictional(s.config) && s.config.takerFeeRate <= 1.0 && NonNegativeCloses(candles)
    requires forall window :: NeverEntersShort(strategy(window))
    ensures NonNegative(RunTo(s, strategy, candles, lookback, |candles|).equityCurve)
  {
    NeverSellingIsNeverShort(s, strategy, candles, lookback, |candles|);
    LongOnlyRunsAreSolvent(s, strategy, candles, lookback, |candles|);
  }

  // ---------------------------------------------------------------------------------------------
  // Every short can be ruined

  /** A price at which an open short is worth less than nothing. */
  ghost predicate Ruins(price: real, b: Book) {
    && b.position.Some? && b.position.value.side == Sell && price > 0.0
    && var p := b.position.value;
       Amount(price, p.quantity) > b.capital + (Amount(p.entryPrice, p.quantity) + Amount(p.entryPrice, p.quantity))
  }

  lemma RuinedWorth(price: real, b: Book)
    requires Ruins(price, b)
    ensures Equity(b.capital, b.position, price) < 0.0
  {
    var p := b.position.value;
    var e, q := p.entryPrice, p.quantity;
    assert (e - price) * q == Amount(e, q) - Amount(price, q);
  }

  /**
   * In either mode, with any costs and whatever the advice: a bar that opens and closes at such a
   * price leaves the account below zero, whether or not the short is closed on it.
   */
  lemma RuinousBar(s: Settings, b: Book, c: Candle, advice: Advice, price: real)
    requires Frictional(s.config) && TradeLog.Sized(s, b) && Ruins(price, b) && c.open == price && c.close == price
    ensures var b' := BarBook(s, b, c, advice); Equity(b'.capital, b'.position, c.close) < 0.0
  {
    FlatMarket.BarNeverGains(s, b, c, advice, price);
    RuinedWorth(price, b);
  }

  /** Every short has such prices. */
  lemma EveryShortHasRuinousPrice(s: Settings, b: Book) returns (price: real)
    requires TradeLog.Sized(s, b) && b.position.Some? && b.position.value.side == Sell
    ensures Ruins(price, b)
  {
    var p := b.position.value;
    var debt := b.capital + (Amount(p.entryPrice, p.quantity) + Amount(p.entryPrice, p.quantity));
    var enough := Max(debt, 0.0) + 1.0;
    price := enough / p.quantity;
    Undivided(enough, p.quantity);
    assert Amount(price, p.quantity) == enough;
    if price <= 0.0 { Scale(price, 0.0, p.quantity); }
  }

  /** A bar on which nothing trades against the volume and that opens and closes at one price. */
  function Still(price: real): Candle { Candle(price, price, price, price, 0.0, 0.0) }

  const HOLD := Advice(None, 0.0)

  // ---------------------------------------------------------------------------------------------
  // Solvent on every continuation, exactly without a short

  function Continued(s: Settings, r: Run, bars: seq<(Candle, Advice)>): Run {
    if bars == [] then r else Bar(s, Continued(s, r, bars[..|bars| - 1]), bars[|bars| - 1].0, bars[|bars| - 1].1)
  }

  /** Closes are not negative and no new short is advised. */
  ghost predicate Harmless(bars: seq<(Candle, Advice)>) {
    forall k :: 0 <= k < |bars| ==> bars[k].0.close >= 0.0 && NeverEntersShort(bars[k].1)
  }

  ghost predicate SolventAhead(s: Settings, b: Book) {
    forall bars :: Harmless(bars) ==> NonNegative(Continued(s, Run(b, []), bars).equityCurve)
  }

  lemma {:induction false} WithoutShortSolvent(s: Settings, b: Book, bars: seq<(Candle, Advice)>)
    requires Frictional(s.config) && s.config.takerFeeRate <= 1.0 && TradeLog.Sized(s, b) && Solvent(b)
    requires !ShortAhead(b) && Harmless(bars)
    ensures var r := Continued(s, Run(b, []), bars);
            Solvent(r.book) && !ShortAhead(r.book) && TradeLog.Sized(s, r.book) && NonNegative(r.equityCurve)
  {
    if bars != [] {
      var init, last := bars[..|bars| - 1], bars[|bars| - 1];
      WithoutShortSolvent(s, b, init);
      var r := Continued(s, Run(b, []), init);
      BarOpensNoShort(s, r.book, last.0, last.1);
      TradeLog.BarKeepsSized(s, r.book, last.0, last.1);
      BarStaysSolvent(s, r.book, last.0, last.1);
    }
  }

  lemma ShortEntryExecutes(s: Settings, b: Book)
    requires Frictional(s.config) && TradeLog.Sized(s, b) && b.position.None? && ShortAhead(b)
    ensures var b' := BarBook(s, b, Still(1.0), HOLD); b'.position.Some? && b'.position.value.side == Sell
  {
    SellAlwaysFills(s.config, b.pending.value, Still(1.0), b.capital, 1.0);
  }

  lemma OneBarContinues(s: Settings, b: Book, c: Candle, advice: Advice)
    ensures Continued(s, Run(b, []), [(c, advice)]) == Bar(s, Run(b, []), c, advice)
  {
    var bars := [(c, advice)];
    assert bars[..|bars| - 1] == [];
  }

  lemma TwoBarsContinue(s: Settings, b: Book, c: Candle, d: Candle)
    ensures Continued(s, Run(b, []), [(c, HOLD), (d, HOLD)]) == Bar(s, Bar(s, Run(b, []), c, HOLD), d, HOLD)
  {
    var bars := [(c, HOLD), (d, HOLD)];
    assert bars[..|bars| - 1] == [(c, HOLD)];
    OneBarContinues(s, b, c, HOLD);
  }

  lemma WithShortRuined(s: Settings, b: Book) returns (bars: seq<(Candle, Advice)>)
    requires Frictional(s.config) && TradeLog.Sized(s, b) && ShortAhead(b)
    ensures Harmless(bars) && !NonNegative(Continued(s, Run(b, []), bars).equityCurve)
  {
    if b.position.Some? {
      var price := EveryShortHasRuinousPrice(s, b);
      bars := [(Still(price), HOLD)];
      RuinousBar(s, b, Still(price), HOLD, price);
      OneBarContinues(s, b, Still(price), HOLD);
      assert Continued(s, Run(b, []), bars).equityCurve[0] < 0.0;
    } else {
      ShortEntryExecutes(s, b);
      TradeLog.BarKeepsSized(s, b, Still(1.0), HOLD);
      var b' := BarBook(s, b, Still(1.0), HOLD);
      var price := EveryShortHasRuinousPrice(s, b');
      bars := [(Still(1.0), HOLD), (Still(price), HOLD)];
      RuinousBar(s, b', Still(price), HOLD, price);
      TwoBarsContinue(s, b, Still(1.0), Still(price));
      assert Continued(s, Run(b, []), bars).equityCurve[1] < 0.0;
    }
  }

  /**
   * From any solvent book, on every continuation that advises no new short the equity stays at or above
   * zero if and only if no short is open or about to be.
   */
  lemma SolventExactlyWithoutShort(s: Settings, b: Book)
    requires Frictional(s.config) && s.config.takerFeeRate <= 1.0 && TradeLog.Sized(s, b) && Solvent(b)
    ensures SolventAhead(s, b) <==> !ShortAhead(b)
  {
    if ShortAhead(b) {
      var bars := WithShortRuined(s, b);
    } else {
      forall bars | Harmless(bars)
        ensures NonNegative(Continued(s, Run(b, []), bars).equityCurve)
      {
        WithoutShortSolvent(s, b, bars);
      }
    }
  }

  // ---------------------------------------------------------------------------------------------
  // Solvent on all data, exactly when never short on any

  ghost predicate SolventOnAllData(s: Settings, strategy: Strategy, lookback: nat) {
    forall candles :: NonNegativeCloses(candles) ==>
      NonNegative(RunTo(s, strategy, candles, lookback, |candles|).equityCurve)
  }

  ghost predicate LongOnAllData(s: Settings, strategy: Strategy, lookback: nat) {
    forall candles :: NonNegativeCloses(candles) ==> Long(RunTo(s, strategy, candles, lookback, |candles|).book)
  }

  /** Whatever the strategy, one more bar ruins a run that ends short. */
  lemma OneMoreBarRuins(s: Settings, strategy: Strategy, candles: seq<Candle>, lookback: nat) returns (c: Candle)
    requires Frictional(s.config) && !Long(RunTo(s, strategy, candles, lookback, |candles|).book)
    ensures c.close > 0.0 && !NonNegative(RunTo(s, strategy, candles + [c], lookback, |candles| + 1).equityCurve)
  {
    var n := |candles|;
    var b := RunTo(s, strategy, candles, lookback, n).book;
    TradeLog.EveryBarSized(s, strategy, candles, lookback, n);
    var price := EveryShortHasRuinousPrice(s, b);
    c := Still(price);
    var longer := candles + [c];
    NoLookAhead.SamePastSameRun(s, strategy, longer, candles, lookback, n);
    RuinousBar(s, b, c, strategy(Window(longer, lookback, n)), price);
    OneMoreBar(s, strategy, longer, lookback, n + 1);
    var curve := RunTo(s, strategy, longer, lookback, n + 1).equityCurve;
    assert curve[|curve| - 1] < 0.0;
  }

  lemma PrefixesAreLong(s: Settings, strategy: Strategy, candles: seq<Candle>, lookback: nat)
    requires LongOnAllData(s, strategy, lookback) && NonNegativeCloses(candles)
    ensures AlwaysLong(s, strategy, candles, lookback, |candles|)
  {
    forall m | 0 <= m <= |candles|
      ensures Long(RunTo(s, strategy, candles, lookback, m).book)
    {
      NoLookAhead.SamePastSameRun(s, strategy, candles[..m], candles, lookback, m);
      assert NonNegativeCloses(candles[..m]) && |candles[..m]| == m;
    }
  }

  /** A strategy keeps the account at or above zero on all data if and only if it is never short on any. */
  lemma {:induction false} SolventExactlyWhenNeverShort(s: Settings, strategy: Strategy, lookback: nat)
    requires s.initialCapital >= 0.0 && Frictional(s.config) && s.config.takerFeeRate <= 1.0
    ensures SolventOnAllData(s, strategy, lookback) <==> LongOnAllData(s, strategy, lookback)
  {
    if LongOnAllData(s, strategy, lookback) {
      forall candles | NonNegativeCloses(candles)
        ensures NonNegative(RunTo(s, strategy, candles, lookback, |candles|).equityCurve)
      {
        PrefixesAreLong(s, strategy, candles, lookback);
        AlwaysLongIsSolvent(s, strategy, candles, lookback, |candles|);
      }
    } else {
      var candles :| NonNegativeCloses(candles) && !Long(RunTo(s, strategy, candles, lookback, |candles|).book);
      var c := OneMoreBarRuins(s, strategy, candles, lookback);
      assert NonNegativeCloses(candles + [c]) && |candles + [c]| == |candles| + 1;
    }
  }

  // ---------------------------------------------------------------------------------------------
  // A short that is ruined

  const FREE := Config(0.0, 0.0, 0.0, 0.0, 0.0, 5.0)
  const SHORT := Position(Sell, 1.0, 25.0, 0.0)

  lemma FreeShort(s: Settings, b: Book, c: Candle)
    requires s == Settings(100.0, FREE, CurrentBarClose, 0.25)
    requires b == Book(100.0, None, None, []) && c == Candle(1.0, 1.0, 1.0, 1.0, 0.0, 0.0)
    ensures HandleEntry(s, b, c, Advice(Some(Sell), 1.0)) == Book(75.0, Some(SHORT), None, [])
  {
    assert RiskAmount(100.0, 0.25) == 25.0;
    assert TargetQuantity(25.0, 1.0) == 25;
    assert Notional(1.0, 25) == 25.0;
    var order := Order(Sell, 25.0, None, 0.0);
    FreeFill(FREE, order, c, 100.0, 1.0);
    SellAlwaysFills(FREE, order, c, 100.0, 1.0);
    assert Amount(1.0, 25.0) == 25.0;
  }

  lemma ShortOpens(s: Settings, c: Candle, advice: Advice)
    requires s == Settings(100.0, FREE, CurrentBarClose, 0.25) && c == Candle(1.0, 1.0, 1.0, 1.0, 0.0, 0.0)
    requires advice == Advice(Some(Sell), 1.0)
    ensures BarBook(s, Start(s).book, c, advice) == Book(75.0, Some(SHORT), None, [])
  {
    FreeShort(s, Start(s).book, c);
  }

  /** For instance: one cost-free short at 1 is ruined when the price goes to 10. */
  lemma ShortRunsCanGoUnder(s: Settings, strategy: Strategy, candles: seq<Candle>)
    requires s == Settings(100.0, FREE, CurrentBarClose, 0.25)
    requires forall window :: strategy(window) == Advice(Some(Sell), 1.0)
    requires candles == [Candle(1.0, 1.0, 1.0, 1.0, 0.0, 0.0), Candle(10.0, 10.0, 10.0, 10.0, 0.0, 1.0)]
    ensures Frictional(s.config) && RunTo(s, strategy, candles, 0, 2).equityCurve == [100.0, -125.0]
  {
    var b1 := Book(75.0, Some(SHORT), None, []);
    ShortOpens(s, candles[0], Advice(Some(Sell), 1.0));
    OneMoreBar(s, strategy, candles, 0, 1);
    assert RunTo(s, strategy, candles, 0, 0) == Start(s);
    assert RunTo(s, strategy, candles, 0, 1).book == b1;
    StandingShort(s, b1, candles[1], Advice(Some(Sell), 1.0));
    OneMoreBar(s, strategy, candles, 0, 2);
    assert Equity(75.0, Some(SHORT), 1.0) == 100.0 && Equity(75.0, Some(SHORT), 10.0) == -125.0;
  }

  lemma StandingShort(s: Settings, b: Book, c: Candle, advice: Advice)
    requires s.mode == CurrentBarClose && b.position == Some(SHORT) && b.pending.None? && advice.side == Some(Sell)
    ensures BarBook(s, b, c, advice) == b
  {
  }

  // ---------------------------------------------------------------------------------------------
  // Drawdown

  /** Hence the drawdown such a run reports is the true maximum drawdown, and a percentage. */
  lemma LongOnlyDrawdownIsTrue(s: Settings, strategy: Strategy, candles: seq<Candle>, lookback: nat)
    requires candles != [] && s.initialCapital > 0.0 && Frictional(s.config) && s.config.takerFeeRate <= 1.0
    requires NonNegativeCloses(candles)
    requires NoShort(RunTo(s, strategy, candles, lookback, |candles|).book)
    ensures var run := RunTo(s, strategy, candles, lookback, |candles|);
            var report := Metrics.Summary(s.initialCapital, run.equityCurve, Outcomes(run.book.trades),
                                          candles[0].timestamp, candles[|candles| - 1].timestamp);
            && report.maxDrawdown.Finite? && 0.0 <= report.maxDrawdown.pct <= 100.0
            && Metrics.IsMaxDrawdown([s.initialCapital] + run.equityCurve, report.maxDrawdown.pct)
  {
    LongOnlyRunsAreSolvent(s, strategy, candles, lookback, |candles|);
    var run := RunTo(s, strategy, candles, lookback, |candles|);
    Metrics.ReportedDrawdown(s.initialCapital, run.equityCurve, Outcomes(run.book.trades),
                             candles[0].timestamp, candles[|candles| - 1].timestamp);
  }
}
