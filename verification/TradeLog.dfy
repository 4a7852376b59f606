/** The structure every run keeps: what a pending order may be, and how trades follow one another. */
module TradeLog {
  import opened Common
  import opened ExecutionSimulator
  import opened BacktestEngine

  /** A pending order is the open position's own exit, or an entry while nothing is open. */
  ghost predicate PendingFits(s: Settings, b: Book) {
    b.pending.Some? ==>
      && s.mode == NextBarOpen && b.pending.value.quantity > 0.0
      && (b.position.Some? ==> b.pending.value.side == b.position.value.side.Opposite()
                               && b.pending.value.quantity == b.position.value.quantity)
  }

  /** Strictly before when orders wait for the next open; otherwise a bar may exit and re-enter. */
  ghost predicate Before(s: Settings, t: real, u: real) {
    if s.mode == NextBarOpen then t < u else t <= u
  }

  ghost predicate TradesOrdered(s: Settings, b: Book, now: real) {
    && (forall i :: 0 <= i < |b.trades| ==>
          b.trades[i].quantity > 0.0 && b.trades[i].entryTime < b.trades[i].exitTime <= now)
    && (forall i, j :: 0 <= i < j < |b.trades| ==> Before(s, b.trades[i].exitTime, b.trades[j].entryTime))
    && (b.position.Some? ==> b.position.value.quantity > 0.0 && b.position.value.entryTime <= now)
    && (b.position.Some? ==>
          forall i :: 0 <= i < |b.trades| ==> Before(s, b.trades[i].exitTime, b.position.value.entryTime))
  }

  ghost predicate WellFormed(s: Settings, b: Book, now: real) {
    PendingFits(s, b) && TradesOrdered(s, b, now)
  }

  lemma CloseKeepsOrder(s: Settings, b: Book, fill: Fill, last: real, now: real)
    requires TradesOrdered(s, b, last) && b.position.Some? && last < now
    ensures TradesOrdered(s, ClosePosition(b, b.position.value, fill, now), now)
  {
  }

  lemma OpenKeepsOrder(s: Settings, b: Book, side: Side, fill: Fill, last: real, now: real)
    requires TradesOrdered(s, b, last) && b.position.None?
    requires if s.mode == NextBarOpen then last < now else last <= now
    ensures TradesOrdered(s, OpenPosition(b, side, fill, now), now)
  {
  }

  lemma ExecutePendingKeeps(s: Settings, b: Book, c: Candle, last: real)
    requires WellFormed(s, b, last) && last < c.timestamp
    ensures var b' := ExecutePending(s, b, c);
            WellFormed(s, b', c.timestamp) && b'.pending.None?
            && (s.mode == CurrentBarClose ==> TradesOrdered(s, b', last))
  {
    if s.mode == NextBarOpen && b.pending.Some? {
      var fill := FillMarketOrder(s.config, b.pending.value, c, b.capital, Some(c.open));
      if b.position.Some? {
        CloseKeepsOrder(s, b, fill, last, c.timestamp);
      } else {
        OpenKeepsOrder(s, b, b.pending.value.side, fill, last, c.timestamp);
      }
    }
  }

  lemma HandleExitKeeps(s: Settings, b: Book, c: Candle, advice: Advice, last: real)
    requires WellFormed(s, b, c.timestamp) && last < c.timestamp && b.pending.None?
    requires s.mode == CurrentBarClose ==> TradesOrdered(s, b, last)
    ensures WellFormed(s, HandleExit(s, b, c, advice), c.timestamp)
  {
    if s.mode == CurrentBarClose && b.position.Some? {
      var fill := FillMarketOrder(s.config, ExitOrder(b.position.value, c), c, b.capital, Some(c.close));
      CloseKeepsOrder(s, b, fill, last, c.timestamp);
    }
  }

  lemma HandleEntryKeeps(s: Settings, b: Book, c: Candle, advice: Advice)
    requires WellFormed(s, b, c.timestamp)
    ensures WellFormed(s, HandleEntry(s, b, c, advice), c.timestamp)
  {
    var target := TargetQuantity(RiskAmount(b.capital, s.riskPerTradePct), c.close);
    if b.position.None? && b.pending.None? && advice.side.Some? && target > 0 && s.mode == CurrentBarClose {
      var order := Order(advice.side.value, target as real, None, c.timestamp);
      OpenKeepsOrder(s, b, order.side, FillMarketOrder(s.config, order, c, b.capital, Some(c.close)),
                     c.timestamp, c.timestamp);
    }
  }

  ghost predicate Chronological(candles: seq<Candle>) {
    forall i, j :: 0 <= i < j < |candles| ==> candles[i].timestamp < candles[j].timestamp
  }

  /**
   * Every bar of every run: an order left pending is the exit of exactly the open position or an
   * entry with nothing open, so an entry is never executed as an exit; every trade has a positive
   * quantity and ends after it began; no two trades overlap, and with execution at the next open
   * they are strictly apart.
   */
  lemma {:induction false} EveryBarWellFormed(s: Settings, strategy: Strategy, candles: seq<Candle>, lookback: nat, n: nat)
    requires lookback < n <= |candles| && Chronological(candles)
    ensures WellFormed(s, RunTo(s, strategy, candles, lookback, n).book, candles[n - 1].timestamp)
  {
    var c, advice := candles[n - 1], strategy(Window(candles, lookback, n - 1));
    var b := RunTo(s, strategy, candles, lookback, n - 1).book;
    var last := if n - 1 > lookback then candles[n - 2].timestamp else c.timestamp - 1.0;
    if n - 1 > lookback {
      EveryBarWellFormed(s, strategy, candles, lookback, n - 1);
    }
    assert WellFormed(s, b, last);
    ExecutePendingKeeps(s, b, c, last);
    var b1 := ExecutePending(s, b, c);
    HandleExitKeeps(s, b1, c, advice, last);
    HandleEntryKeeps(s, HandleExit(s, b1, c, advice), c, advice);
  }

  /** The part of the structure that does not depend on time stamps. */
  ghost predicate Sized(s: Settings, b: Book) {
    PendingFits(s, b) && (b.position.Some? ==> b.position.value.quantity > 0.0)
  }

  lemma {:induction false} EveryBarSized(s: Settings, strategy: Strategy, candles: seq<Candle>, lookback: nat, n: nat)
    requires n <= |candles|
    ensures Sized(s, RunTo(s, strategy, candles, lookback, n).book)
  {
    if n > lookback {
      EveryBarSized(s, strategy, candles, lookback, n - 1);
      var c, advice := candles[n - 1], strategy(Window(candles, lookback, n - 1));
      var b := RunTo(s, strategy, candles, lookback, n - 1).book;
      BarKeepsSized(s, b, c, advice);
    }
  }

  lemma BarKeepsSized(s: Settings, b: Book, c: Candle, advice: Advice)
    requires Sized(s, b)
    ensures var b1 := ExecutePending(s, b, c);
            var b2 := HandleExit(s, b1, c, advice);
            Sized(s, b1) && b1.pending.None? && Sized(s, b2) && Sized(s, HandleEntry(s, b2, c, advice))
  {
    var b1 := ExecutePending(s, b, c);
    assert Sized(s, b1) && b1.pending.None?;
    var b2 := HandleExit(s, b1, c, advice);
    assert Sized(s, b2);
  }

  // ---------------------------------------------------------------------------------------------
  // Exits and entries, one at a time

  /** A buy that closes a short cannot be paid for in full. */
  predicate CashBinds(s: Settings, b: Book, order: Order, c: Candle, fill: Fill) {
    order.side == Buy
    && b.capital < Cost(fill.fillPrice, s.config.takerFeeRate, VolumeCapped(s.config, order.quantity, c.volume))
  }

  /** The bar's volume lets only part of the order through. */
  predicate VolumeBinds(s: Settings, order: Order, c: Candle) {
    c.volume > 0.0 && s.config.maxVolumeParticipation > 0.0 && order.quantity > c.volume * s.config.maxVolumeParticipation
  }

  /**
   * An executed exit books the whole position, although it filled less of it if and only if the bar's
   * volume, or for a short the cash, was too small: the rest is settled at the fill price without ever
   * having been traded, and the fee is that of the part that was.
   */
  lemma ExitBooksMoreThanItFills(s: Settings, b: Book, c: Candle, base: real)
    requires Frictional(s.config) && b.position.Some? && b.position.value.quantity > 0.0
    ensures var p := b.position.value;
            var order := ExitOrder(p, c);
            var fill := FillMarketOrder(s.config, order, c, b.capital, Some(base));
            var b' := ClosePosition(b, p, fill, c.timestamp);
            fill.filled ==>
              && b'.position.None? && |b'.trades| == |b.trades| + 1
              && var t := b'.trades[|b.trades|];
                 && (fill.filledQuantity < t.quantity <==> VolumeBinds(s, order, c) || CashBinds(s, b, order, c, fill))
                 && fill.filledQuantity <= t.quantity == p.quantity
                 && t.fees == Fee(t.exitPrice, s.config.takerFeeRate, fill.filledQuantity)
                 && t.pnl == Unrealized(p, t.exitPrice) - t.fees
  {
    var p, order := b.position.value, ExitOrder(b.position.value, c);
    var fill := FillMarketOrder(s.config, order, c, b.capital, Some(base));
    if fill.filled {
      MarketFillPrice(s.config, order, c, b.capital, Some(base));
      var wanted := VolumeCapped(s.config, order.quantity, c.volume);
      if order.side == Buy { BuyFillsLessWhenShortOfCash(s, b, order, c, base, wanted); }
    }
  }

  lemma BuyFillsLessWhenShortOfCash(s: Settings, b: Book, order: Order, c: Candle, base: real, wanted: real)
    requires Frictional(s.config) && order.side == Buy && wanted == VolumeCapped(s.config, order.quantity, c.volume)
    requires FillMarketOrder(s.config, order, c, b.capital, Some(base)).filled
    ensures var fill := FillMarketOrder(s.config, order, c, b.capital, Some(base));
            if CashBinds(s, b, order, c, fill) then fill.filledQuantity < wanted else fill.filledQuantity == wanted
  {
    var fill := FillMarketOrder(s.config, order, c, b.capital, Some(base));
    var cash, rate := b.capital, s.config.takerFeeRate;
    MarketFillPrice(s.config, order, c, cash, Some(base));
    CashCappedIsLargestAffordable(s.config, fill.fillPrice, wanted, rate, cash);
    var unitCost := fill.fillPrice * (1.0 + rate);
    Scale(0.0, 1.0 + rate, fill.fillPrice);
    DivisionFindsLargest(fill.fillPrice, rate, cash, unitCost, cash / unitCost);
  }

  /**
   * An entry is scheduled exactly on confident advice with nothing open or pending, for the largest
   * whole quantity whose cost at the close is within the risk amount, and only below half the capital.
   */
  lemma EntryScheduledExactlyWhen(s: Settings, b: Book, c: Candle, advice: Advice)
    requires s.mode == NextBarOpen && b.pending.None? && b.position.None?
    ensures var risk := RiskAmount(b.capital, s.riskPerTradePct);
            var b' := HandleEntry(s, b, c, advice);
            forall q: int {:trigger q as real} :: q > 0 ==>
              (b' == b.(pending := Some(Order(advice.side.GetOr(Buy), q as real, None, c.timestamp))) <==>
                 && advice.side.Some? && advice.confidence > 0.5 && c.close > 0.0
                 && c.close * q as real <= risk < c.close * (q + 1) as real && c.close * q as real < b.capital * 0.5)
    ensures var b' := HandleEntry(s, b, c, advice);
            b' == b || (b'.pending.Some? && b'.pending.value.quantity > 0.0)
  {
    var risk := RiskAmount(b.capital, s.riskPerTradePct);
    if c.close > 0.0 {
      forall q: int {:trigger q as real}
        ensures TargetQuantity(risk, c.close) == q <==> c.close * q as real <= risk < c.close * (q + 1) as real
      {
        FloorOfQuotient(risk, c.close, q, q as real, (q + 1) as real);
      }
    }
  }

  lemma FloorOfQuotient(risk: real, price: real, q: int, low: real, high: real)
    requires price > 0.0 && low == q as real && high == (q + 1) as real
    ensures TargetQuantity(risk, price) == q <==> price * low <= risk < price * high
  {
    QuotientBound(risk, price, low);
    QuotientBound(risk, price, high);
  }
}
