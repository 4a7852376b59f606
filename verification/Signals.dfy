/** What a strategy's advice leads to: exits and entries, in both modes and over whole runs. */
module Signals {
  import opened Common
  import opened ExecutionSimulator
  import opened BacktestEngine
  import Fills
  import TradeLog

  /** The strategy is shown the last closes before bar i, in order, the most recent one last. */
  lemma WindowIsTheLastCloses(cs: seq<Candle>, lookback: nat, i: nat)
    requires i <= |cs|
    ensures var w := Window(cs, lookback, i);
            && |w| <= i && |w| <= lookback && (|w| == i || |w| == lookback)
            && forall k :: 0 <= k < |w| ==> w[k] == cs[i - |w| + k].close
  {
  }

  // ---------------------------------------------------------------------------------------------
  // One exit

  /** Advice to sell what is long or to buy back what is short, however confident. */
  predicate Opposes(advice: Advice, p: Position) {
    (p.side == Buy && advice.side == Some(Sell)) || (p.side == Sell && advice.side == Some(Buy))
  }

  /** An order for a whole position, the other way round. */
  ghost predicate Unwinds(order: Order, p: Position, time: real) {
    && order.side != p.side && order.quantity == p.quantity
    && order.limitPrice == None && order.timestamp == time
  }

  /** The trade that a position ends in when a fill closes it. */
  ghost predicate Ends(p: Position, fill: Fill, time: real, t: Trade) {
    && t.side == p.side && t.quantity == p.quantity
    && t.entryPrice == p.entryPrice && t.entryTime == p.entryTime
    && t.exitPrice == fill.fillPrice && t.exitTime == time && t.fees == fill.fee
    && (p.side == Buy ==> t.pnl == (fill.fillPrice - p.entryPrice) * p.quantity - fill.fee)
    && (p.side == Sell ==> t.pnl == (p.entryPrice - fill.fillPrice) * p.quantity - fill.fee)
  }

  /** The book once a position has been closed by a fill: what was set aside for it comes back with the result. */
  ghost predicate Closed(b: Book, p: Position, fill: Fill, time: real, b': Book) {
    && b'.position == None && |b'.trades| == |b.trades| + 1 && b'.trades[..|b.trades|] == b.trades
    && Ends(p, fill, time, b'.trades[|b.trades|])
    && b'.capital == b.capital + (b'.trades[|b.trades|].pnl + p.entryPrice * p.quantity)
  }

  lemma ClosingCloses(b: Book, p: Position, fill: Fill, time: real)
    ensures var b' := ClosePosition(b, p, fill, time);
            b'.pending == b.pending && if fill.filled then Closed(b, p, fill, time, b') else b' == b
  {
  }

  /**
   * With execution at the next open, an open position and nothing pending, an exit of the whole position
   * is scheduled if and only if the advice opposes it, whatever its confidence; nothing else changes.
   */
  lemma ExitScheduledExactlyWhen(s: Settings, b: Book, c: Candle, advice: Advice)
    requires s.mode == NextBarOpen && b.pending.None? && b.position.Some?
    ensures var b' := HandleEntry(s, HandleExit(s, b, c, advice), c, advice);
            && (b'.pending.Some? <==> Opposes(advice, b.position.value))
            && (b'.pending.Some? ==> Unwinds(b'.pending.value, b.position.value, c.timestamp))
            && b' == b.(pending := b'.pending)
  {
  }

  /**
   * With execution at the close, the position goes, with one trade, if and only if the advice opposes it
   * and its exit order fills at the close; otherwise the book is as it was.
   */
  lemma ExitAtCloseExactlyWhen(s: Settings, b: Book, c: Candle, advice: Advice, order: Order)
    requires s.mode == CurrentBarClose && b.position.Some? && Unwinds(order, b.position.value, c.timestamp)
    ensures var fill := FillMarketOrder(s.config, order, c, b.capital, Some(c.close));
            var b' := HandleExit(s, b, c, advice);
            && b'.pending == b.pending
            && if Opposes(advice, b.position.value) && fill.filled then
                 Closed(b, b.position.value, fill, c.timestamp, b')
               else b' == b
  {
    ClosingCloses(b, b.position.value, FillMarketOrder(s.config, order, c, b.capital, Some(c.close)), c.timestamp);
  }

  // ---------------------------------------------------------------------------------------------
  // One entry

  /** A position taken by a fill, paid for with its fee. */
  ghost predicate Opened(b: Book, side: Side, fill: Fill, time: real, b': Book) {
    && b'.position == Some(Position(side, fill.fillPrice, fill.filledQuantity, time))
    && b'.capital == b.capital - (fill.fillPrice * fill.filledQuantity + fill.fee) && b'.trades == b.trades
  }

  lemma OpeningOpens(b: Book, side: Side, fill: Fill, time: real)
    ensures var b' := OpenPosition(b, side, fill, time);
            && b'.pending == b.pending
            && if fill.filled && fill.filledQuantity > 0.0 then Opened(b, side, fill, time, b') else b' == b
  {
  }

  /** Confident advice whose risk amount buys q whole units at the close and not one more, for under half the capital. */
  ghost predicate Sizes(s: Settings, b: Book, c: Candle, advice: Advice, q: int) {
    && advice.side.Some? && advice.confidence > 0.5 && q > 0 && c.close > 0.0
    && c.close * q as real <= b.capital * s.riskPerTradePct < c.close * (q + 1) as real
    && c.close * q as real < b.capital * 0.5
  }

  lemma SizesExactlyWhen(s: Settings, b: Book, c: Candle, advice: Advice, q: int)
    ensures Sizes(s, b, c, advice, q) <==>
              && advice.side.Some? && !(advice.confidence <= 0.5) && q > 0
              && q == TargetQuantity(RiskAmount(b.capital, s.riskPerTradePct), c.close)
              && !(Notional(c.close, q) >= b.capital * 0.5)
  {
    if c.close > 0.0 {
      var risk, low, high := RiskAmount(b.capital, s.riskPerTradePct), q as real, (q + 1) as real;
      TradeLog.FloorOfQuotient(risk, c.close, q, low, high);
      assert Notional(c.close, q) == c.close * low;
    }
  }

  /**
   * With nothing open and nothing pending, an entry of q units follows if and only if the advice sizes to
   * q: scheduled for the next open, or filled at the close.
   */
  lemma EntryExactlyWhen(s: Settings, b: Book, c: Candle, advice: Advice)
    requires b.pending.None? && b.position.None?
    ensures forall q: int {:trigger Sizes(s, b, c, advice, q)} :: Sizes(s, b, c, advice, q) ==>
              EntersWith(s, b, c, Order(advice.side.value, q as real, None, c.timestamp), HandleEntry(s, b, c, advice))
    ensures (forall q: int :: !Sizes(s, b, c, advice, q)) ==> HandleEntry(s, b, c, advice) == b
  {
    var target := TargetQuantity(RiskAmount(b.capital, s.riskPerTradePct), c.close);
    SizesExactlyWhen(s, b, c, advice, target);
    forall q: int {:trigger Sizes(s, b, c, advice, q)} | Sizes(s, b, c, advice, q)
      ensures EntersWith(s, b, c, Order(advice.side.value, q as real, None, c.timestamp), HandleEntry(s, b, c, advice))
    {
      SizesExactlyWhen(s, b, c, advice, q);
      var order := Order(advice.side.value, q as real, None, c.timestamp);
      OpeningOpens(b, order.side, FillMarketOrder(s.config, order, c, b.capital, Some(c.close)), c.timestamp);
    }
  }

  ghost predicate EntersWith(s: Settings, b: Book, c: Candle, order: Order, b': Book) {
    var fill := FillMarketOrder(s.config, order, c, b.capital, Some(c.close));
    if s.mode == NextBarOpen then b' == b.(pending := Some(order))
    else if fill.filled && fill.filledQuantity > 0.0 then Opened(b, order.side, fill, c.timestamp, b') && b'.pending.None?
    else b' == b
  }

  /** With something open or pending there is no entry. */
  lemma NoEntryBesideAnother(s: Settings, b: Book, c: Candle, advice: Advice)
    requires b.pending.Some? || b.position.Some?
    ensures HandleEntry(s, b, c, advice) == b
  {
  }

  // ---------------------------------------------------------------------------------------------
  // Whole runs

  /** What the next open does with an order left pending: it closes what is open, or opens a position, or lapses. */
  ghost predicate MeetsOpen(s: Settings, b: Book, c: Candle, b': Book) {
    if b.pending.None? then b' == b
    else
      var fill := FillMarketOrder(s.config, b.pending.value, c, b.capital, Some(c.open));
      && b'.pending.None?
      && if b.position.Some? && fill.filled then Closed(b, b.position.value, fill, c.timestamp, b')
         else if b.position.None? && fill.filled && fill.filledQuantity > 0.0 then
           Opened(b, b.pending.value.side, fill, c.timestamp, b')
         else b' == b.(pending := None)
  }

  lemma PendingMeetsOpen(s: Settings, b: Book, c: Candle)
    requires s.mode == NextBarOpen
    ensures MeetsOpen(s, b, c, ExecutePending(s, b, c))
  {
    if b.pending.Some? {
      var fill := FillMarketOrder(s.config, b.pending.value, c, b.capital, Some(c.open));
      if b.position.Some? {
        ClosingCloses(b, b.position.value, fill, c.timestamp);
      } else {
        OpeningOpens(b, b.pending.value.side, fill, c.timestamp);
      }
    }
  }

  lemma {:induction false} BarScheduled(s: Settings, strategy: Strategy, cs: seq<Candle>, lookback: nat, i: nat)
    returns (b: Book, b': Book)
    requires s.mode == NextBarOpen && lookback <= i < |cs|
    ensures b == RunTo(s, strategy, cs, lookback, i).book && b' == RunTo(s, strategy, cs, lookback, i + 1).book
    ensures var met := ExecutePending(s, b, cs[i]);
            && MeetsOpen(s, b, cs[i], met) && met.pending.None?
            && b' == met.(pending := b'.pending)
            && (b'.position.Some? && b'.pending.Some? ==>
                  Unwinds(b'.pending.value, b'.position.value, cs[i].timestamp))
            && (b'.position.Some? ==>
                  (b'.pending.Some? <==> Opposes(strategy(Window(cs, lookback, i)), b'.position.value)))
  {
    b, b' := RunTo(s, strategy, cs, lookback, i).book, RunTo(s, strategy, cs, lookback, i + 1).book;
    var advice := strategy(Window(cs, lookback, i));
    var met := ExecutePending(s, b, cs[i]);
    PendingMeetsOpen(s, b, cs[i]);
    assert b' == HandleEntry(s, HandleExit(s, met, cs[i], advice), cs[i], advice);
    if met.position.Some? { ExitScheduledExactlyWhen(s, met, cs[i], advice); }
  }

  /**
   * Over any run with execution at the next open: a position open at the end of bar i is gone at the end
   * of bar i + 1, with its trade recorded, if and only if bar i's advice opposed it and the order to
   * unwind it fills at the open of bar i + 1; otherwise it is still there, and no trade was added.
   */
  lemma {:induction false} PositionEndsExactlyWhen(s: Settings, strategy: Strategy, cs: seq<Candle>, lookback: nat, i: nat)
    requires s.mode == NextBarOpen && lookback <= i && i + 1 < |cs|
    requires RunTo(s, strategy, cs, lookback, i + 1).book.position.Some?
    ensures var b, b' := RunTo(s, strategy, cs, lookback, i + 1).book, RunTo(s, strategy, cs, lookback, i + 2).book;
            var p := b.position.value;
            var order := Order(if p.side == Buy then Sell else Buy, p.quantity, None, cs[i].timestamp);
            var fill := FillMarketOrder(s.config, order, cs[i + 1], b.capital, Some(cs[i + 1].open));
            if Opposes(strategy(Window(cs, lookback, i)), p) && fill.filled then
              Closed(b, p, fill, cs[i + 1].timestamp, b')
            else b'.position == b.position && b'.trades == b.trades && b'.capital == b.capital
  {
    var before, b := BarScheduled(s, strategy, cs, lookback, i);
    var again, b' := BarScheduled(s, strategy, cs, lookback, i + 1);
    var p := b.position.value;
    if b.pending.Some? {
      assert b.pending.value == Order(if p.side == Buy then Sell else Buy, p.quantity, None, cs[i].timestamp);
    }
  }

  /** The whole position has been sold at this price, for one trade more. */
  ghost predicate SoldAt(b: Book, p: Position, price: real, time: real, b': Book) {
    && b'.position == None && |b'.trades| == |b.trades| + 1 && b'.trades[..|b.trades|] == b.trades
    && var t := b'.trades[|b.trades|];
       && t.side == Buy && t.quantity == p.quantity && t.entryPrice == p.entryPrice && t.entryTime == p.entryTime
       && t.exitPrice == price && t.exitTime == time && t.pnl == (price - p.entryPrice) * p.quantity - t.fees
       && b'.capital == b.capital + (t.pnl + p.entryPrice * p.quantity)
  }

  lemma ClosedIsSold(b: Book, p: Position, fill: Fill, price: real, time: real, b': Book)
    requires Closed(b, p, fill, time, b') && p.side == Buy && fill.fillPrice == price
    ensures SoldAt(b, p, price, time, b')
  {
  }

  /** What a sale at the open of a bar comes to. */
  lemma SaleAtOpen(s: Settings, order: Order, c: Candle, cash: real)
    requires order.side == Sell && c.open > 0.0
    ensures var fill := FillMarketOrder(s.config, order, c, cash, Some(c.open));
            fill.filled
            && fill.fillPrice == c.open * (1.0 - (s.config.spreadBps / 2.0 + s.config.slippageBps) / 10000.0)
  {
    Fills.MarketPrice(s.config, order, c, cash, Some(c.open));
    Fills.VolumeLetsThrough(s.config, order, c);
    Fills.MarketSale(s.config, order, c, cash, Some(c.open), VolumeCapped(s.config, order.quantity, c.volume));
  }

  /**
   * Advice to sell at bar i ends a long by the end of bar i + 1, if that bar opens above zero: one trade
   * more, for the whole position, at the open less half the spread and the slippage.
   */
  lemma {:induction false} SellingAdviceEndsLong(s: Settings, strategy: Strategy, cs: seq<Candle>, lookback: nat, i: nat,
                                                 b: Book, p: Position)
    requires s.mode == NextBarOpen && lookback <= i && i + 1 < |cs| && cs[i + 1].open > 0.0
    requires b == RunTo(s, strategy, cs, lookback, i + 1).book && b.position == Some(p) && p.side == Buy
    requires strategy(Window(cs, lookback, i)).side == Some(Sell)
    ensures SoldAt(b, p, cs[i + 1].open * (1.0 - (s.config.spreadBps / 2.0 + s.config.slippageBps) / 10000.0),
                   cs[i + 1].timestamp, RunTo(s, strategy, cs, lookback, i + 2).book)
  {
    PositionEndsExactlyWhen(s, strategy, cs, lookback, i);
    var order := Order(Sell, p.quantity, None, cs[i].timestamp);
    SaleAtOpen(s, order, cs[i + 1], b.capital);
    var fill := FillMarketOrder(s.config, order, cs[i + 1], b.capital, Some(cs[i + 1].open));
    ClosedIsSold(b, p, fill, fill.fillPrice, cs[i + 1].timestamp, RunTo(s, strategy, cs, lookback, i + 2).book);
  }

  /** The value of a book at a price: a long is worth what it would fetch, a short its proceeds less buying back. */
  ghost predicate WorthAt(b: Book, price: real, equity: real) {
    match b.position
    case None => equity == b.capital
    case Some(p) =>
      if p.side == Buy then equity == b.capital + p.quantity * price
      else equity == b.capital + p.quantity * (2.0 * p.entryPrice - price)
  }

  lemma LastPointIsWorth(s: Settings, strategy: Strategy, cs: seq<Candle>, lookback: nat, i: nat)
    requires lookback <= i < |cs|
    ensures var before, run := RunTo(s, strategy, cs, lookback, i), RunTo(s, strategy, cs, lookback, i + 1);
            && |run.equityCurve| == |before.equityCurve| + 1
            && run.equityCurve[..|before.equityCurve|] == before.equityCurve
            && WorthAt(run.book, cs[i].close, run.equityCurve[|before.equityCurve|])
  {
    var b := RunTo(s, strategy, cs, lookback, i + 1).book;
    if b.position.Some? { WorthOfPosition(b, b.position.value, cs[i].close); }
  }

  lemma WorthOfPosition(b: Book, p: Position, price: real)
    requires b.position == Some(p)
    ensures WorthAt(b, price, Equity(b.capital, b.position, price))
  {
    var entry, q := p.entryPrice, p.quantity;
    assert entry * q + (price - entry) * q == q * price;
    assert entry * q + (entry - price) * q == q * (2.0 * entry - price);
  }
}
