/** Fills of simulated orders: spread, slippage, fees, the volume cap and the cash cap. */
module ExecutionSimulator {
  import opened Common

  datatype Side = Buy | Sell {
    function Opposite(): Side { if Buy? then Sell else Buy }
  }

  datatype Candle = Candle(open: real, high: real, low: real, close: real, volume: real, timestamp: real)

  datatype Config = Config(slippageBps: real, spreadBps: real, makerFeeRate: real, takerFeeRate: real,
                           maxVolumeParticipation: real, minNotional: real)

  const DEFAULT_CONFIG := Config(5.0, 4.0, 0.0005, 0.001, 0.1, 5.0)

  datatype Order = Order(side: Side, quantity: real, limitPrice: Option<real>, timestamp: real)

  datatype Fill = Fill(filled: bool, fillPrice: real, filledQuantity: real, fee: real,
                       slippageAmount: real, spreadAmount: real, isMaker: bool)

  function SlippagePct(cfg: Config): real { cfg.slippageBps / 10000.0 }

  function HalfSpreadPct(cfg: Config): real { (cfg.spreadBps / 2.0) / 10000.0 }

  function Part(price: real, share: real): real { price * share }

  /** What the bar's volume lets through of an order. */
  function VolumeCapped(cfg: Config, quantity: real, volume: real): real {
    if volume > 0.0 && cfg.maxVolumeParticipation > 0.0 && quantity > volume * cfg.maxVolumeParticipation
    then volume * cfg.maxVolumeParticipation
    else quantity
  }

  function Amount(price: real, quantity: real): real { price * quantity }

  function Fee(fillPrice: real, feeRate: real, q: real): real { Amount(fillPrice, q) * feeRate }

  /** What buying q units costs, fee included. */
  function Cost(fillPrice: real, feeRate: real, q: real): real {
    Amount(fillPrice, q) + Fee(fillPrice, feeRate, q)
  }

  /**
   * The quantity that executes after the cash check, or None when the affordable quantity is too
   * small. Division by zero yields an infinity of the sign of the cash (negative here, because the
   * check only runs when the cash is short), and so ends in the same refusal.
   */
  function CashCapped(cfg: Config, side: Side, fillPrice: real, quantity: real, feeRate: real, cash: real)
    : Option<real>
  {
    if side == Buy && cash < Cost(fillPrice, feeRate, quantity) then
      var unitCost := fillPrice * (1.0 + feeRate);
      if unitCost == 0.0 || cash / unitCost < 0.000001 || cash / unitCost * fillPrice < cfg.minNotional
      then None
      else Some(cash / unitCost)
    else Some(quantity)
  }

  function Settle(cfg: Config, side: Side, fillPrice: real, quantity: real, feeRate: real, cash: real,
                  slippageAmount: real, spreadAmount: real, isMaker: bool): Fill
  {
    match CashCapped(cfg, side, fillPrice, quantity, feeRate, cash)
    case None => Fill(false, fillPrice, 0.0, 0.0, slippageAmount, spreadAmount, isMaker)
    case Some(q) => Fill(true, fillPrice, q, Fee(fillPrice, feeRate, q), slippageAmount, spreadAmount, isMaker)
  }

  /** A market fill at a reference price, on a bar of the given volume. */
  function MarketFill(cfg: Config, order: Order, rawPrice: real, volume: real, cash: real): Fill {
    if rawPrice <= 0.0 then Fill(false, 0.0, 0.0, 0.0, 0.0, 0.0, false)
    else
      var spreadAmount := Part(rawPrice, HalfSpreadPct(cfg));
      var slippageAmount := Part(rawPrice, SlippagePct(cfg));
      var fillPrice := if order.side == Buy then rawPrice + spreadAmount + slippageAmount
                       else rawPrice - spreadAmount - slippageAmount;
      Settle(cfg, order.side, fillPrice, VolumeCapped(cfg, order.quantity, volume), cfg.takerFeeRate, cash,
             slippageAmount, spreadAmount, false)
  }

  function FillMarketOrder(cfg: Config, order: Order, candle: Candle, cash: real, basePrice: Option<real>): Fill {
    MarketFill(cfg, order, basePrice.GetOr(candle.open), candle.volume, cash)
  }

  function FillLimitOrder(cfg: Config, order: Order, candle: Candle, cash: real): Fill {
    if order.limitPrice.None? || order.limitPrice.value <= 0.0 then
      Fill(false, 0.0, 0.0, 0.0, 0.0, 0.0, true)
    else
      var limit := order.limitPrice.value;
      var reached := if order.side == Buy then candle.low <= limit else candle.high >= limit;
      if !reached then Fill(false, 0.0, 0.0, 0.0, 0.0, 0.0, true)
      else
        var fillPrice := if order.side == Buy then Min(limit, candle.open) else Max(limit, candle.open);
        Settle(cfg, order.side, fillPrice, VolumeCapped(cfg, order.quantity, candle.volume), cfg.makerFeeRate, cash,
               0.0, 0.0, true)
  }

  // ---------------------------------------------------------------------------------------------
  // What a fill means

  /** Costs are never negative and slippage plus half the spread never exceeds the price itself. */
  ghost predicate Frictional(cfg: Config) {
    && cfg.slippageBps >= 0.0 && cfg.spreadBps >= 0.0 && cfg.takerFeeRate >= 0.0 && cfg.makerFeeRate >= 0.0
    && SlippagePct(cfg) + HalfSpreadPct(cfg) <= 1.0
  }

  /** The largest quantity whose cost the cash covers. */
  ghost predicate LargestAffordable(q: real, fillPrice: real, feeRate: real, cash: real) {
    && Cost(fillPrice, feeRate, q) <= cash
    && forall more: real :: more > q ==> Cost(fillPrice, feeRate, more) > cash
  }

  lemma CostPerUnit(fillPrice: real, feeRate: real, q: real)
    ensures Cost(fillPrice, feeRate, q) == q * (fillPrice * (1.0 + feeRate))
  {
    assert fillPrice * q * feeRate == q * (fillPrice * feeRate);
    assert fillPrice * (1.0 + feeRate) == fillPrice + fillPrice * feeRate;
  }

  lemma CostGrows(fillPrice: real, feeRate: real, a: real, b: real)
    requires fillPrice > 0.0 && feeRate >= 0.0 && a < b
    ensures Cost(fillPrice, feeRate, a) < Cost(fillPrice, feeRate, b)
  {
    CostPerUnit(fillPrice, feeRate, a);
    CostPerUnit(fillPrice, feeRate, b);
    Scale(0.0, 1.0 + feeRate, fillPrice);
    Scale(a, b, fillPrice * (1.0 + feeRate));
  }

  /** Dividing the cash by the unit cost finds the largest affordable quantity, and the only one. */
  lemma DivisionFindsLargest(fillPrice: real, feeRate: real, cash: real, unitCost: real, q: real)
    requires fillPrice > 0.0 && feeRate >= 0.0 && unitCost == fillPrice * (1.0 + feeRate)
    ensures unitCost > 0.0
    ensures LargestAffordable(q, fillPrice, feeRate, cash) <==> q == cash / unitCost
  {
    Scale(0.0, 1.0 + feeRate, fillPrice);
    var best := cash / unitCost;
    assert Cost(fillPrice, feeRate, best) == cash by {
      CostPerUnit(fillPrice, feeRate, best);
      assert best * unitCost == cash;
    }
    if q > best { CostGrows(fillPrice, feeRate, best, q); }
    if q == best {
      forall more: real | more > q
        ensures Cost(fillPrice, feeRate, more) > cash
      {
        CostGrows(fillPrice, feeRate, best, more);
      }
    }
  }

  /**
   * The cash check of a purchase at a positive price. The wanted quantity goes through whole if it
   * can be paid; otherwise exactly the largest affordable quantity does, provided it reaches the
   * quantity and notional minima; otherwise nothing.
   */
  lemma {:induction false} CashCappedIsLargestAffordable(cfg: Config, fillPrice: real, wanted: real, feeRate: real, cash: real)
    requires fillPrice > 0.0 && feeRate >= 0.0
    ensures var executed := CashCapped(cfg, Buy, fillPrice, wanted, feeRate, cash);
            if Cost(fillPrice, feeRate, wanted) <= cash then executed == Some(wanted)
            else forall q :: LargestAffordable(q, fillPrice, feeRate, cash) ==>
              && q < wanted
              && executed == if q < 0.000001 || q * fillPrice < cfg.minNotional then None else Some(q)
    ensures var executed := CashCapped(cfg, Buy, fillPrice, wanted, feeRate, cash);
            executed.Some? ==> Cost(fillPrice, feeRate, executed.value) <= cash && executed.value <= wanted
  {
    var unitCost := fillPrice * (1.0 + feeRate);
    var best := cash / unitCost;
    DivisionFindsLargest(fillPrice, feeRate, cash, unitCost, best);
    if Cost(fillPrice, feeRate, wanted) > cash {
      if wanted < best { CostGrows(fillPrice, feeRate, wanted, best); }
      forall q | LargestAffordable(q, fillPrice, feeRate, cash)
        ensures q == best
      {
        DivisionFindsLargest(fillPrice, feeRate, cash, unitCost, q);
      }
    }
  }

  lemma PartsOfPrice(price: real, a: real, b: real)
    requires price > 0.0 && a >= 0.0 && b >= 0.0 && a + b <= 1.0
    ensures Part(price, a) >= 0.0 && Part(price, b) >= 0.0
    ensures Part(price, a) + Part(price, b) <= price
  {
    Scale(a + b, 1.0, price);
    Scale(0.0, a, price);
    Scale(0.0, b, price);
  }

  /** A market fill never beats the reference price, and a sale never has a negative price. */
  lemma MarketFillPrice(cfg: Config, order: Order, candle: Candle, cash: real, basePrice: Option<real>)
    requires Frictional(cfg)
    ensures var raw := basePrice.GetOr(candle.open);
            var fill := FillMarketOrder(cfg, order, candle, cash, basePrice);
            && (fill.filled ==> raw > 0.0)
            && (fill.filled && order.side == Buy ==> fill.fillPrice >= raw)
            && (fill.filled && order.side == Sell ==> 0.0 <= fill.fillPrice <= raw)
            && (fill.filled ==> fill.fee == Fee(fill.fillPrice, cfg.takerFeeRate, fill.filledQuantity))
  {
    var raw := basePrice.GetOr(candle.open);
    if raw > 0.0 {
      PartsOfPrice(raw, HalfSpreadPct(cfg), SlippagePct(cfg));
    }
  }

  ghost predicate CostFree(cfg: Config) {
    cfg.slippageBps == 0.0 && cfg.spreadBps == 0.0 && cfg.takerFeeRate == 0.0 && cfg.makerFeeRate == 0.0
  }

  lemma FreeFill(cfg: Config, order: Order, candle: Candle, cash: real, price: real)
    requires CostFree(cfg) && price > 0.0
    ensures var fill := FillMarketOrder(cfg, order, candle, cash, Some(price));
            fill.filled ==> fill.fillPrice == price && fill.fee == 0.0
  {
    assert Part(price, HalfSpreadPct(cfg)) == 0.0 && Part(price, SlippagePct(cfg)) == 0.0;
  }

  /** A sale at a positive price always fills, for whatever the bar's volume lets through. */
  lemma SellAlwaysFills(cfg: Config, order: Order, candle: Candle, cash: real, price: real)
    requires order.side == Sell && price > 0.0
    ensures var fill := FillMarketOrder(cfg, order, candle, cash, Some(price));
            fill.filled && fill.filledQuantity == VolumeCapped(cfg, order.quantity, candle.volume)
  {
  }

  /** Every market purchase is paid for in full and stays within the order and the volume cap. */
  lemma MarketBuyIsAffordable(cfg: Config, order: Order, candle: Candle, cash: real, basePrice: Option<real>)
    requires Frictional(cfg) && order.side == Buy
    ensures var fill := FillMarketOrder(cfg, order, candle, cash, basePrice);
            fill.filled ==>
              && Amount(fill.fillPrice, fill.filledQuantity) + fill.fee <= cash
              && fill.filledQuantity <= VolumeCapped(cfg, order.quantity, candle.volume) <= order.quantity
  {
    MarketFillPrice(cfg, order, candle, cash, basePrice);
    var fill := FillMarketOrder(cfg, order, candle, cash, basePrice);
    if fill.filled {
      CashCappedIsLargestAffordable(cfg, fill.fillPrice, VolumeCapped(cfg, order.quantity, candle.volume),
                                    cfg.takerFeeRate, cash);
    }
  }

  /** At a price of nothing or less, an order that the cash does not cover is below every minimum and refused. */
  lemma ShortOfCashIsRefused(cfg: Config, fillPrice: real, wanted: real, feeRate: real, cash: real)
    requires fillPrice <= 0.0 && feeRate >= 0.0 && cfg.minNotional >= 0.0 && cash < Cost(fillPrice, feeRate, wanted)
    ensures CashCapped(cfg, Buy, fillPrice, wanted, feeRate, cash).None?
  {
    var unitCost := fillPrice * (1.0 + feeRate);
    if unitCost != 0.0 && cash / unitCost > 0.0 { Scale(fillPrice, 0.0, cash / unitCost); }
  }

  /** The same for a limit purchase, which moreover never pays more than its limit. */
  lemma LimitBuyIsAffordable(cfg: Config, order: Order, candle: Candle, cash: real)
    requires Frictional(cfg) && cfg.minNotional >= 0.0 && order.side == Buy
    ensures var fill := FillLimitOrder(cfg, order, candle, cash);
            fill.filled ==>
              && order.limitPrice.Some? && candle.low <= order.limitPrice.value && fill.fillPrice <= order.limitPrice.value
              && Amount(fill.fillPrice, fill.filledQuantity) + fill.fee <= cash
              && fill.filledQuantity <= VolumeCapped(cfg, order.quantity, candle.volume) <= order.quantity
  {
    var fill := FillLimitOrder(cfg, order, candle, cash);
    var wanted := VolumeCapped(cfg, order.quantity, candle.volume);
    if fill.filled {
      if fill.fillPrice > 0.0 {
        CashCappedIsLargestAffordable(cfg, fill.fillPrice, wanted, cfg.makerFeeRate, cash);
      } else if cash < Cost(fill.fillPrice, cfg.makerFeeRate, wanted) {
        ShortOfCashIsRefused(cfg, fill.fillPrice, wanted, cfg.makerFeeRate, cash);
      }
    }
  }

  /** A sale is never checked against the cash: it fills whatever the balance. */
  lemma SellIgnoresCash(cfg: Config, order: Order, candle: Candle, cash: real, other: real, basePrice: Option<real>)
    requires order.side == Sell
    ensures FillMarketOrder(cfg, order, candle, cash, basePrice) == FillMarketOrder(cfg, order, candle, other, basePrice)
    ensures FillLimitOrder(cfg, order, candle, cash) == FillLimitOrder(cfg, order, candle, other)
  {
  }

  /** A fill of a positive order is positive and no larger than the order. */
  lemma FilledQuantityPositive(cfg: Config, order: Order, candle: Candle, cash: real, basePrice: Option<real>)
    requires Frictional(cfg) && order.quantity > 0.0
    ensures var fill := FillMarketOrder(cfg, order, candle, cash, basePrice);
            fill.filled ==> 0.0 < fill.filledQuantity <= order.quantity && fill.fee >= 0.0
  {
    MarketFillPrice(cfg, order, candle, cash, basePrice);
    var fill := FillMarketOrder(cfg, order, candle, cash, basePrice);
    if fill.filled {
      if order.side == Buy {
        MarketBuyIsAffordable(cfg, order, candle, cash, basePrice);
      }
      assert fill.fillPrice * fill.filledQuantity >= 0.0;
    }
  }
}
