/** What every simulated order comes to, told in basis points, rates and cash alone. */
module Fills {
  import opened Common
  import opened ExecutionSimulator

  lemma Together(price: real, a: real, b: real)
    ensures price + price * a + price * b == price * (1.0 + (a + b))
    ensures price - price * a - price * b == price * (1.0 - (a + b))
  {
    assert price * (1.0 + (a + b)) == price + price * (a + b);
    assert price * (1.0 - (a + b)) == price - price * (a + b);
    assert price * (a + b) == price * a + price * b;
  }

  lemma SameShare(price: real, a: real, b: real)
    requires a == b
    ensures price * a == price * b
  {
  }

  lemma SharesOfPrice(cfg: Config, raw: real)
    ensures var half, slip := Part(raw, HalfSpreadPct(cfg)), Part(raw, SlippagePct(cfg));
            && raw + half + slip == raw * (1.0 + (cfg.spreadBps / 2.0 + cfg.slippageBps) / 10000.0)
            && raw - half - slip == raw * (1.0 - (cfg.spreadBps / 2.0 + cfg.slippageBps) / 10000.0)
            && half == raw * (cfg.spreadBps / 20000.0) && slip == raw * (cfg.slippageBps / 10000.0)
  {
    var half, slip := HalfSpreadPct(cfg), SlippagePct(cfg);
    Together(raw, half, slip);
    SameShare(raw, 1.0 + (half + slip), 1.0 + (cfg.spreadBps / 2.0 + cfg.slippageBps) / 10000.0);
    SameShare(raw, 1.0 - (half + slip), 1.0 - (cfg.spreadBps / 2.0 + cfg.slippageBps) / 10000.0);
    SameShare(raw, half, cfg.spreadBps / 20000.0);
  }

  /** The fill's price is made of the reference price and its two parts. */
  ghost predicate MadeOf(raw: real, half: real, slip: real, side: Side, fill: Fill) {
    && fill.fillPrice == (if side == Buy then raw + half + slip else raw - half - slip)
    && fill.spreadAmount == half && fill.slippageAmount == slip && !fill.isMaker
  }

  lemma PartsOfFill(cfg: Config, order: Order, raw: real, volume: real, cash: real)
    requires raw > 0.0
    ensures MadeOf(raw, Part(raw, HalfSpreadPct(cfg)), Part(raw, SlippagePct(cfg)), order.side,
                   MarketFill(cfg, order, raw, volume, cash))
  {
  }

  /** Priced in basis points of the reference price. */
  ghost predicate Priced(cfg: Config, raw: real, fill: Fill, side: Side) {
    && (side == Buy ==> fill.fillPrice == raw * (1.0 + (cfg.spreadBps / 2.0 + cfg.slippageBps) / 10000.0))
    && (side == Sell ==> fill.fillPrice == raw * (1.0 - (cfg.spreadBps / 2.0 + cfg.slippageBps) / 10000.0))
    && fill.spreadAmount == raw * (cfg.spreadBps / 20000.0)
    && fill.slippageAmount == raw * (cfg.slippageBps / 10000.0)
    && !fill.isMaker
  }

  lemma InBasisPoints(cfg: Config, raw: real, fill: Fill, side: Side)
    requires MadeOf(raw, Part(raw, HalfSpreadPct(cfg)), Part(raw, SlippagePct(cfg)), side, fill)
    ensures Priced(cfg, raw, fill, side)
  {
    SharesOfPrice(cfg, raw);
  }

  /**
   * The price of a market order, filled or refused for lack of cash: half the spread and the slippage, in basis points
   * of the reference price, on top of it for a purchase and off it for a sale. Only a positive
   * reference price is traded at all.
   */
  lemma MarketPrice(cfg: Config, order: Order, candle: Candle, cash: real, basePrice: Option<real>)
    ensures var raw := if basePrice.Some? then basePrice.value else candle.open;
            var fill := FillMarketOrder(cfg, order, candle, cash, basePrice);
            if raw <= 0.0 then fill == Fill(false, 0.0, 0.0, 0.0, 0.0, 0.0, false)
            else Priced(cfg, raw, fill, order.side)
  {
    var raw := if basePrice.Some? then basePrice.value else candle.open;
    if raw > 0.0 {
      PartsOfFill(cfg, order, raw, candle.volume, cash);
      InBasisPoints(cfg, raw, FillMarketOrder(cfg, order, candle, cash, basePrice), order.side);
    }
  }

  /** What volume lets through: all of the order, unless the bar has a volume and a share of it is the cap. */
  ghost predicate LetThrough(cfg: Config, order: Order, candle: Candle, wanted: real) {
    if candle.volume <= 0.0 || cfg.maxVolumeParticipation <= 0.0 then wanted == order.quantity
    else
      && wanted <= order.quantity && wanted <= candle.volume * cfg.maxVolumeParticipation
      && (wanted == order.quantity || wanted == candle.volume * cfg.maxVolumeParticipation)
  }

  lemma VolumeLetsThrough(cfg: Config, order: Order, candle: Candle)
    ensures forall wanted :: LetThrough(cfg, order, candle, wanted) <==>
                             wanted == VolumeCapped(cfg, order.quantity, candle.volume)
  {
  }

  /** A sale at a positive reference price fills, whatever the cash, for all that volume lets through. */
  lemma MarketSale(cfg: Config, order: Order, candle: Candle, cash: real, basePrice: Option<real>, wanted: real)
    requires order.side == Sell && LetThrough(cfg, order, candle, wanted)
    ensures var raw := if basePrice.Some? then basePrice.value else candle.open;
            var fill := FillMarketOrder(cfg, order, candle, cash, basePrice);
            && (fill.filled <==> raw > 0.0)
            && (fill.filled ==>
                  fill.filledQuantity == wanted && fill.fee == fill.fillPrice * wanted * cfg.takerFeeRate)
  {
    VolumeLetsThrough(cfg, order, candle);
  }

  /**
   * How cash decides a purchase at a price: all that is wanted if it can be paid with its fee; else the
   * quantity q that exactly spends the cash, unless q or its value is too small, and then nothing.
   */
  ghost predicate Paid(cfg: Config, fill: Fill, wanted: real, rate: real, cash: real, q: real)
  {
    var price := fill.fillPrice;
    && (price * wanted + price * wanted * rate <= cash ==> fill.filled && fill.filledQuantity == wanted)
    && (price * wanted + price * wanted * rate > cash ==>
          && (fill.filled <==> q >= 0.000001 && q * price >= cfg.minNotional)
          && (fill.filled ==> fill.filledQuantity == q))
    && (fill.filled ==> fill.fee == price * fill.filledQuantity * rate)
    && (!fill.filled ==> fill.filledQuantity == 0.0 && fill.fee == 0.0)
  }

  lemma SettledIsPaid(cfg: Config, price: real, wanted: real, rate: real, cash: real, slip: real, spread: real,
                      maker: bool, q: real)
    requires price * (1.0 + rate) != 0.0 && q * (price * (1.0 + rate)) == cash
    ensures Paid(cfg, Settle(cfg, Buy, price, wanted, rate, cash, slip, spread, maker), wanted, rate, cash, q)
  {
    var unitCost := price * (1.0 + rate);
    OnlyQuotient(q, unitCost, cash);
    assert Cost(price, rate, wanted) == price * wanted + price * wanted * rate;
  }

  lemma OnlyQuotient(q: real, d: real, a: real)
    requires d != 0.0 && q * d == a
    ensures q == a / d
  {
  }

  /** Every market purchase at a positive reference price. */
  lemma MarketPurchase(cfg: Config, order: Order, candle: Candle, cash: real, basePrice: Option<real>, wanted: real, q: real)
    requires order.side == Buy && LetThrough(cfg, order, candle, wanted) && basePrice.GetOr(candle.open) > 0.0
    requires var price := FillMarketOrder(cfg, order, candle, cash, basePrice).fillPrice;
             price * (1.0 + cfg.takerFeeRate) != 0.0 && q * (price * (1.0 + cfg.takerFeeRate)) == cash
    ensures Paid(cfg, FillMarketOrder(cfg, order, candle, cash, basePrice), wanted, cfg.takerFeeRate, cash, q)
  {
    VolumeLetsThrough(cfg, order, candle);
    var fill := FillMarketOrder(cfg, order, candle, cash, basePrice);
    SettledIsPaid(cfg, fill.fillPrice, wanted, cfg.takerFeeRate, cash, fill.slippageAmount, fill.spreadAmount, false, q);
  }

  /** The bar's range reaches a positive limit. */
  ghost predicate Reached(order: Order, candle: Candle) {
    && order.limitPrice.Some? && order.limitPrice.value > 0.0
    && (order.side == Buy ==> candle.low <= order.limitPrice.value)
    && (order.side == Sell ==> candle.high >= order.limitPrice.value)
  }

  /**
   * A limit order that is not reached costs nothing and trades nothing. One that is, trades at its limit
   * or at the open when that is better, pays no spread or slippage, and is charged as a maker.
   */
  lemma LimitPrice(cfg: Config, order: Order, candle: Candle, cash: real)
    ensures var fill := FillLimitOrder(cfg, order, candle, cash);
            if !Reached(order, candle) then fill == Fill(false, 0.0, 0.0, 0.0, 0.0, 0.0, true)
            else
              && (order.side == Buy ==> fill.fillPrice <= order.limitPrice.value && fill.fillPrice <= candle.open)
              && (order.side == Sell ==> fill.fillPrice >= order.limitPrice.value && fill.fillPrice >= candle.open)
              && (fill.fillPrice == order.limitPrice.value || fill.fillPrice == candle.open)
              && fill.slippageAmount == 0.0 && fill.spreadAmount == 0.0 && fill.isMaker
  {
  }

  lemma LimitSale(cfg: Config, order: Order, candle: Candle, cash: real, wanted: real)
    requires order.side == Sell && LetThrough(cfg, order, candle, wanted)
    ensures var fill := FillLimitOrder(cfg, order, candle, cash);
            && (fill.filled <==> Reached(order, candle))
            && (fill.filled ==>
                  fill.filledQuantity == wanted && fill.fee == fill.fillPrice * wanted * cfg.makerFeeRate)
  {
    VolumeLetsThrough(cfg, order, candle);
  }

  lemma LimitPurchase(cfg: Config, order: Order, candle: Candle, cash: real, wanted: real, q: real)
    requires order.side == Buy && LetThrough(cfg, order, candle, wanted) && Reached(order, candle)
    requires var price := FillLimitOrder(cfg, order, candle, cash).fillPrice;
             price * (1.0 + cfg.makerFeeRate) != 0.0 && q * (price * (1.0 + cfg.makerFeeRate)) == cash
    ensures Paid(cfg, FillLimitOrder(cfg, order, candle, cash), wanted, cfg.makerFeeRate, cash, q)
  {
    VolumeLetsThrough(cfg, order, candle);
    var fill := FillLimitOrder(cfg, order, candle, cash);
    SettledIsPaid(cfg, fill.fillPrice, wanted, cfg.makerFeeRate, cash, 0.0, 0.0, true, q);
  }
}
