/** The figures of a report against the trades and the curve they are drawn from. */
module Figures {
  import opened Common
  import opened Metrics

  // ---------------------------------------------------------------------------------------------
  // Trades

  function Won(ts: seq<Outcome>): nat { if ts == [] then 0 else (if ts[0].pnl > 0.0 then 1 else 0) + Won(ts[1..]) }

  /** What the winning trades brought in. */
  function Gains(ts: seq<Outcome>): real {
    if ts == [] then 0.0 else (if ts[0].pnl > 0.0 then ts[0].pnl else 0.0) + Gains(ts[1..])
  }

  /** What the other trades lost, as a positive amount. */
  function Losses(ts: seq<Outcome>): real {
    if ts == [] then 0.0 else (if ts[0].pnl > 0.0 then 0.0 else -ts[0].pnl) + Losses(ts[1..])
  }

  function Fees(ts: seq<Outcome>): real { if ts == [] then 0.0 else ts[0].fees + Fees(ts[1..]) }

  lemma {:induction false} OneMoreTrade(ts: seq<Outcome>, t: Outcome)
    ensures Won(ts + [t]) == Won(ts) + (if t.pnl > 0.0 then 1 else 0)
    ensures Gains(ts + [t]) == Gains(ts) + (if t.pnl > 0.0 then t.pnl else 0.0)
    ensures Losses(ts + [t]) == Losses(ts) + (if t.pnl > 0.0 then 0.0 else -t.pnl)
    ensures Fees(ts + [t]) == Fees(ts) + t.fees
  {
    if ts == [] {
      assert [t][1..] == [];
    } else {
      OneMoreTrade(ts[1..], t);
      assert (ts + [t])[1..] == ts[1..] + [t];
    }
  }

  lemma {:induction false} Totals(ts: seq<Outcome>)
    ensures |Winners(ts)| == Won(ts) && |Losers(ts)| == |ts| - Won(ts)
    ensures SumPnl(Winners(ts)) == Gains(ts) && SumPnl(Losers(ts)) == -Losses(ts)
    ensures SumFees(ts) == Fees(ts) && Gains(ts) >= 0.0 && Losses(ts) >= 0.0
  {
    if ts != [] {
      var rest, t := ts[..|ts| - 1], ts[|ts| - 1];
      Totals(rest);
      OneMoreTrade(rest, t);
      assert rest + [t] == ts;
      if t.pnl > 0.0 {
        assert (Winners(rest) + [t])[..|Winners(rest)|] == Winners(rest);
      } else {
        assert (Losers(rest) + [t])[..|Losers(rest)|] == Losers(rest);
      }
    }
  }

  /** q is the quotient of a and b, and zero when there is nothing to divide by. */
  ghost predicate IsShare(q: real, a: real, b: real) {
    if b > 0.0 then q * b == a else q == 0.0
  }

  /** The same, but a profit without any loss to compare it with counts as 999. */
  ghost predicate IsComparison(q: real, profit: real, loss: real, any: bool) {
    if loss > 0.0 then q * loss == profit else q == if any then 999.0 else 0.0
  }

  lemma RatioIsShare(q: real, x: real, n: nat)
    requires q == Ratio(x, n)
    ensures IsShare(q, x, n as real)
  {
  }

  lemma QuotientIsComparison(q: real, profit: real, loss: real, any: bool)
    requires q == if loss > 0.0 then profit / loss else if any then 999.0 else 0.0
    ensures IsComparison(q, profit, loss, any)
  {
  }

  /** How many trades there were of each kind, and what they paid in fees. */
  lemma TradeCounts(ts: seq<Outcome>, totalPnl: real)
    ensures var a := Analyse(ts, totalPnl);
            && a.tradeCount == |ts| && a.winningTrades == Won(ts) && a.losingTrades == |ts| - Won(ts)
            && a.totalFees == Fees(ts)
  {
    Totals(ts);
  }

  /** The two rates are shares of all trades. */
  lemma TradeRates(ts: seq<Outcome>, totalPnl: real)
    ensures var a := Analyse(ts, totalPnl);
            && IsShare(a.winRate, Won(ts) as real, |ts| as real)
            && IsShare(a.lossRate, (|ts| - Won(ts)) as real, |ts| as real)
  {
    Totals(ts);
    var a := Analyse(ts, totalPnl);
    RatioIsShare(a.winRate, Won(ts) as real, |ts|);
    RatioIsShare(a.lossRate, (|ts| - Won(ts)) as real, |ts|);
  }

  /** The averages of the analysis, as it computes them. */
  lemma AveragesAreRatios(ts: seq<Outcome>, totalPnl: real)
    ensures var a := Analyse(ts, totalPnl);
            && a.avgWin == Ratio(SumPnl(Winners(ts)), |Winners(ts)|)
            && a.avgLoss == Ratio(Abs(SumPnl(Losers(ts))), |Losers(ts)|)
            && a.avgTradePnl == Ratio(totalPnl, |ts|)
  {
  }

  lemma AveragesOver(avgWin: real, avgLoss: real, ts: seq<Outcome>)
    requires avgWin == Ratio(SumPnl(Winners(ts)), |Winners(ts)|)
    requires avgLoss == Ratio(Abs(SumPnl(Losers(ts))), |Losers(ts)|)
    ensures IsShare(avgWin, Gains(ts), Won(ts) as real)
    ensures IsShare(avgLoss, Losses(ts), (|ts| - Won(ts)) as real)
  {
    RatioIsShare(avgWin, SumPnl(Winners(ts)), |Winners(ts)|);
    RatioIsShare(avgLoss, Abs(SumPnl(Losers(ts))), |Losers(ts)|);
    Totals(ts);
  }

  /** The averages spread what was won over the winners, what was lost over the others, total pnl over all. */
  lemma TradeAverages(ts: seq<Outcome>, totalPnl: real)
    ensures var a := Analyse(ts, totalPnl);
            && IsShare(a.avgWin, Gains(ts), Won(ts) as real)
            && IsShare(a.avgLoss, Losses(ts), (|ts| - Won(ts)) as real)
            && IsShare(a.avgTradePnl, totalPnl, |ts| as real)
  {
    var a := Analyse(ts, totalPnl);
    AveragesAreRatios(ts, totalPnl);
    AveragesOver(a.avgWin, a.avgLoss, ts);
    RatioIsShare(a.avgTradePnl, totalPnl, |ts|);
  }

  /** Profit factor and win-loss ratio compare the totals and the averages. */
  lemma TradeRatios(ts: seq<Outcome>, totalPnl: real)
    ensures var a := Analyse(ts, totalPnl);
            && IsComparison(a.profitFactor, Gains(ts), Losses(ts), Won(ts) > 0)
            && IsComparison(a.winLossRatio, a.avgWin, a.avgLoss, a.avgWin > 0.0)
  {
    Totals(ts);
    var a := Analyse(ts, totalPnl);
    QuotientIsComparison(a.profitFactor, Gains(ts), Losses(ts), Won(ts) > 0);
    QuotientIsComparison(a.winLossRatio, a.avgWin, a.avgLoss, a.avgWin > 0.0);
  }

  /** Total pnl is what the curve ends with less the initial capital; total return is that in percent of it. */
  lemma TotalFigures(initialCapital: real, curve: seq<real>, ts: seq<Outcome>, startDate: real, endDate: real)
    ensures var r := Summary(initialCapital, curve, ts, startDate, endDate);
            && r.totalPnl + initialCapital == ([initialCapital] + curve)[|curve|]
            && (if initialCapital > 0.0 then r.totalReturn * initialCapital == r.totalPnl * 100.0
                else r.totalReturn == 0.0)
            && r.trades == Analyse(ts, r.totalPnl)
  {
    var totalPnl := FinalEquity(initialCapital, curve) - initialCapital;
    if initialCapital > 0.0 { PercentOf(totalPnl, initialCapital, totalPnl / initialCapital); }
  }

  lemma PercentOf(part: real, whole: real, share: real)
    requires whole > 0.0 && share == part / whole
    ensures share * 100.0 * whole == part * 100.0
  {
    assert share * whole == part;
  }

  // ---------------------------------------------------------------------------------------------
  // Bars in time

  /** The bars are evenly spaced from the start to the end of the backtest. */
  lemma BarsAreEvenlySpaced(startDate: real, duration: real, i: nat, bars: nat)
    requires i < bars
    ensures BarTime(startDate, duration, 0, bars) == startDate
    ensures bars > 1 ==> BarTime(startDate, duration, bars - 1, bars) == startDate + duration
    ensures i > 0 ==> BarTime(startDate, duration, i, bars) - BarTime(startDate, duration, i - 1, bars)
                      == BarTime(startDate, duration, 1, bars) - startDate
    ensures duration >= 0.0 ==> BarTime(startDate, duration, 1, bars) >= startDate
  {
    var steps := if bars <= 2 then 1.0 else (bars - 1) as real;
    StepOverBars(duration, i as real, steps);
    StepOverBars(duration, 1.0, steps);
    WholeQuotient(duration, steps);
  }

  lemma StepOverBars(duration: real, i: real, steps: real)
    requires steps > 0.0
    ensures duration * i / steps - duration * (i - 1.0) / steps == duration / steps
    ensures duration >= 0.0 ==> duration / steps >= 0.0
  {
    assert duration * i / steps - duration * (i - 1.0) / steps == (duration * i - duration * (i - 1.0)) / steps;
    assert duration * i - duration * (i - 1.0) == duration;
  }

  lemma WholeQuotient(duration: real, steps: real)
    requires steps > 0.0
    ensures duration * steps / steps == duration
  {
  }

  // ---------------------------------------------------------------------------------------------
  // Falls below a peak of nothing

  /** The highest of the points is zero. */
  ghost predicate PeaksAtZero(s: seq<real>) { 0.0 in s && forall k :: 0 <= k < |s| ==> s[k] <= 0.0 }

  /** Some point lies below zero although nothing before it lay above. */
  ghost predicate FallsFromZero(initialCapital: real, curve: seq<real>, n: nat)
    requires n <= |curve|
  {
    exists j: nat :: j < n && FallsAt(initialCapital, curve, j)
  }

  ghost predicate FallsAt(initialCapital: real, curve: seq<real>, j: nat)
    requires j < |curve|
  {
    curve[j] < 0.0 && PeaksAtZero([initialCapital] + curve[..j])
  }

  lemma {:induction false} PeakIsMaximum(initialCapital: real, curve: seq<real>, startDate: real, duration: real, n: nat)
    requires n <= |curve|
    ensures var peak, s := ScanTo(initialCapital, curve, startDate, duration, n).peak, [initialCapital] + curve[..n];
            peak in s && forall k :: 0 <= k < |s| ==> s[k] <= peak
  {
    if n == 0 {
      assert [initialCapital] + curve[..0] == [initialCapital];
    } else {
      PeakIsMaximum(initialCapital, curve, startDate, duration, n - 1);
      OneMorePoint(initialCapital, curve, n);
    }
  }

  /** A drawdown is infinite if and only if the curve falls below zero from a peak of zero: a division by zero. */
  lemma {:induction false} InfiniteExactlyWhen(initialCapital: real, curve: seq<real>, startDate: real, duration: real, n: nat)
    requires n <= |curve|
    ensures ScanTo(initialCapital, curve, startDate, duration, n).deepest.Infinite? <==> FallsFromZero(initialCapital, curve, n)
  {
    if n > 0 {
      InfiniteExactlyWhen(initialCapital, curve, startDate, duration, n - 1);
      PeakIsMaximum(initialCapital, curve, startDate, duration, n - 1);
      var before := ScanTo(initialCapital, curve, startDate, duration, n - 1);
      assert before.peak == 0.0 <==> PeaksAtZero([initialCapital] + curve[..n - 1]);
      if FallsFromZero(initialCapital, curve, n) {
        var j: nat :| j < n && FallsAt(initialCapital, curve, j);
      }
      assert FallsAt(initialCapital, curve, n - 1) ==> FallsFromZero(initialCapital, curve, n);
      assert FallsFromZero(initialCapital, curve, n - 1) ==> FallsFromZero(initialCapital, curve, n);
    }
  }

  // ---------------------------------------------------------------------------------------------
  // The longest drawdown

  /** When the j-th of the points [initialCapital] + curve was reached. */
  function PointTime(startDate: real, duration: real, j: nat, bars: nat): real {
    if j == 0 then startDate else BarTime(startDate, duration, j - 1, bars)
  }

  /** From point i to point j the curve never rose above where it stood at i. */
  ghost predicate NoNewHigh(s: seq<real>, i: nat, j: nat) {
    i <= j < |s| && forall k :: i <= k <= j ==> s[k] <= s[i]
  }

  ghost predicate NoSpellExceeds(s: seq<real>, startDate: real, duration: real, bars: nat, m: real) {
    forall i: nat, j: nat :: NoNewHigh(s, i, j) ==>
      PointTime(startDate, duration, j, bars) - PointTime(startDate, duration, i, bars) <= m
  }

  ghost predicate IsLongestSpell(s: seq<real>, startDate: real, duration: real, bars: nat, m: real) {
    && NoSpellExceeds(s, startDate, duration, bars, m)
    && exists i: nat, j: nat :: NoNewHigh(s, i, j)
         && PointTime(startDate, duration, j, bars) - PointTime(startDate, duration, i, bars) == m
  }

  /** p is where the points s first reached their maximum. */
  ghost predicate IsFirstPeak(s: seq<real>, p: nat) {
    && p < |s| && (forall k :: 0 <= k < p ==> s[k] < s[p]) && (forall k :: p <= k < |s| ==> s[k] <= s[p])
  }

  lemma TimeOrder(startDate: real, duration: real, i: nat, j: nat, bars: nat)
    requires i <= j <= bars && duration >= 0.0
    ensures PointTime(startDate, duration, i, bars) <= PointTime(startDate, duration, j, bars)
    decreases j
  {
    if i < j {
      TimeOrder(startDate, duration, i, j - 1, bars);
      BarsAreEvenlySpaced(startDate, duration, j - 1, bars);
      if bars > 1 { BarsAreEvenlySpaced(startDate, duration, 1, bars); }
    }
  }

  /** What the scan knows of time after the points s: the longest spell so far, and when the peak was reached. */
  ghost predicate Timed(s: seq<real>, startDate: real, duration: real, bars: nat, scan: Scan, p: nat) {
    && IsFirstPeak(s, p) && s[p] == scan.peak && scan.peakTime == PointTime(startDate, duration, p, bars)
    && IsLongestSpell(s, startDate, duration, bars, scan.longest)
  }

  lemma NextPointTimed(s: seq<real>, eq: real, startDate: real, duration: real, bars: nat, scan: Scan, p: nat)
    returns (p': nat)
    requires Timed(s, startDate, duration, bars, scan, p) && duration >= 0.0 && |s| <= bars
    ensures Timed(s + [eq], startDate, duration, bars, Look(scan, eq, PointTime(startDate, duration, |s|, bars)), p')
  {
    var longer, t := s + [eq], PointTime(startDate, duration, |s|, bars);
    var after := Look(scan, eq, t);
    p' := if eq > scan.peak then |s| else p;
    forall i: nat, j: nat | NoNewHigh(longer, i, j)
      ensures PointTime(startDate, duration, j, bars) - PointTime(startDate, duration, i, bars) <= after.longest
    {
      if j < |s| {
        assert NoNewHigh(s, i, j) by { assert forall k :: 0 <= k < |s| ==> longer[k] == s[k]; }
      } else {
        LastSpellFromPeak(s, eq, p, i);
        TimeOrder(startDate, duration, if eq > scan.peak then |s| else p, i, bars);
        SpellOfOnePoint(s, startDate, duration, bars, scan.longest);
      }
    }
    StillLongest(s, eq, startDate, duration, bars, scan.longest);
    if after.longest != scan.longest {
      assert NoNewHigh(longer, p, |s|);
    }
  }

  /** A spell that lasts until the new point began no earlier than the peak. */
  lemma LastSpellFromPeak(s: seq<real>, eq: real, p: nat, i: nat)
    requires IsFirstPeak(s, p) && NoNewHigh(s + [eq], i, |s|)
    ensures p <= i && (eq > s[p] ==> i == |s|)
  {
    var longer := s + [eq];
    assert forall k :: 0 <= k < |s| ==> longer[k] == s[k];
    if i < |s| { assert longer[|s|] <= longer[i]; }
  }

  lemma SpellOfOnePoint(s: seq<real>, startDate: real, duration: real, bars: nat, m: real)
    requires s != [] && NoSpellExceeds(s, startDate, duration, bars, m)
    ensures m >= 0.0
  {
    assert NoNewHigh(s, 0, 0);
  }

  lemma StillLongest(s: seq<real>, eq: real, startDate: real, duration: real, bars: nat, m: real)
    requires IsLongestSpell(s, startDate, duration, bars, m)
    ensures exists i: nat, j: nat :: NoNewHigh(s + [eq], i, j)
              && PointTime(startDate, duration, j, bars) - PointTime(startDate, duration, i, bars) == m
  {
    var i: nat, j: nat :| NoNewHigh(s, i, j)
      && PointTime(startDate, duration, j, bars) - PointTime(startDate, duration, i, bars) == m;
    assert forall k :: 0 <= k < |s| ==> (s + [eq])[k] == s[k];
    assert NoNewHigh(s + [eq], i, j);
  }

  lemma OnePointTimed(initialCapital: real, startDate: real, duration: real, bars: nat)
    ensures Timed([initialCapital], startDate, duration, bars, Scan(initialCapital, startDate, Finite(0.0), 0.0), 0)
  {
    assert NoNewHigh([initialCapital], 0, 0);
  }

  /**
   * The longest drawdown that the one-pass scan reports is the longest stretch of time, over all pairs of
   * points, in which the curve never rose above where it stood at the start of the stretch.
   */
  lemma {:induction false} ScanIsLongestSpell(initialCapital: real, curve: seq<real>, startDate: real, duration: real, n: nat)
    returns (p: nat)
    requires n <= |curve| && duration >= 0.0
    ensures Timed([initialCapital] + curve[..n], startDate, duration, |curve|,
                  ScanTo(initialCapital, curve, startDate, duration, n), p)
  {
    if n == 0 {
      OnePointTimed(initialCapital, startDate, duration, |curve|);
      assert [initialCapital] + curve[..0] == [initialCapital];
      p := 0;
    } else {
      p := ScanIsLongestSpell(initialCapital, curve, startDate, duration, n - 1);
      p := NextPointTimed([initialCapital] + curve[..n - 1], curve[n - 1], startDate, duration, |curve|,
                          ScanTo(initialCapital, curve, startDate, duration, n - 1), p);
      OneMorePoint(initialCapital, curve, n);
    }
  }

  lemma ReportedDuration(initialCapital: real, curve: seq<real>, ts: seq<Outcome>, startDate: real, endDate: real)
    ensures var duration := if endDate - startDate >= 1.0 then endDate - startDate else 1.0;
            IsLongestSpell([initialCapital] + curve, startDate, duration, |curve|,
                           Summary(initialCapital, curve, ts, startDate, endDate).maxDrawdownDuration)
  {
    var p := ScanIsLongestSpell(initialCapital, curve, startDate, Duration(startDate, endDate), |curve|);
    assert curve[..|curve|] == curve;
  }
}
