/** Performance metrics of a finished backtest, before rounding. */
module Metrics {
  import opened Common

  /** What one closed trade contributes to the analysis. */
  datatype Outcome = Outcome(pnl: real, fees: real)

  /** A drawdown in percent; a fall below a peak of zero divides by zero and is infinite. */
  datatype Drawdown = Finite(pct: real) | Infinite

  datatype Scan = Scan(peak: real, peakTime: real, deepest: Drawdown, longest: real)

  datatype Analysis = Analysis(tradeCount: nat, winningTrades: nat, losingTrades: nat, winRate: real, lossRate: real,
                               profitFactor: real, totalFees: real, avgWin: real, avgLoss: real, winLossRatio: real,
                               avgTradePnl: real, expectancy: real)

  datatype Report = Report(totalReturn: real, totalPnl: real, maxDrawdown: Drawdown, maxDrawdownDuration: real,
                           trades: Analysis)

  function DropPct(from: real, to: real): real
    requires from != 0.0
  {
    (from - to) / from * 100.0
  }

  function Duration(startDate: real, endDate: real): real { Max(1.0, endDate - startDate) }

  /** Bars are assumed evenly spaced over the backtest. */
  function BarTime(startDate: real, duration: real, i: nat, bars: nat): real {
    startDate + duration * i as real / (if bars <= 2 then 1.0 else (bars - 1) as real)
  }

  function Deeper(deepest: Drawdown, peak: real, eq: real): Drawdown {
    if peak == 0.0 then (if eq < 0.0 then Infinite else deepest)
    else if deepest.Finite? && DropPct(peak, eq) > deepest.pct then Finite(DropPct(peak, eq))
    else deepest
  }

  function Look(scan: Scan, eq: real, t: real): Scan {
    if eq > scan.peak then scan.(peak := eq, peakTime := t)
    else scan.(deepest := Deeper(scan.deepest, scan.peak, eq), longest := Max(scan.longest, t - scan.peakTime))
  }

  /** The one-pass scan over the first n bars. */
  function ScanTo(initialCapital: real, curve: seq<real>, startDate: real, duration: real, n: nat): Scan
    requires n <= |curve|
  {
    if n == 0 then Scan(initialCapital, startDate, Finite(0.0), 0.0)
    else Look(ScanTo(initialCapital, curve, startDate, duration, n - 1), curve[n - 1],
              BarTime(startDate, duration, n - 1, |curve|))
  }

  function SumPnl(ts: seq<Outcome>): real { if ts == [] then 0.0 else SumPnl(ts[..|ts| - 1]) + ts[|ts| - 1].pnl }

  function SumFees(ts: seq<Outcome>): real { if ts == [] then 0.0 else SumFees(ts[..|ts| - 1]) + ts[|ts| - 1].fees }

  function Filter(ts: seq<Outcome>, keep: Outcome -> bool): seq<Outcome> {
    if ts == [] then []
    else
      var rest := Filter(ts[..|ts| - 1], keep);
      if keep(ts[|ts| - 1]) then rest + [ts[|ts| - 1]] else rest
  }

  function Winners(ts: seq<Outcome>): seq<Outcome> { Filter(ts, (t: Outcome) => t.pnl > 0.0) }

  function Losers(ts: seq<Outcome>): seq<Outcome> { Filter(ts, (t: Outcome) => t.pnl <= 0.0) }

  function Abs(x: real): real { if x < 0.0 then -x else x }

  function Ratio(x: real, n: nat): real { if n > 0 then x / n as real else 0.0 }

  /** The share of trades of one kind times their average result. */
  function RateTimesAverage(count: nat, total: nat, gross: real): real {
    Ratio(count as real, total) * Ratio(gross, count)
  }

  /** Win rate times average win, less loss rate times average loss. */
  function TradeExpectancy(ts: seq<Outcome>): real {
    if |ts| > 0 then
      RateTimesAverage(|Winners(ts)|, |ts|, SumPnl(Winners(ts)))
      - RateTimesAverage(|Losers(ts)|, |ts|, Abs(SumPnl(Losers(ts))))
    else 0.0
  }

  function Analyse(ts: seq<Outcome>, totalPnl: real): Analysis {
    var won, lost := |Winners(ts)|, |Losers(ts)|;
    var grossProfit, grossLoss := SumPnl(Winners(ts)), Abs(SumPnl(Losers(ts)));
    var winRate, lossRate := Ratio(won as real, |ts|), Ratio(lost as real, |ts|);
    var avgWin, avgLoss := Ratio(grossProfit, won), Ratio(grossLoss, lost);
    Analysis(|ts|, won, lost, winRate, lossRate,
             if grossLoss > 0.0 then grossProfit / grossLoss else if won > 0 then 999.0 else 0.0,
             SumFees(ts), avgWin, avgLoss,
             if avgLoss > 0.0 then avgWin / avgLoss else if avgWin > 0.0 then 999.0 else 0.0,
             Ratio(totalPnl, |ts|),
             TradeExpectancy(ts))
  }

  function FinalEquity(initialCapital: real, curve: seq<real>): real {
    if curve == [] then initialCapital else curve[|curve| - 1]
  }

  function Summary(initialCapital: real, curve: seq<real>, ts: seq<Outcome>, startDate: real, endDate: real): Report {
    var totalPnl := FinalEquity(initialCapital, curve) - initialCapital;
    var scan := ScanTo(initialCapital, curve, startDate, Duration(startDate, endDate), |curve|);
    Report(if initialCapital > 0.0 then totalPnl / initialCapital * 100.0 else 0.0, totalPnl,
           scan.deepest, scan.longest, Analyse(ts, totalPnl))
  }

  /** The scan as the source runs it, over local variables. */
  method Calculate(initialCapital: real, curve: seq<real>, ts: seq<Outcome>, startDate: real, endDate: real)
    returns (report: Report)
    ensures report == Summary(initialCapital, curve, ts, startDate, endDate)
  {
    var totalPnl := FinalEquity(initialCapital, curve) - initialCapital;
    var totalReturn := if initialCapital > 0.0 then totalPnl / initialCapital * 100.0 else 0.0;
    var durationMs := Max(1.0, endDate - startDate);
    var peak, maxDrawdown, maxDuration, peakTime := initialCapital, Finite(0.0), 0.0, startDate;
    for i := 0 to |curve|
      invariant Scan(peak, peakTime, maxDrawdown, maxDuration) == ScanTo(initialCapital, curve, startDate, durationMs, i)
    {
      var eq := curve[i];
      var t := BarTime(startDate, durationMs, i, |curve|);
      if eq > peak {
        peak := eq;
        peakTime := t;
      } else {
        maxDrawdown := Deeper(maxDrawdown, peak, eq);
        var duration := t - peakTime;
        if duration > maxDuration { maxDuration := duration; }
      }
    }
    report := Report(totalReturn, totalPnl, maxDrawdown, maxDuration, Analyse(ts, totalPnl));
  }

  // ---------------------------------------------------------------------------------------------
  // The drawdown refines its quadratic definition

  /** m is the greatest percentage fall from a positive point of s to itself or to a later point. */
  ghost predicate IsMaxDrawdown(s: seq<real>, m: real) {
    && NoFallExceeds(s, m)
    && (exists i, j :: 0 <= i <= j < |s| && s[i] > 0.0 && DropPct(s[i], s[j]) == m)
  }

  ghost predicate NoFallExceeds(s: seq<real>, m: real) {
    forall i, j :: 0 <= i <= j < |s| && s[i] > 0.0 ==> DropPct(s[i], s[j]) <= m
  }

  /** What the scan knows of the points s it has seen. */
  ghost predicate Scanned(s: seq<real>, peak: real, deepest: Drawdown) {
    && peak in s && peak > 0.0 && (forall k :: 0 <= k < |s| ==> s[k] <= peak)
    && deepest.Finite? && 0.0 <= deepest.pct <= 100.0 && IsMaxDrawdown(s, deepest.pct)
  }

  /** Falling to a non-negative value, the fall is the steeper the higher it started. */
  lemma DropFromHigher(low: real, high: real, to: real)
    requires 0.0 < low <= high && to >= 0.0
    ensures DropPct(low, to) <= DropPct(high, to) <= 100.0
  {
    var p, q := to / low, to / high;
    assert p * low == to && q * high == to;
    assert q >= 0.0;
    assert p >= q by {
      if p < q {
        Scale(p, q, low);
        Scale(low, high, q);
      }
    }
    DropIsOneMinus(low, to);
    DropIsOneMinus(high, to);
  }

  lemma Cancel(a: real, b: real, k: real)
    requires a * k == b * k && k > 0.0
    ensures a == b
  {
  }

  lemma DropIsOneMinus(from: real, to: real)
    requires from > 0.0
    ensures DropPct(from, to) == (1.0 - to / from) * 100.0
  {
    var d, q := (from - to) / from, to / from;
    assert d * from == from - to && q * from == to;
    Cancel(d, 1.0 - q, from);
  }

  lemma DropSign(from: real, to: real)
    requires from > 0.0
    ensures from <= to ==> DropPct(from, to) <= 0.0
    ensures from >= to ==> DropPct(from, to) >= 0.0
  {
    assert (from - to) / from * from == from - to;
  }

  /** No fall to the next point beats the deeper of what was found and the fall from the peak. */
  lemma NextPointBounded(s: seq<real>, eq: real, peak: real, bound: real)
    requires eq >= 0.0 && bound >= 0.0 && (forall k :: 0 <= k < |s| ==> s[k] <= peak) && NoFallExceeds(s, bound)
    requires eq <= peak && peak > 0.0 ==> DropPct(peak, eq) <= bound
    ensures NoFallExceeds(s + [eq], bound)
  {
    var longer := s + [eq];
    forall i, j | 0 <= i <= j <= |s| && longer[i] > 0.0
      ensures DropPct(longer[i], longer[j]) <= bound
    {
      if j < |s| {
        assert DropPct(s[i], s[j]) <= bound;
      } else {
        DropSign(longer[i], eq);
        if i < |s| && eq <= peak { DropFromHigher(s[i], peak, eq); }
      }
    }
  }

  lemma StillAttained(s: seq<real>, eq: real, m: real)
    requires IsMaxDrawdown(s, m) && NoFallExceeds(s + [eq], m)
    ensures IsMaxDrawdown(s + [eq], m)
  {
    var i, j :| 0 <= i <= j < |s| && s[i] > 0.0 && DropPct(s[i], s[j]) == m;
    assert (s + [eq])[i] == s[i] && (s + [eq])[j] == s[j];
  }

  lemma AttainedAtEnd(s: seq<real>, eq: real, peak: real)
    requires peak in s && peak > 0.0 && NoFallExceeds(s + [eq], DropPct(peak, eq))
    ensures IsMaxDrawdown(s + [eq], DropPct(peak, eq))
  {
    var i :| 0 <= i < |s| && s[i] == peak;
    assert (s + [eq])[i] == peak && (s + [eq])[|s|] == eq;
  }

  lemma NextPointScanned(s: seq<real>, eq: real, peak: real, deepest: Drawdown)
    requires Scanned(s, peak, deepest) && eq >= 0.0
    ensures if eq > peak then Scanned(s + [eq], eq, deepest) else Scanned(s + [eq], peak, Deeper(deepest, peak, eq))
  {
    if eq > peak {
      NextPointBounded(s, eq, peak, deepest.pct);
      StillAttained(s, eq, deepest.pct);
    } else {
      var after := Deeper(deepest, peak, eq);
      DropFromHigher(peak, peak, eq);
      assert NoFallExceeds(s, after.pct);
      NextPointBounded(s, eq, peak, after.pct);
      if after == deepest { StillAttained(s, eq, deepest.pct); } else { AttainedAtEnd(s, eq, peak); }
    }
  }

  lemma OnePoint(initialCapital: real, curve: seq<real>)
    requires initialCapital > 0.0
    ensures [initialCapital] + curve[..0] == [initialCapital] && Scanned([initialCapital], initialCapital, Finite(0.0))
  {
    var s := [initialCapital];
    assert s[0] > 0.0 && DropPct(s[0], s[0]) == 0.0;
  }

  lemma OneMorePoint(initialCapital: real, curve: seq<real>, n: nat)
    requires 0 < n <= |curve|
    ensures [initialCapital] + curve[..n] == [initialCapital] + curve[..n - 1] + [curve[n - 1]]
  {
  }

  /** The one-pass scan finds the greatest fall between any two points of the curve. */
  lemma {:induction false} ScanIsMaxDrawdown(initialCapital: real, curve: seq<real>, startDate: real, duration: real, n: nat)
    requires n <= |curve| && initialCapital > 0.0
    requires forall k :: 0 <= k < n ==> curve[k] >= 0.0
    ensures var scan := ScanTo(initialCapital, curve, startDate, duration, n);
            Scanned([initialCapital] + curve[..n], scan.peak, scan.deepest)
  {
    if n == 0 {
      OnePoint(initialCapital, curve);
    } else {
      ScanIsMaxDrawdown(initialCapital, curve, startDate, duration, n - 1);
      var before := ScanTo(initialCapital, curve, startDate, duration, n - 1);
      NextPointScanned([initialCapital] + curve[..n - 1], curve[n - 1], before.peak, before.deepest);
      OneMorePoint(initialCapital, curve, n);
    }
  }

  /** The reported drawdown, before rounding, is the quadratic definition's and a percentage. */
  lemma ReportedDrawdown(initialCapital: real, curve: seq<real>, ts: seq<Outcome>, startDate: real, endDate: real)
    requires initialCapital > 0.0 && forall k :: 0 <= k < |curve| ==> curve[k] >= 0.0
    ensures var r := Summary(initialCapital, curve, ts, startDate, endDate);
            && r.maxDrawdown.Finite? && 0.0 <= r.maxDrawdown.pct <= 100.0
            && IsMaxDrawdown([initialCapital] + curve, r.maxDrawdown.pct)
  {
    ScanIsMaxDrawdown(initialCapital, curve, startDate, Duration(startDate, endDate), |curve|);
    assert curve[..|curve|] == curve;
  }

  // ---------------------------------------------------------------------------------------------
  // Negative equity

  /** p is the running peak of s at position j, and positive. */
  ghost predicate IsPeak(s: seq<real>, j: nat, p: real) {
    p > 0.0 && j < |s| && (exists i :: 0 <= i <= j && s[i] == p) && forall i :: 0 <= i <= j ==> s[i] <= p
  }

  ghost predicate PeakFallsWithin(s: seq<real>, m: real) {
    forall j: nat, p :: IsPeak(s, j, p) ==> DropPct(p, s[j]) <= m
  }

  ghost predicate IsPeakFall(s: seq<real>, m: real) { exists j: nat, p :: IsPeak(s, j, p) && DropPct(p, s[j]) == m }

  /** What the scan has found, whatever the sign of the points: the deepest fall from the running peak. */
  ghost predicate Measured(s: seq<real>, peak: real, deepest: Drawdown) {
    && s != [] && peak > 0.0 && IsPeak(s, |s| - 1, peak)
    && deepest.Finite? && PeakFallsWithin(s, deepest.pct) && IsPeakFall(s, deepest.pct)
  }

  /** Peaks of earlier positions do not change when a point is added. */
  lemma PeakOfLonger(s: seq<real>, eq: real, j: nat, p: real)
    requires j < |s|
    ensures IsPeak(s + [eq], j, p) <==> IsPeak(s, j, p)
  {
    var longer := s + [eq];
    assert forall i :: 0 <= i < |s| ==> longer[i] == s[i];
    if IsPeak(s, j, p) {
      var i :| 0 <= i <= j && s[i] == p;
      assert longer[i] == p;
    }
    if IsPeak(longer, j, p) {
      var i :| 0 <= i <= j && longer[i] == p;
      assert s[i] == p;
    }
  }

  /** The new point's peak is the larger of the two. */
  lemma PeakAtEnd(s: seq<real>, eq: real, peak: real)
    requires s != [] && IsPeak(s, |s| - 1, peak)
    ensures IsPeak(s + [eq], |s|, Max(peak, eq))
    ensures forall p :: IsPeak(s + [eq], |s|, p) ==> p == Max(peak, eq)
  {
    var longer := s + [eq];
    assert forall i :: 0 <= i < |s| ==> longer[i] == s[i];
    assert longer[|s|] == eq;
    var i :| 0 <= i <= |s| - 1 && s[i] == peak;
    assert longer[i] == peak;
  }

  lemma NextFallWithin(s: seq<real>, eq: real, peak: real, bound: real)
    requires s != [] && IsPeak(s, |s| - 1, peak) && PeakFallsWithin(s, bound) && DropPct(Max(peak, eq), eq) <= bound
    ensures PeakFallsWithin(s + [eq], bound)
  {
    forall j: nat, p | IsPeak(s + [eq], j, p)
      ensures DropPct(p, (s + [eq])[j]) <= bound
    {
      if j < |s| {
        PeakOfLonger(s, eq, j, p);
        assert (s + [eq])[j] == s[j];
      } else {
        PeakAtEnd(s, eq, peak);
      }
    }
  }

  lemma EarlierPeakFall(s: seq<real>, eq: real, m: real)
    requires IsPeakFall(s, m)
    ensures IsPeakFall(s + [eq], m)
  {
    var j: nat, p :| IsPeak(s, j, p) && DropPct(p, s[j]) == m;
    PeakOfLonger(s, eq, j, p);
    assert (s + [eq])[j] == s[j];
  }

  lemma NextPointMeasured(s: seq<real>, eq: real, peak: real, deepest: Drawdown)
    requires Measured(s, peak, deepest) && deepest.pct >= 0.0
    ensures var after := if eq > peak then deepest else Deeper(deepest, peak, eq);
            Measured(s + [eq], Max(peak, eq), after) && after.pct >= 0.0
  {
    var after := if eq > peak then deepest else Deeper(deepest, peak, eq);
    PeakAtEnd(s, eq, peak);
    DropSign(Max(peak, eq), eq);
    WiderBound(s, deepest.pct, after.pct);
    NextFallWithin(s, eq, peak, after.pct);
    if after == deepest {
      EarlierPeakFall(s, eq, deepest.pct);
    } else {
      assert (s + [eq])[|s|] == eq;
    }
  }

  lemma WiderBound(s: seq<real>, m: real, n: real)
    requires PeakFallsWithin(s, m) && m <= n
    ensures PeakFallsWithin(s, n)
  {
  }

  lemma {:induction false} ScanIsMeasured(initialCapital: real, curve: seq<real>, startDate: real, duration: real, n: nat)
    requires n <= |curve| && initialCapital > 0.0
    ensures var scan := ScanTo(initialCapital, curve, startDate, duration, n);
            Measured([initialCapital] + curve[..n], scan.peak, scan.deepest) && scan.deepest.pct >= 0.0
  {
    if n == 0 {
      OnePoint(initialCapital, curve);
      OnePointMeasured(initialCapital);
    } else {
      ScanIsMeasured(initialCapital, curve, startDate, duration, n - 1);
      var before := ScanTo(initialCapital, curve, startDate, duration, n - 1);
      NextPointMeasured([initialCapital] + curve[..n - 1], curve[n - 1], before.peak, before.deepest);
      OneMorePoint(initialCapital, curve, n);
    }
  }

  lemma OnePointMeasured(initialCapital: real)
    requires initialCapital > 0.0
    ensures Measured([initialCapital], initialCapital, Finite(0.0))
  {
    var s := [initialCapital];
    DropSign(initialCapital, initialCapital);
    assert s[0] == initialCapital;
    assert IsPeak(s, 0, initialCapital);
  }

  /** Falling below zero, the fall is the steeper the lower it started, and more than everything. */
  lemma DropBelowZero(low: real, high: real, to: real)
    requires 0.0 < low <= high && to < 0.0
    ensures DropPct(low, to) >= DropPct(high, to) > 100.0
    ensures low < high ==> DropPct(low, to) > DropPct(high, to)
  {
    var p, q := to / low, to / high;
    Undivided(to, low);
    Undivided(to, high);
    BelowZeroOrder(p, q, low, high, to);
    DropIsOneMinus(low, to);
    DropIsOneMinus(high, to);
  }

  lemma BelowZeroOrder(p: real, q: real, low: real, high: real, to: real)
    requires low * p == to && high * q == to && 0.0 < low <= high && to < 0.0
    ensures p <= q < 0.0 && (low < high ==> p < q)
  {
    if q >= 0.0 {
      Scale(0.0, q, high);
    } else if p > q {
      Scale(q, p, low);
      Scale(low, high, -q);
    } else if low < high && p == q {
      Scale(low, high, -q);
    }
  }

  lemma DropAtMostAll(from: real, to: real)
    requires from > 0.0 && to >= 0.0
    ensures DropPct(from, to) <= 100.0
  {
    if from >= to { DropFromHigher(from, from, to); } else { DropSign(from, to); }
  }

  ghost predicate HasNegative(s: seq<real>) { exists j :: 0 <= j < |s| && s[j] < 0.0 }

  /** The greatest fall ends at j, below zero, and every positive point before j equals the first. */
  ghost predicate GreatestFallFromFirst(s: seq<real>, j: nat) {
    && j < |s| && s[j] < 0.0 && s[0] > 0.0 && NoFallExceeds(s, DropPct(s[0], s[j]))
    && forall i :: 0 <= i < j && s[i] > 0.0 ==> s[i] == s[0]
  }

  lemma FromFirstIsMeasured(s: seq<real>, peak: real, deepest: Drawdown, j: nat)
    requires Measured(s, peak, deepest) && GreatestFallFromFirst(s, j)
    ensures IsMaxDrawdown(s, deepest.pct)
  {
    assert IsPeak(s, j, s[0]);
    var k: nat, p :| IsPeak(s, k, p) && DropPct(p, s[k]) == deepest.pct;
    var i :| 0 <= i <= k && s[i] == p;
    assert s[0] <= p;
    assert DropPct(s[i], s[k]) <= DropPct(s[0], s[j]);
  }

  lemma MeasuredIsFromFirst(s: seq<real>, peak: real, deepest: Drawdown) returns (k: nat)
    requires Measured(s, peak, deepest) && s[0] > 0.0 && HasNegative(s) && IsMaxDrawdown(s, deepest.pct)
    ensures GreatestFallFromFirst(s, k)
  {
    var p;
    k, p :| IsPeak(s, k, p) && DropPct(p, s[k]) == deepest.pct;
    assert s[0] <= p;
    var m :| 0 <= m < |s| && s[m] < 0.0;
    DropBelowZero(s[0], s[0], s[m]);
    assert DropPct(s[0], s[m]) <= deepest.pct;
    if s[k] >= 0.0 { DropAtMostAll(p, s[k]); }
    forall i | 0 <= i < k && s[i] > 0.0
      ensures s[i] == p
    {
      DropBelowZero(s[i], p, s[k]);
      assert DropPct(s[i], s[k]) <= deepest.pct;
    }
  }

  /**
   * For every curve: the one-pass scan finds the true maximum drawdown if and only if no point is
   * negative, or the greatest fall ends below zero at a point before which every positive point equals
   * the initial capital.
   */
  lemma ScanIsMaxDrawdownExactlyWhen(initialCapital: real, curve: seq<real>, startDate: real, duration: real)
    requires initialCapital > 0.0
    ensures var s, deepest := [initialCapital] + curve, ScanTo(initialCapital, curve, startDate, duration, |curve|).deepest;
            && deepest.Finite?
            && (IsMaxDrawdown(s, deepest.pct) <==> !HasNegative(s) || exists j :: GreatestFallFromFirst(s, j))
  {
    var s, scan := [initialCapital] + curve, ScanTo(initialCapital, curve, startDate, duration, |curve|);
    assert curve[..|curve|] == curve;
    ScanIsMeasured(initialCapital, curve, startDate, duration, |curve|);
    if !HasNegative(s) {
      assert forall k :: 0 <= k < |curve| ==> curve[k] == s[k + 1];
      ScanIsMaxDrawdown(initialCapital, curve, startDate, duration, |curve|);
    } else if j :| GreatestFallFromFirst(s, j) {
      FromFirstIsMeasured(s, scan.peak, scan.deepest, j);
    } else if IsMaxDrawdown(s, scan.deepest.pct) {
      var j := MeasuredIsFromFirst(s, scan.peak, scan.deepest);
    }
  }

  /**
   * So on a curve with a negative point, each of whose negative points comes after a positive point
   * other than the initial capital, the reported drawdown is never the true one.
   */
  lemma NegativeEquityMisstatesDrawdown(initialCapital: real, curve: seq<real>, startDate: real, duration: real)
    requires initialCapital > 0.0 && HasNegative(curve)
    requires forall j :: 0 <= j < |curve| && curve[j] < 0.0 ==>
               exists i :: 0 <= i < j && curve[i] > 0.0 && curve[i] != initialCapital
    ensures var deepest := ScanTo(initialCapital, curve, startDate, duration, |curve|).deepest;
            deepest.Finite? && !IsMaxDrawdown([initialCapital] + curve, deepest.pct)
  {
    var s := [initialCapital] + curve;
    ScanIsMaxDrawdownExactlyWhen(initialCapital, curve, startDate, duration);
    var m :| 0 <= m < |curve| && curve[m] < 0.0;
    assert s[m + 1] < 0.0;
    forall j: nat
      ensures !GreatestFallFromFirst(s, j)
    {
      if 0 < j < |s| && s[j] < 0.0 {
        assert curve[j - 1] == s[j];
        var i :| 0 <= i < j - 1 && curve[i] > 0.0 && curve[i] != initialCapital;
        assert s[i + 1] == curve[i];
      }
    }
  }

  /** For instance: from 1 up to 2 and down to -1 is a fall of 200%, and is reported as 150%. */
  lemma NegativeEquityUnderstatesDrawdown(startDate: real, duration: real)
    ensures ScanTo(1.0, [2.0, -1.0], startDate, duration, 2).deepest == Finite(150.0)
    ensures !IsMaxDrawdown([1.0, 2.0, -1.0], 150.0)
  {
    var curve := [2.0, -1.0];
    assert ScanTo(1.0, curve, startDate, duration, 1).peak == 2.0;
    var s := [1.0, 2.0, -1.0];
    assert DropPct(s[0], s[2]) == 200.0;
  }

  lemma BarTimeWithin(startDate: real, duration: real, i: nat, bars: nat)
    requires i < bars && duration >= 0.0
    ensures startDate <= BarTime(startDate, duration, i, bars) <= startDate + duration
  {
    var steps := if bars <= 2 then 1.0 else (bars - 1) as real;
    assert 0.0 <= i as real <= steps;
    assert duration * i as real <= duration * steps;
    assert duration * steps / steps == duration;
    assert duration * i as real / steps <= duration * steps / steps;
  }

  /** No drawdown is reported longer than the backtest itself. */
  lemma {:induction false} DurationBounded(initialCapital: real, curve: seq<real>, startDate: real, duration: real, n: nat)
    requires n <= |curve| && duration >= 0.0
    ensures var scan := ScanTo(initialCapital, curve, startDate, duration, n);
            startDate <= scan.peakTime && 0.0 <= scan.longest <= duration
  {
    if n > 0 {
      DurationBounded(initialCapital, curve, startDate, duration, n - 1);
      BarTimeWithin(startDate, duration, n - 1, |curve|);
    }
  }

  // ---------------------------------------------------------------------------------------------
  // Trade analysis

  lemma {:induction false} WinnersAndLosersPartition(ts: seq<Outcome>)
    ensures |Winners(ts)| + |Losers(ts)| == |ts|
    ensures SumPnl(Winners(ts)) + SumPnl(Losers(ts)) == SumPnl(ts)
    ensures SumPnl(Losers(ts)) <= 0.0 <= SumPnl(Winners(ts))
    ensures Losers(ts) == [] ==> SumPnl(Losers(ts)) == 0.0
  {
    if ts != [] {
      var init, last := ts[..|ts| - 1], ts[|ts| - 1];
      WinnersAndLosersPartition(init);
      assert (Winners(init) + [last])[..|Winners(init)|] == Winners(init);
      assert (Losers(init) + [last])[..|Losers(init)|] == Losers(init);
    }
  }

  lemma RateTimesAverageIsShare(count: nat, total: nat, gross: real)
    requires total > 0 && (count == 0 ==> gross == 0.0)
    ensures RateTimesAverage(count, total, gross) == Ratio(gross, total)
  {
    if count > 0 {
      var c, t := count as real, total as real;
      assert c / t * (gross / c) == (c * (gross / c)) / t;
      assert c * (gross / c) == gross;
    }
  }

  lemma RatioMinus(a: real, b: real, c: real, n: nat)
    requires c == a - b
    ensures Ratio(a, n) - Ratio(b, n) == Ratio(c, n)
  {
    if n > 0 {
      var k := n as real;
      assert a / k - b / k == (a - b) / k;
    }
  }

  /** What the partition says about the two gross figures. */
  lemma GrossFigures(ts: seq<Outcome>)
    ensures SumPnl(Winners(ts)) - Abs(SumPnl(Losers(ts))) == SumPnl(ts)
    ensures |Winners(ts)| == 0 ==> SumPnl(Winners(ts)) == 0.0
    ensures |Losers(ts)| == 0 ==> Abs(SumPnl(Losers(ts))) == 0.0
  {
    WinnersAndLosersPartition(ts);
  }

  /** Expectancy is the mean profit of a closed trade. */
  lemma {:induction false} ExpectancyIsMeanPnl(ts: seq<Outcome>)
    ensures TradeExpectancy(ts) == Ratio(SumPnl(ts), |ts|)
  {
    GrossFigures(ts);
    if ts != [] {
      RateTimesAverageIsShare(|Winners(ts)|, |ts|, SumPnl(Winners(ts)));
      RateTimesAverageIsShare(|Losers(ts)|, |ts|, Abs(SumPnl(Losers(ts))));
      RatioMinus(SumPnl(Winners(ts)), Abs(SumPnl(Losers(ts))), SumPnl(ts), |ts|);
    }
  }
}
