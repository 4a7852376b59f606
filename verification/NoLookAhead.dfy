/** Two-run theorems: what a backtest's past may depend on. */
module NoLookAhead {
  import opened Common
  import opened ExecutionSimulator
  import opened BacktestEngine

  /** Equal but for the bar's range, which no market fill looks at. */
  ghost predicate SameButRange(c: Candle, d: Candle) {
    c.open == d.open && c.close == d.close && c.volume == d.volume && c.timestamp == d.timestamp
  }

  /** Equal in everything known when the bar opens (its volume caps the fills, so it counts as known). */
  ghost predicate SameAtOpen(c: Candle, d: Candle) {
    c.open == d.open && c.volume == d.volume && c.timestamp == d.timestamp
  }

  ghost predicate SamePast(cs: seq<Candle>, ds: seq<Candle>, n: nat) {
    n <= |cs| && n <= |ds| && forall k :: 0 <= k < n ==> SameButRange(cs[k], ds[k])
  }

  /** The strategy at bar i is shown the closes of the `lookback` bars before i and nothing else. */
  lemma AdviceSeesOnlyTheLookback(cs: seq<Candle>, ds: seq<Candle>, lookback: nat, i: nat)
    requires i <= |cs| && i <= |ds|
    requires forall k :: i - lookback <= k < i && 0 <= k ==> cs[k].close == ds[k].close
    ensures Window(cs, lookback, i) == Window(ds, lookback, i)
    ensures |Window(cs, lookback, i)| == if i < lookback then i else lookback
  {
  }

  /** No look-ahead: series that agree on their first n bars have the same run through bar n - 1. */
  lemma {:induction false} SamePastSameRun(s: Settings, strategy: Strategy, cs: seq<Candle>, ds: seq<Candle>,
                                           lookback: nat, n: nat)
    requires SamePast(cs, ds, n)
    ensures RunTo(s, strategy, cs, lookback, n) == RunTo(s, strategy, ds, lookback, n)
  {
    if n > lookback {
      SamePastSameRun(s, strategy, cs, ds, lookback, n - 1);
      AdviceSeesOnlyTheLookback(cs, ds, lookback, n - 1);
      BarIgnoresRange(s, RunTo(s, strategy, cs, lookback, n - 1), cs[n - 1], ds[n - 1],
                      strategy(Window(cs, lookback, n - 1)));
    }
  }

  lemma BarIgnoresRange(s: Settings, r: Run, c: Candle, d: Candle, advice: Advice)
    requires SameButRange(c, d)
    ensures Bar(s, r, c, advice) == Bar(s, r, d, advice)
  {
    var b1 := ExecutePending(s, r.book, c);
    assert b1 == ExecutePending(s, r.book, d);
    var b2 := HandleExit(s, b1, c, advice);
    assert b2 == HandleExit(s, b1, d, advice);
    assert HandleEntry(s, b2, c, advice) == HandleEntry(s, b2, d, advice);
  }

  /** Later bars only ever extend what earlier bars recorded. */
  lemma {:induction false} RunsExtend(s: Settings, strategy: Strategy, cs: seq<Candle>, lookback: nat, m: nat, n: nat)
    requires m <= n <= |cs|
    ensures var early, late := RunTo(s, strategy, cs, lookback, m), RunTo(s, strategy, cs, lookback, n);
            && early.equityCurve <= late.equityCurve && early.book.trades <= late.book.trades
            && |late.equityCurve| == if n <= lookback then 0 else n - lookback
  {
    if m < n {
      RunsExtend(s, strategy, cs, lookback, m, n - 1);
      if n > lookback {
        var b, advice := RunTo(s, strategy, cs, lookback, n - 1).book, strategy(Window(cs, lookback, n - 1));
        BarExtendsTrades(s, b, cs[n - 1], advice);
      }
    } else if n > lookback {
      RunsExtend(s, strategy, cs, lookback, n - 1, n - 1);
    }
  }

  lemma BarExtendsTrades(s: Settings, b: Book, c: Candle, advice: Advice)
    ensures b.trades <= BarBook(s, b, c, advice).trades
  {
    var b1 := ExecutePending(s, b, c);
    assert b.trades <= b1.trades;
    var b2 := HandleExit(s, b1, c, advice);
    assert b1.trades <= b2.trades;
    assert b2.trades == HandleEntry(s, b2, c, advice).trades;
  }

  /** A backtest of a prefix of the data reports a prefix of the full backtest. */
  lemma PrefixOfDataPrefixOfResult(s: Settings, strategy: Strategy, cs: seq<Candle>, lookback: nat, n: nat)
    requires n <= |cs|
    ensures var part, full := RunTo(s, strategy, cs[..n], lookback, n), RunTo(s, strategy, cs, lookback, |cs|);
            && part.equityCurve <= full.equityCurve && part.book.trades <= full.book.trades
            && |part.equityCurve| == if n <= lookback then 0 else n - lookback
  {
    SamePastSameRun(s, strategy, cs[..n], cs, lookback, n);
    RunsExtend(s, strategy, cs, lookback, n, |cs|);
    RunsExtend(s, strategy, cs, lookback, n, n);
  }

  /**
   * With execution at the next open, what bar n fills (capital, position and trades at its end) is
   * already decided by the bars before n and by what is known when bar n opens.
   */
  lemma FillsKnownAtOpen(s: Settings, strategy: Strategy, cs: seq<Candle>, ds: seq<Candle>, lookback: nat, n: nat)
    requires s.mode == NextBarOpen && n < |cs| && n < |ds|
    requires SamePast(cs, ds, n) && SameAtOpen(cs[n], ds[n])
    ensures var b, d := RunTo(s, strategy, cs, lookback, n + 1).book, RunTo(s, strategy, ds, lookback, n + 1).book;
            b.capital == d.capital && b.position == d.position && b.trades == d.trades
  {
    if n >= lookback {
      SamePastSameRun(s, strategy, cs, ds, lookback, n);
      var b := RunTo(s, strategy, cs, lookback, n).book;
      assert ExecutePending(s, b, cs[n]) == ExecutePending(s, b, ds[n]);
      SignalsOnlySchedule(s, ExecutePending(s, b, cs[n]), cs[n], strategy(Window(cs, lookback, n)));
      SignalsOnlySchedule(s, ExecutePending(s, b, ds[n]), ds[n], strategy(Window(ds, lookback, n)));
    }
  }

  lemma SignalsOnlySchedule(s: Settings, b: Book, c: Candle, advice: Advice)
    requires s.mode == NextBarOpen
    ensures HandleEntry(s, HandleExit(s, b, c, advice), c, advice).(pending := None) == b.(pending := None)
  {
  }
}
