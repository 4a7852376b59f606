/** Every answer of the loop guard, from the calls made of it so far and nothing else. */
module GuardAnswers {
  import opened Text
  import opened LoopGuard
  import Common

  type Maybe<T> = Common.Option<T>

  /** When this event was last recorded. */
  function LastRecorded(calls: seq<Call>, id: string): Maybe<int> {
    if calls == [] then Maybe.None
    else
      match calls[|calls| - 1]
      case Record(recorded, now) => if recorded == id then Maybe.Some(now) else LastRecorded(calls[..|calls| - 1], id)
      case _ => LastRecorded(calls[..|calls| - 1], id)
  }

  /** The history holds an event at the time it was last recorded, or has dropped it as stale. */
  ghost predicate Recorded(cfg: Config, g: Guard, id: string, last: Maybe<int>, clock: int) {
    && (id in g.processed ==> last == Maybe.Some(g.processed[id]))
    && (last.Some? && id !in g.processed ==> clock - last.value > cfg.historyTtlMs)
  }

  lemma {:induction false} HistoryIsRecorded(cfg: Config, calls: seq<Call>, start: int, id: string)
    requires id != "" && Monotone(calls, start)
    ensures Recorded(cfg, Run(cfg, calls), id, LastRecorded(calls, id), Clock(calls, start))
  {
    if calls != [] { HistoryIsRecorded(cfg, calls[..|calls| - 1], start, id); }
  }

  /**
   * With a monotone clock, and whatever clean-ups there were, an event is a duplicate if and only if it
   * was recorded before, less than the time to live ago. A recording at clock reading zero does not count.
   */
  lemma DuplicateExactlyWhen(cfg: Config, calls: seq<Call>, start: int, id: string, now: int)
    requires Monotone(calls, start) && Clock(calls, start) <= now
    ensures AnswerTo(cfg, Run(cfg, calls), IsDuplicate(id, now)) == Duplicate(
              id != "" && LastRecorded(calls, id).Some? && LastRecorded(calls, id).value != 0
              && now - LastRecorded(calls, id).value < cfg.historyTtlMs)
  {
    if id != "" { HistoryIsRecorded(cfg, calls, start, id); }
  }

  /** Cleaning up forgets exactly the recordings older than the time to live, and nothing else. */
  lemma CleanupForgetsExactlyStale(cfg: Config, calls: seq<Call>, now: int)
    ensures var g, g' := Run(cfg, calls), Run(cfg, calls + [Cleanup(now)]);
            && (forall id :: id in g'.processed <==> id in g.processed && now - g.processed[id] <= cfg.historyTtlMs)
            && (forall id :: id in g'.processed ==> g'.processed[id] == g.processed[id])
            && g'.depths == g.depths && g'.lastActivity == g.lastActivity && g'.retries == g.retries
  {
    assert (calls + [Cleanup(now)])[..|calls|] == calls;
  }

  function RetriesOf(calls: seq<Call>, c: string): nat {
    if calls == [] then 0
    else RetriesOf(calls[..|calls| - 1], c) + if calls[|calls| - 1] == RecordRetry(c) then 1 else 0
  }

  lemma {:induction false} RetriesAreCounted(cfg: Config, calls: seq<Call>, c: string)
    ensures Get(Run(cfg, calls).retries, c, 0) == RetriesOf(calls, c)
  {
    if calls != [] { RetriesAreCounted(cfg, calls[..|calls| - 1], c); }
  }

  /** The n-th retry under a correlation is answered with n, and allowed while n is within the maximum. */
  lemma RetryExactlyWhen(cfg: Config, calls: seq<Call>, c: string)
    ensures var n := RetriesOf(calls, c) + 1;
            AnswerTo(cfg, Run(cfg, calls), RecordRetry(c)) == Retried(n <= cfg.maxRetries, n)
  {
    RetriesAreCounted(cfg, calls, c);
  }

  /** The depth of a trace: entering goes one deeper while there is room, exiting one up while there is depth. */
  function DepthOf(cfg: Config, calls: seq<Call>, c: string): nat {
    if calls == [] then 0
    else
      var depth := DepthOf(cfg, calls[..|calls| - 1], c);
      if calls[|calls| - 1] == EnterTrace(c) && depth < cfg.maxRecursionDepth then depth + 1
      else if calls[|calls| - 1] == ExitTrace(c) && depth > 0 then depth - 1
      else depth
  }

  lemma {:induction false} DepthIsKept(cfg: Config, calls: seq<Call>, c: string)
    requires c != ""
    ensures var depths := Run(cfg, calls).depths;
            Get(depths, c, 0) == DepthOf(cfg, calls, c) && (c in depths <==> DepthOf(cfg, calls, c) > 0)
  {
    if calls != [] { DepthIsKept(cfg, calls[..|calls| - 1], c); }
  }

  /** Entering is answered with the depth it leads to, and allowed while that is within the maximum. */
  lemma EntryExactlyWhen(cfg: Config, calls: seq<Call>, c: string)
    ensures var depth := DepthOf(cfg, calls, c) + 1;
            AnswerTo(cfg, Run(cfg, calls), EnterTrace(c))
            == if c == "" then Traced(true, 1) else Traced(depth <= cfg.maxRecursionDepth, depth)
  {
    if c != "" { DepthIsKept(cfg, calls, c); }
  }

  /** When activity of this symbol, in whatever case, was last let through; zero when it never was. */
  function LastActivity(cfg: Config, calls: seq<Call>, symbol: string): int {
    if calls == [] then 0
    else
      var last := LastActivity(cfg, calls[..|calls| - 1], symbol);
      match calls[|calls| - 1]
      case CheckCooldown(other, now, later) =>
        if Upper(other) == Upper(symbol) && now - last >= cfg.symbolCooldownMs then later else last
      case _ => last
  }

  lemma {:induction false} ActivityIsKept(cfg: Config, calls: seq<Call>, symbol: string)
    ensures Get(Run(cfg, calls).lastActivity, Upper(symbol), 0) == LastActivity(cfg, calls, symbol)
  {
    if calls != [] { ActivityIsKept(cfg, calls[..|calls| - 1], symbol); }
  }

  /** Activity is let through once the cooldown since the last has passed; else the answer is what is left of it. */
  lemma CooldownExactlyWhen(cfg: Config, calls: seq<Call>, symbol: string, now: int, later: int)
    ensures var since := now - LastActivity(cfg, calls, symbol);
            AnswerTo(cfg, Run(cfg, calls), CheckCooldown(symbol, now, later))
            == if since >= cfg.symbolCooldownMs then Cooled(true, 0) else Cooled(false, cfg.symbolCooldownMs - since)
  {
    ActivityIsKept(cfg, calls, symbol);
  }
}
