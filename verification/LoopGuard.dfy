/** The loop guard: duplicate events, recursion depth, per-symbol cooldown and retries. */
module LoopGuard {
  import opened Text

  datatype Config = Config(maxRecursionDepth: int, symbolCooldownMs: int, maxRetries: int, historyTtlMs: int)

  const DEFAULT_CONFIG := Config(4, 2000, 3, 300000)

  datatype Guard = Guard(processed: map<string, int>, depths: map<string, int>, lastActivity: map<string, int>,
                         retries: map<string, int>)

  const EMPTY := Guard(map[], map[], map[], map[])

  /** Calls, with the clock readings they make (the cooldown check reads the clock twice). */
  datatype Call =
    | IsDuplicate(eventId: string, now: int)
    | Record(eventId: string, now: int)
    | EnterTrace(correlationId: string)
    | ExitTrace(correlationId: string)
    | CheckCooldown(symbol: string, now: int, later: int)
    | RecordRetry(correlationId: string)
    | Cleanup(now: int)

  datatype Answer = None | Duplicate(yes: bool) | Traced(allowed: bool, depth: int)
                  | Cooled(allowed: bool, waitMs: int) | Retried(allowed: bool, retries: int)

  function Get(m: map<string, int>, key: string, default: int): int { if key in m then m[key] else default }

  function Evicted(processed: map<string, int>, now: int, ttl: int): map<string, int> {
    map id | id in processed && now - processed[id] <= ttl :: processed[id]
  }

  function AnswerTo(cfg: Config, g: Guard, call: Call): Answer {
    match call
    case IsDuplicate(id, now) =>
      Duplicate(id != "" && id in g.processed && g.processed[id] != 0 && now - g.processed[id] < cfg.historyTtlMs)
    case Record(_, _) => None
    case EnterTrace(c) =>
      if c == "" then Traced(true, 1)
      else Traced(Get(g.depths, c, 0) + 1 <= cfg.maxRecursionDepth, Get(g.depths, c, 0) + 1)
    case ExitTrace(_) => None
    case CheckCooldown(symbol, now, _) =>
      var elapsed := now - Get(g.lastActivity, Upper(symbol), 0);
      if elapsed < cfg.symbolCooldownMs then Cooled(false, cfg.symbolCooldownMs - elapsed) else Cooled(true, 0)
    case RecordRetry(c) => Retried(Get(g.retries, c, 0) + 1 <= cfg.maxRetries, Get(g.retries, c, 0) + 1)
    case Cleanup(_) => None
  }

  function After(cfg: Config, g: Guard, call: Call): Guard {
    match call
    case IsDuplicate(_, _) => g
    case Record(id, now) => if id == "" then g else g.(processed := g.processed[id := now])
    case EnterTrace(c) =>
      if c != "" && AnswerTo(cfg, g, call).allowed then g.(depths := g.depths[c := Get(g.depths, c, 0) + 1]) else g
    case ExitTrace(c) =>
      if c == "" then g
      else if Get(g.depths, c, 1) <= 1 then g.(depths := g.depths - {c})
      else g.(depths := g.depths[c := Get(g.depths, c, 1) - 1])
    case CheckCooldown(symbol, _, later) =>
      if AnswerTo(cfg, g, call).allowed then g.(lastActivity := g.lastActivity[Upper(symbol) := later]) else g
    case RecordRetry(c) => g.(retries := g.retries[c := Get(g.retries, c, 0) + 1])
    case Cleanup(now) => g.(processed := Evicted(g.processed, now, cfg.historyTtlMs))
  }

  function Run(cfg: Config, calls: seq<Call>): Guard {
    if calls == [] then EMPTY else After(cfg, Run(cfg, calls[..|calls| - 1]), calls[|calls| - 1])
  }

  // ---------------------------------------------------------------------------------------------
  // Monotone clocks

  function FirstReading(call: Call, clock: int): int {
    match call
    case IsDuplicate(_, now) => now
    case Record(_, now) => now
    case CheckCooldown(_, now, _) => now
    case Cleanup(now) => now
    case _ => clock
  }

  function LastReading(call: Call, clock: int): int {
    if call.CheckCooldown? then call.later else FirstReading(call, clock)
  }

  /** The latest reading so far, starting from `start`. */
  function Clock(calls: seq<Call>, start: int): int {
    if calls == [] then start else LastReading(calls[|calls| - 1], Clock(calls[..|calls| - 1], start))
  }

  ghost predicate Monotone(calls: seq<Call>, start: int) {
    calls != [] ==>
      var init, last := calls[..|calls| - 1], calls[|calls| - 1];
      var clock := Clock(init, start);
      Monotone(init, start) && clock <= FirstReading(last, clock) <= LastReading(last, clock)
  }

  // ---------------------------------------------------------------------------------------------
  // Eviction is invisible

  /** The answers callers get, in order; clean-ups answer nobody. */
  function Answers(cfg: Config, calls: seq<Call>): seq<Answer> {
    if calls == [] then []
    else
      var init, last := calls[..|calls| - 1], calls[|calls| - 1];
      if last.Cleanup? then Answers(cfg, init) else Answers(cfg, init) + [AnswerTo(cfg, Run(cfg, init), last)]
  }

  function WithoutCleanups(calls: seq<Call>): seq<Call> {
    if calls == [] then []
    else
      var init, last := WithoutCleanups(calls[..|calls| - 1]), calls[|calls| - 1];
      if last.Cleanup? then init else init + [last]
  }

  /** The swept guard lacks at most events that are already too old to be duplicates. */
  ghost predicate SweptFrom(cfg: Config, swept: Guard, full: Guard, clock: int) {
    && swept.depths == full.depths && swept.lastActivity == full.lastActivity && swept.retries == full.retries
    && (forall id :: id in swept.processed ==> id in full.processed && full.processed[id] == swept.processed[id])
    && (forall id :: id in full.processed && id !in swept.processed ==> clock - full.processed[id] > cfg.historyTtlMs)
  }

  lemma StepKeepsSwept(cfg: Config, swept: Guard, full: Guard, clock: int, call: Call)
    requires SweptFrom(cfg, swept, full, clock)
    requires clock <= FirstReading(call, clock) <= LastReading(call, clock)
    ensures if call.Cleanup? then SweptFrom(cfg, After(cfg, swept, call), full, LastReading(call, clock))
            else
              && AnswerTo(cfg, swept, call) == AnswerTo(cfg, full, call)
              && SweptFrom(cfg, After(cfg, swept, call), After(cfg, full, call), LastReading(call, clock))
  {
  }

  /**
   * With a monotone clock, cleaning up at any moments never changes an answer: the answers are those
   * of the same calls with every clean-up left out.
   */
  lemma {:induction false} CleanupIsInvisible(cfg: Config, calls: seq<Call>, start: int)
    requires Monotone(calls, start)
    ensures Answers(cfg, calls) == Answers(cfg, WithoutCleanups(calls))
    ensures SweptFrom(cfg, Run(cfg, calls), Run(cfg, WithoutCleanups(calls)), Clock(calls, start))
  {
    if calls != [] {
      var init, last := calls[..|calls| - 1], calls[|calls| - 1];
      CleanupIsInvisible(cfg, init, start);
      var kept := WithoutCleanups(init);
      StepKeepsSwept(cfg, Run(cfg, init), Run(cfg, kept), Clock(init, start), last);
      if !last.Cleanup? { assert (kept + [last])[..|kept|] == kept; }
    }
  }

  // ---------------------------------------------------------------------------------------------
  // The cooldown bounds the rate

  /** When activities of a symbol were let through, in order. */
  function Accepted(cfg: Config, calls: seq<Call>, symbol: string): seq<int> {
    if calls == [] then []
    else
      var init, last := calls[..|calls| - 1], calls[|calls| - 1];
      if last.CheckCooldown? && Upper(last.symbol) == Upper(symbol) && AnswerTo(cfg, Run(cfg, init), last).allowed
      then Accepted(cfg, init, symbol) + [last.later]
      else Accepted(cfg, init, symbol)
  }

  lemma {:induction false} AcceptedAreApart(cfg: Config, calls: seq<Call>, start: int, symbol: string)
    requires Monotone(calls, start)
    ensures var at, g := Accepted(cfg, calls, symbol), Run(cfg, calls);
            && (forall i, j :: 0 <= i <= j < |at| ==> at[j] - at[i] >= (j - i) * cfg.symbolCooldownMs)
            && (at != [] ==> Upper(symbol) in g.lastActivity && g.lastActivity[Upper(symbol)] == at[|at| - 1])
  {
    if calls != [] {
      var init, last := calls[..|calls| - 1], calls[|calls| - 1];
      AcceptedAreApart(cfg, init, start, symbol);
      var before, at := Accepted(cfg, init, symbol), Accepted(cfg, calls, symbol);
      if at != before && before != [] {
        assert at == before + [last.later];
        forall i, j | 0 <= i <= j < |at|
          ensures at[j] - at[i] >= (j - i) * cfg.symbolCooldownMs
        {
          if i < |before| == j {
            assert before[|before| - 1] - before[i] >= (|before| - 1 - i) * cfg.symbolCooldownMs;
            assert (j - i) * cfg.symbolCooldownMs == (|before| - 1 - i) * cfg.symbolCooldownMs + cfg.symbolCooldownMs;
          }
        }
      }
    }
  }

  /** Any window of length W lets through at most 1 + floor(W / cooldown) activities of one symbol. */
  lemma WindowBound(cfg: Config, calls: seq<Call>, start: int, symbol: string, i: nat, j: nat, window: nat)
    requires Monotone(calls, start) && cfg.symbolCooldownMs > 0
    requires var at := Accepted(cfg, calls, symbol); i <= j < |at| && at[j] - at[i] <= window
    ensures j - i + 1 <= 1 + window / cfg.symbolCooldownMs
  {
    AcceptedAreApart(cfg, calls, start, symbol);
    var n, c := j - i, cfg.symbolCooldownMs;
    assert n * c <= window;
    if n > window / c {
      MulGrows(window / c + 1, n, c);
    }
  }

  lemma MulGrows(a: int, b: int, c: int)
    requires a <= b && c > 0
    ensures a * c <= b * c
  {
  }

  // ---------------------------------------------------------------------------------------------
  // Recursion depth

  /** Traces entered and not yet exited, counting only entries that were allowed. */
  function Open(cfg: Config, calls: seq<Call>, c: string): int {
    if calls == [] then 0
    else
      var init, last := calls[..|calls| - 1], calls[|calls| - 1];
      if last == EnterTrace(c) && AnswerTo(cfg, Run(cfg, init), last).allowed then Open(cfg, init, c) + 1
      else if last == ExitTrace(c) then Open(cfg, init, c) - 1
      else Open(cfg, init, c)
  }

  /** Callers exit only what they entered. */
  ghost predicate Disciplined(cfg: Config, calls: seq<Call>, c: string) {
    calls != [] ==>
      var init, last := calls[..|calls| - 1], calls[|calls| - 1];
      Disciplined(cfg, init, c) && (last == ExitTrace(c) ==> Open(cfg, init, c) > 0)
  }

  /** The recorded depth never exceeds the maximum, whoever calls what. */
  lemma {:induction false} DepthBounded(cfg: Config, calls: seq<Call>, c: string)
    ensures c in Run(cfg, calls).depths ==> 1 <= Run(cfg, calls).depths[c] <= cfg.maxRecursionDepth
  {
    if calls != [] { DepthBounded(cfg, calls[..|calls| - 1], c); }
  }

  /** When callers exit only what they entered, the recorded depth is the number of open traces. */
  lemma {:induction false} DepthCountsOpenTraces(cfg: Config, calls: seq<Call>, c: string)
    requires c != "" && Disciplined(cfg, calls, c)
    ensures Get(Run(cfg, calls).depths, c, 0) == Open(cfg, calls, c) >= 0
  {
    if calls != [] {
      DepthBounded(cfg, calls[..|calls| - 1], c);
      DepthCountsOpenTraces(cfg, calls[..|calls| - 1], c);
    }
  }

  // ---------------------------------------------------------------------------------------------
  // The guard object

  class LoopGuard {
    const config: Config
    var processedEvents: map<string, int>
    var correlationDepths: map<string, int>
    var symbolLastActivity: map<string, int>
    var retryCounts: map<string, int>

    function View(): Guard
      reads this
    {
      Guard(processedEvents, correlationDepths, symbolLastActivity, retryCounts)
    }

    constructor (config: Config)
      ensures View() == EMPTY && this.config == config
    {
      this.config := config;
      processedEvents, correlationDepths, symbolLastActivity, retryCounts := map[], map[], map[], map[];
    }

    method IsDuplicateEvent(eventId: string, now: int) returns (duplicate: bool)
      ensures Duplicate(duplicate) == AnswerTo(config, View(), IsDuplicate(eventId, now))
    {
      if eventId == "" { return false; }
      if eventId in processedEvents {
        var existing := processedEvents[eventId];
        if existing != 0 && now - existing < config.historyTtlMs { return true; }
      }
      return false;
    }

    method RecordEvent(eventId: string, now: int)
      modifies this
      ensures View() == After(config, old(View()), Record(eventId, now))
    {
      if eventId != "" { processedEvents := processedEvents[eventId := now]; }
    }

    method Enter(correlationId: string) returns (allowed: bool, depth: int)
      modifies this
      ensures View() == After(config, old(View()), EnterTrace(correlationId))
      ensures Traced(allowed, depth) == AnswerTo(config, old(View()), EnterTrace(correlationId))
    {
      if correlationId == "" { return true, 1; }
      var current := Get(correlationDepths, correlationId, 0);
      var next := current + 1;
      if next > config.maxRecursionDepth { return false, next; }
      correlationDepths := correlationDepths[correlationId := next];
      return true, next;
    }

    method Exit(correlationId: string)
      modifies this
      ensures View() == After(config, old(View()), ExitTrace(correlationId))
    {
      if correlationId == "" { return; }
      var current := Get(correlationDepths, correlationId, 1);
      if current <= 1 {
        correlationDepths := correlationDepths - {correlationId};
      } else {
        correlationDepths := correlationDepths[correlationId := current - 1];
      }
    }

    method CheckSymbolCooldown(symbol: string, now: int, later: int) returns (allowed: bool, waitMs: int)
      modifies this
      ensures View() == After(config, old(View()), CheckCooldown(symbol, now, later))
      ensures Cooled(allowed, waitMs) == AnswerTo(config, old(View()), CheckCooldown(symbol, now, later))
    {
      var sym := Upper(symbol);
      var last := Get(symbolLastActivity, sym, 0);
      var elapsed := now - last;
      if elapsed < config.symbolCooldownMs { return false, config.symbolCooldownMs - elapsed; }
      symbolLastActivity := symbolLastActivity[sym := later];
      return true, 0;
    }

    method Retry(correlationId: string) returns (allowed: bool, retries: int)
      modifies this
      ensures View() == After(config, old(View()), RecordRetry(correlationId))
      ensures Retried(allowed, retries) == AnswerTo(config, old(View()), RecordRetry(correlationId))
    {
      var count := Get(retryCounts, correlationId, 0) + 1;
      retryCounts := retryCounts[correlationId := count];
      if count > config.maxRetries { return false, count; }
      return true, count;
    }

    /** Deletes stale events one at a time. */
    method CleanupAt(now: int)
      modifies this
      ensures View() == After(config, old(View()), Cleanup(now))
    {
      var todo := processedEvents.Keys;
      while todo != {}
        invariant todo <= processedEvents.Keys
        invariant forall id :: id in processedEvents ==>
                    id in old(processedEvents) && processedEvents[id] == old(processedEvents)[id]
        invariant forall id :: id in old(processedEvents) && id !in todo ==>
                    (id in processedEvents <==> now - old(processedEvents)[id] <= config.historyTtlMs)
        invariant View() == old(View()).(processed := processedEvents)
        decreases todo
      {
        var id :| id in todo;
        if now - processedEvents[id] > config.historyTtlMs { processedEvents := processedEvents - {id}; }
        todo := todo - {id};
      }
      assert processedEvents == Evicted(old(processedEvents), now, config.historyTtlMs);
    }
  }
}
