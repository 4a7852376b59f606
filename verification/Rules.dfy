/** The rules an order must meet, read off independently of the order in which they are checked. */
module Rules {
  import opened Common
  import opened Text
  import opened Validation
  import opened Gates
  import opened Pipeline
  import WholeExecutions

  // ---------------------------------------------------------------------------------------------
  // Text

  /** The same character, or the two cases of one ASCII letter. */
  predicate SameLetter(c: char, d: char) {
    || c == d
    || ('a' <= c <= 'z' && 'A' <= d <= 'Z' && c as int - 'a' as int == d as int - 'A' as int)
    || ('A' <= c <= 'Z' && 'a' <= d <= 'z' && c as int - 'A' as int == d as int - 'a' as int)
  }

  predicate SameLetters(s: string, t: string) {
    |s| == |t| && forall k :: 0 <= k < |s| ==> SameLetter(s[k], t[k])
  }

  lemma SameCase(c: char, d: char)
    ensures ToUpper(c) == ToUpper(d) <==> SameLetter(c, d)
    ensures ToLower(c) == ToLower(d) <==> SameLetter(c, d)
    ensures !('a' <= ToUpper(c) <= 'z') && !('A' <= ToLower(c) <= 'Z')
    ensures SameLetter(ToUpper(c), c) && SameLetter(ToLower(c), c)
  {
  }

  /** Comparing texts in one case ignores case and nothing else. */
  lemma CaseIsIgnored(s: string, t: string)
    ensures Upper(s) == Upper(t) <==> SameLetters(s, t)
    ensures Lower(s) == Lower(t) <==> SameLetters(s, t)
  {
    forall k | 0 <= k < |s| && k < |t|
      ensures Upper(s)[k] == Upper(t)[k] <==> SameLetter(s[k], t[k])
      ensures Lower(s)[k] == Lower(t)[k] <==> SameLetter(s[k], t[k])
    {
      SameCase(s[k], t[k]);
    }
    if |s| == |t| && SameLetters(s, t) {
      assert Upper(s) == Upper(t) && Lower(s) == Lower(t);
    }
  }

  /** The code points that count as white space. */
  const SPACES := {9, 10, 11, 12, 13, 32, 160, 5760, 8192, 8193, 8194, 8195, 8196, 8197, 8198, 8199, 8200, 8201, 8202,
                   8232, 8233, 8239, 8287, 12288, 65279}

  lemma SpaceExactlyWhen(c: char)
    ensures IsSpace(c) <==> c as int in SPACES
  {
  }

  predicate Blank(s: string) { forall k :: 0 <= k < |s| ==> IsSpace(s[k]) }

  /** t is s without the white space around it. */
  ghost predicate IsTrimmed(s: string, t: string) {
    && (t == "" || (!IsSpace(t[0]) && !IsSpace(t[|t| - 1])))
    && exists lead: string, tail: string :: s == lead + t + tail && Blank(lead) && Blank(tail)
  }

  lemma {:induction false} StartIsBlank(s: string) returns (lead: string)
    ensures s == lead + TrimStart(s) && Blank(lead)
  {
    lead := "";
    if s != [] && IsSpace(s[0]) {
      lead := StartIsBlank(s[1..]);
      lead := [s[0]] + lead;
      assert s == [s[0]] + s[1..];
    }
  }

  lemma {:induction false} EndIsBlank(s: string) returns (tail: string)
    ensures s == TrimEnd(s) + tail && Blank(tail)
  {
    tail := "";
    if s != [] && IsSpace(s[|s| - 1]) {
      tail := EndIsBlank(s[..|s| - 1]);
      tail := tail + [s[|s| - 1]];
    }
  }

  lemma TrimRemovesWhiteSpace(s: string)
    ensures IsTrimmed(s, Trim(s))
  {
    var lead := StartIsBlank(s);
    var tail := EndIsBlank(TrimStart(s));
    assert s == lead + Trim(s) + tail;
    if Trim(s) != "" { assert Trim(s)[0] == TrimStart(s)[0]; }
  }

  // ---------------------------------------------------------------------------------------------
  // Validation

  /** Two to twelve capitals or digits. */
  predicate PlainSymbol(s: string) {
    2 <= |s| <= 12 && forall k :: 0 <= k < |s| ==> 'A' <= s[k] <= 'Z' || '0' <= s[k] <= '9'
  }

  lemma SymbolExactlyWhen(s: string)
    ensures IsSymbol(s) <==> PlainSymbol(s) || exists t: string :: PlainSymbol(t) && s == t + "USDT"
  {
    if IsSymbol(s) {
      forall k | 0 <= k < |s|
        ensures 'A' <= s[k] <= 'Z' || '0' <= s[k] <= '9'
      {
        assert IsSymbolChar(s[k]);
      }
      if |s| > 12 {
        assert s == s[..|s| - 4] + "USDT" && PlainSymbol(s[..|s| - 4]);
      }
    }
    if t: string :| PlainSymbol(t) && s == t + "USDT" {
      assert s[|s| - 4..] == "USDT";
      forall k | 0 <= k < |s|
        ensures IsSymbolChar(s[k])
      {
        if k < |t| { assert s[k] == t[k]; } else { assert s[k] == "USDT"[k - |t|]; }
      }
    }
  }

  /** A field whose text is this word, in whatever case. */
  predicate Says(f: Js, word: string) { (f.Str? && Lower(f.s) == word) || (f.Other? && Lower(f.text) == word) }

  /** What must be in the fields of an order for it to be taken up at all. */
  predicate WellFormed(raw: RawSignal) {
    && raw.Fields?
    && raw.symbol.Str? && IsSymbol(Upper(Trim(raw.symbol.s)))
    && (Says(raw.side, "buy") || Says(raw.side, "sell"))
    && raw.quantity.Num? && raw.quantity.r > 0.0 && raw.price.Num? && raw.price.r > 0.0
    && raw.agentId.Str? && Trim(raw.agentId.s) != ""
    && (raw.kind.Undefined? || raw.kind.Null? || Says(raw.kind, "market") || Says(raw.kind, "limit"))
    && (raw.correlationId.Undefined? || raw.correlationId.Null? || raw.correlationId.Str?)
    && (raw.confidence.Undefined? || raw.confidence.Null? || (raw.confidence.Num? && 0.0 <= raw.confidence.r <= 1.0))
  }

  /** A normalised order carries its own figures, symbol and agent, the text of its side, and defaults for the rest. */
  predicate Carries(raw: RawSignal, now: real, s: Signal)
    requires raw.Fields? && raw.symbol.Str? && raw.agentId.Str?
  {
    && s.symbol == Upper(Trim(raw.symbol.s)) && s.agentId == Trim(raw.agentId.s)
    && Says(raw.side, s.side) && (s.side == "buy" || s.side == "sell")
    && raw.quantity == Num(s.quantity) && raw.price == Num(s.price)
    && (s.kind == "market" || s.kind == "limit")
    && (if raw.kind.Undefined? || raw.kind.Null? then s.kind == "market" else Says(raw.kind, s.kind))
    && (if raw.strategy.Str? then s.strategy == Some(raw.strategy.s) else s.strategy == None)
    && (if raw.confidence.Num? then s.confidence == Some(raw.confidence.r) else s.confidence == None)
    && (if raw.timestamp.Num? then s.timestamp == raw.timestamp.r else s.timestamp == now)
    && (if raw.correlationId.Str? then s.correlationId == Some(raw.correlationId.s) else s.correlationId == None)
    && (if raw.id.Str? && Trim(raw.id.s) != "" then s.id == Some(Trim(raw.id.s)) else s.id == None)
  }

  lemma EmptyIsNoSymbol()
    ensures !IsSymbol(Upper(""))
  {
    assert |Upper("")| == 0;
  }

  /** Validation accepts exactly the well-formed orders, and normalises each to what it says. */
  lemma ValidExactlyWhen(raw: RawSignal, now: real)
    ensures ValidateSignal(raw, now).Valid? <==> WellFormed(raw)
    ensures WellFormed(raw) ==> Carries(raw, now, ValidateSignal(raw, now).signal)
  {
    EmptyIsNoSymbol();
  }

  // ---------------------------------------------------------------------------------------------
  // Permission

  /** The order's symbol is on the list, in whatever case. */
  predicate Lists(symbols: seq<string>, symbol: string) {
    exists k :: 0 <= k < |symbols| && SameLetters(symbols[k], symbol)
  }

  /** One ground for denial. */
  predicate Denies(p: Permission, s: Signal, daily: int, ground: Denial) {
    match ground
    case MayNotTrade => !p.canTrade
    case MayNotSubmit => !p.canSubmitOrders
    case TooLarge => p.maxOrderSize > 0.0 && s.quantity * s.price > p.maxOrderSize
    case DailyLimit => p.maxDailyOrders > 0 && daily >= p.maxDailyOrders
    case SymbolNotAllowed => |p.allowedSymbols| > 0 && !Lists(p.allowedSymbols, s.symbol)
    case StrategyNotAllowed =>
      |p.allowedStrategies| > 0 && s.strategy.Some? && |s.strategy.value| > 0 && s.strategy.value !in p.allowedStrategies
  }

  const GROUNDS := [MayNotTrade, MayNotSubmit, TooLarge, DailyLimit, SymbolNotAllowed, StrategyNotAllowed]

  lemma ListedExactlyWhen(symbols: seq<string>, symbol: string)
    ensures Lists(symbols, symbol) <==> exists k :: 0 <= k < |symbols| && Upper(symbols[k]) == Upper(symbol)
  {
    forall k | 0 <= k < |symbols|
      ensures Upper(symbols[k]) == Upper(symbol) <==> SameLetters(symbols[k], symbol)
    {
      CaseIsIgnored(symbols[k], symbol);
    }
  }

  /** What an agent without permissions on file may do. */
  predicate ByDefault(p: Permission) {
    && p.canTrade && p.canSubmitOrders && p.maxOrderSize == 50000.0 && p.maxDailyOrders == 100
    && p.allowedSymbols == [] && p.allowedStrategies == []
  }

  /** These permissions govern: the agent's own, or the defaults. */
  ghost predicate Governs(perms: Option<Permission>, p: Permission) {
    if perms.Some? then p == perms.value else ByDefault(p)
  }

  /**
   * An order is denied on a ground if and only if that ground holds and none before it does. So it is
   * permitted exactly when no ground holds: neither right is missing, its value and the day's count are
   * within their limits, and its symbol and its strategy are on the lists that there are.
   */
  lemma DeniedExactlyWhen(s: Signal, perms: Option<Permission>, daily: int, p: Permission)
    requires Governs(perms, p)
    ensures forall k :: 0 <= k < |GROUNDS| ==>
              (CheckPermission(s, perms, daily) == Some(GROUNDS[k]) <==>
                 Denies(p, s, daily, GROUNDS[k]) && forall j :: 0 <= j < k ==> !Denies(p, s, daily, GROUNDS[j]))
    ensures CheckPermission(s, perms, daily).None? <==> forall k :: 0 <= k < |GROUNDS| ==> !Denies(p, s, daily, GROUNDS[k])
  {
    ListedExactlyWhen(p.allowedSymbols, s.symbol);
    assert p == perms.GetOr(DEFAULT_PERMISSION);
    var d := CheckPermission(s, perms, daily);
    assert d.Some? ==> d.value in GROUNDS && Denies(p, s, daily, d.value);
  }

  /** No ground for denial. */
  predicate Permits(p: Permission, s: Signal, daily: int) {
    && p.canTrade && p.canSubmitOrders
    && (p.maxOrderSize > 0.0 ==> s.quantity * s.price <= p.maxOrderSize)
    && (p.maxDailyOrders > 0 ==> daily < p.maxDailyOrders)
    && (p.allowedSymbols != [] ==> Lists(p.allowedSymbols, s.symbol))
    && (p.allowedStrategies != [] && s.strategy.Some? && s.strategy.value != "" ==>
          s.strategy.value in p.allowedStrategies)
  }

  lemma PermittedExactlyWhen(s: Signal, perms: Option<Permission>, daily: int, p: Permission)
    requires Governs(perms, p)
    ensures CheckPermission(s, perms, daily).None? <==> Permits(p, s, daily)
  {
    ListedExactlyWhen(p.allowedSymbols, s.symbol);
    assert p == perms.GetOr(DEFAULT_PERMISSION);
  }

  // ---------------------------------------------------------------------------------------------
  // Whole executions

  /** Trading is on: nothing halted it, and live trading is not asked for where it is not allowed. */
  predicate TradingIsOn(w: World) { w.killSwitch == Quiet && !(w.liveTradingEnabled && !w.liveEnvAllowed) }

  /** The order is within the configured value, and the hard limits, if there are any, were asked and say so. */
  predicate WithinAll(w: World, s: Signal, daily: nat) {
    && (w.maxOrderValue.None? || w.maxOrderValue.value <= 0.0 || s.quantity * s.price <= w.maxOrderValue.value)
    && (w.hardLimits.None? || w.hardLimits.value(s, daily) == WithinLimits)
  }

  /** Risk answered, and where its approval is required, approved and issued a ticket. */
  predicate RiskAgrees(w: World, s: Signal) {
    w.risk(s).RiskDecided? && (!w.requireRiskApproval || (w.risk(s).approved && w.risk(s).hasTicket))
  }

  /** Every rule there is, of an order that validation normalises to s. */
  ghost predicate MeetsEveryRule(w: World, raw: RawSignal, s: Signal, p: Permission, daily: nat) {
    && TradingIsOn(w) && WellFormed(raw) && Carries(raw, w.now, s) && WithinAll(w, s, daily) && RiskAgrees(w, s)
    && Governs(w.permissionOf(s.agentId), p) && Permits(p, s, daily)
  }

  lemma CarriedIsNormalized(raw: RawSignal, now: real, s: Signal)
    requires WellFormed(raw) && Carries(raw, now, s)
    ensures ValidateSignal(raw, now) == Valid(s)
  {
    ValidExactlyWhen(raw, now);
  }

  lemma PermissionPassesExactlyWhen(w: World, s: Signal, daily: nat, p: Permission)
    requires Governs(w.permissionOf(s.agentId), p)
    ensures PermissionPasses(w, s, daily) <==> Permits(p, s, daily)
  {
    PermittedExactlyWhen(s, w.permissionOf(s.agentId), daily, p);
  }

  /**
   * An execution succeeds if and only if the order meets every rule and the broker accepts it: nothing
   * gets through that should not, and nothing is refused without a reason.
   */
  lemma SucceedsExactlyWhen(w: World, raw: RawSignal, daily: string -> nat, answer: BrokerAnswer)
    requires !RunGates(w, raw, daily).Threw?
    ensures Execution(w, raw, daily, answer).0.success <==>
              answer == Accepted && exists s: Signal, p: Permission :: MeetsEveryRule(w, raw, s, p, daily(s.agentId))
  {
    ReachesBrokerExactlyWhen(w, raw, daily);
  }

  /** The gates of an order that validates to s. */
  lemma GatesOfValid(w: World, raw: RawSignal, daily: string -> nat, s: Signal, p: Permission)
    requires ValidateSignal(raw, w.now) == Valid(s) && Governs(w.permissionOf(s.agentId), p)
    ensures RunGates(w, raw, daily).ToBroker? <==>
              TradingIsOn(w) && WithinAll(w, s, daily(s.agentId)) && RiskAgrees(w, s) && Permits(p, s, daily(s.agentId))
    ensures RunGates(w, raw, daily).ToBroker? ==> RunGates(w, raw, daily).signal == s
  {
    PermissionPassesExactlyWhen(w, s, daily(s.agentId), p);
  }

  lemma ReachesBrokerExactlyWhen(w: World, raw: RawSignal, daily: string -> nat)
    ensures RunGates(w, raw, daily).ToBroker? <==>
              exists s: Signal, p: Permission :: MeetsEveryRule(w, raw, s, p, daily(s.agentId))
    ensures forall s: Signal, p: Permission :: MeetsEveryRule(w, raw, s, p, daily(s.agentId)) ==>
              RunGates(w, raw, daily).signal == s
  {
    if RunGates(w, raw, daily).ToBroker? { BrokerNeedsRules(w, raw, daily); }
    forall s: Signal, p: Permission | MeetsEveryRule(w, raw, s, p, daily(s.agentId))
      ensures RunGates(w, raw, daily).ToBroker? && RunGates(w, raw, daily).signal == s
    {
      CarriedIsNormalized(raw, w.now, s);
      GatesOfValid(w, raw, daily, s, p);
    }
  }

  lemma BrokerNeedsRules(w: World, raw: RawSignal, daily: string -> nat)
    requires RunGates(w, raw, daily).ToBroker?
    ensures exists s: Signal, p: Permission :: MeetsEveryRule(w, raw, s, p, daily(s.agentId))
  {
    assert ValidateSignal(raw, w.now).Valid?;
    var s := ValidateSignal(raw, w.now).signal;
    var p := w.permissionOf(s.agentId).GetOr(DEFAULT_PERMISSION);
    GatesOfValid(w, raw, daily, s, p);
    ValidExactlyWhen(raw, w.now);
    assert MeetsEveryRule(w, raw, s, p, daily(s.agentId));
  }

  /** The order normalises to one within its value, for which the hard limits break. */
  ghost predicate BreaksLimits(w: World, raw: RawSignal, s: Signal, daily: nat) {
    && WellFormed(raw) && Carries(raw, w.now, s)
    && (w.maxOrderValue.None? || w.maxOrderValue.value <= 0.0 || s.quantity * s.price <= w.maxOrderValue.value)
    && w.hardLimits.Some? && w.hardLimits.value(s, daily) == LimitsBroken
  }

  /** An exception escapes only from the kill switch, or from the hard limits of a well-formed order within its value. */
  lemma ThrowsExactlyWhen(w: World, raw: RawSignal, daily: string -> nat)
    ensures RunGates(w, raw, daily).Threw? <==>
              || w.killSwitch == SwitchBroken
              || (TradingIsOn(w) && exists s: Signal :: BreaksLimits(w, raw, s, daily(s.agentId)))
  {
    ValidExactlyWhen(raw, w.now);
    forall s: Signal | WellFormed(raw) && Carries(raw, w.now, s)
      ensures ValidateSignal(raw, w.now) == Valid(s)
    {
      CarriedIsNormalized(raw, w.now, s);
    }
  }

  /**
   * In every run: a resolved execution succeeded if and only if, under the counts in force when it
   * started, its order met every rule, its symbol and strategy among them, and the broker accepted it.
   */
  lemma {:induction false} ResolvedSucceedsExactlyWhen(ops: seq<Op>, i: nat) returns (k: nat, answer: BrokerAnswer)
    requires i < |Run(ops).table.execs| && Run(ops).table.execs[i].phase.Resolved?
    ensures WholeExecutions.StartedBy(ops, i, k)
    ensures var w, raw, counts := ops[k].call.world, ops[k].call.raw, Run(ops[..k]).counts;
            Run(ops).table.execs[i].phase.result.success <==>
              answer == Accepted && exists s: Signal, p: Permission :: MeetsEveryRule(w, raw, s, p, Daily(counts, s.agentId))
  {
    k, answer := WholeExecutions.ResultAndTrailAreTheGates(ops, i);
    var w, raw, counts := ops[k].call.world, ops[k].call.raw, Run(ops[..k]).counts;
    SucceedsExactlyWhen(w, raw, DailyOf(counts), answer);
    assert forall s: Signal :: DailyOf(counts)(s.agentId) == Daily(counts, s.agentId);
  }
}
