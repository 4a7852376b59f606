/** Validation and permission of a signal: pure checks on untyped input. */
module Validation {
  import opened Common
  import opened Text

  /** A field of an untyped object; Other is anything that is not listed, by its text. */
  datatype Js = Undefined | Null | Str(s: string) | Num(r: real) | NotFinite | Other(text: string)

  datatype RawSignal =
    | NotAnObject
    | Fields(id: Js, symbol: Js, side: Js, quantity: Js, price: Js, kind: Js, strategy: Js, agentId: Js,
             correlationId: Js, confidence: Js, timestamp: Js, idempotencyKey: Js)

  datatype Signal = Signal(id: Option<string>, symbol: string, side: string, quantity: real, price: real, kind: string,
                           strategy: Option<string>, agentId: string, correlationId: Option<string>,
                           confidence: Option<real>, timestamp: real)

  datatype Fault = NoObject | NoSymbol | BadSymbol | BadSide | BadQuantity | BadPrice | NoAgent | BadType
                 | BadCorrelation | BadConfidence

  datatype Outcome = Invalid(fault: Fault) | Valid(signal: Signal)

  predicate Absent(f: Js) { f.Undefined? || f.Null? }

  /** The lower-case text of a field, empty when there is none worth comparing. */
  function LowerText(f: Js): string {
    match f
    case Str(s) => Lower(s)
    case Other(t) => Lower(t)
    case _ => ""
  }

  predicate IsNonBlank(f: Js) { f.Str? && Trim(f.s) != "" }

  predicate PositiveNumber(f: Js) { f.Num? && f.r > 0.0 }

  predicate IsSymbolChar(c: char) { 'A' <= c <= 'Z' || IsDigit(c) }

  /** Two to twelve capitals or digits, optionally followed by USDT. */
  predicate IsSymbol(s: string) {
    && (forall k :: 0 <= k < |s| ==> IsSymbolChar(s[k]))
    && (2 <= |s| <= 12 || (6 <= |s| <= 16 && s[|s| - 4..] == "USDT"))
  }

  function FirstFault(raw: RawSignal): Option<Fault> {
    if raw.NotAnObject? then Some(NoObject)
    else if !IsNonBlank(raw.symbol) then Some(NoSymbol)
    else if !IsSymbol(Upper(Trim(raw.symbol.s))) then Some(BadSymbol)
    else if LowerText(raw.side) != "buy" && LowerText(raw.side) != "sell" then Some(BadSide)
    else if !PositiveNumber(raw.quantity) then Some(BadQuantity)
    else if !PositiveNumber(raw.price) then Some(BadPrice)
    else if !IsNonBlank(raw.agentId) then Some(NoAgent)
    else if !Absent(raw.kind) && LowerText(raw.kind) != "market" && LowerText(raw.kind) != "limit" then Some(BadType)
    else if !Absent(raw.correlationId) && !raw.correlationId.Str? then Some(BadCorrelation)
    else if !Absent(raw.confidence) && !(raw.confidence.Num? && 0.0 <= raw.confidence.r <= 1.0) then Some(BadConfidence)
    else None
  }

  function TextOf(f: Js): Option<string> { if f.Str? then Some(f.s) else None }

  function Normalized(raw: RawSignal, now: real): Signal
    requires FirstFault(raw).None?
  {
    Signal(if IsNonBlank(raw.id) then Some(Trim(raw.id.s)) else None,
           Upper(Trim(raw.symbol.s)), LowerText(raw.side), raw.quantity.r, raw.price.r,
           if Absent(raw.kind) then "market" else LowerText(raw.kind),
           TextOf(raw.strategy), Trim(raw.agentId.s), TextOf(raw.correlationId),
           if raw.confidence.Num? then Some(raw.confidence.r) else None,
           if raw.timestamp.Num? then raw.timestamp.r else now)
  }

  function ValidateSignal(raw: RawSignal, now: real): Outcome {
    if FirstFault(raw).Some? then Invalid(FirstFault(raw).value) else Valid(Normalized(raw, now))
  }

  /** A limit that is absent or not positive does not apply. */
  predicate WithinNotional(signal: Signal, maxOrderValue: Option<real>) {
    maxOrderValue.Some? && maxOrderValue.value > 0.0 ==> signal.quantity * signal.price <= maxOrderValue.value
  }

  datatype Permission = Permission(canTrade: bool, canSubmitOrders: bool, maxOrderSize: real, maxDailyOrders: int,
                                   allowedSymbols: seq<string>, allowedStrategies: seq<string>)

  const DEFAULT_PERMISSION := Permission(true, true, 50000.0, 100, [], [])

  datatype Denial = MayNotTrade | MayNotSubmit | TooLarge | DailyLimit | SymbolNotAllowed | StrategyNotAllowed

  /** The first ground for denial, in the order the grounds are checked. */
  function CheckPermission(signal: Signal, perms: Option<Permission>, dailyCount: int): Option<Denial> {
    var p := perms.GetOr(DEFAULT_PERMISSION);
    if !p.canTrade then Some(MayNotTrade)
    else if !p.canSubmitOrders then Some(MayNotSubmit)
    else if p.maxOrderSize > 0.0 && signal.quantity * signal.price > p.maxOrderSize then Some(TooLarge)
    else if p.maxDailyOrders > 0 && dailyCount >= p.maxDailyOrders then Some(DailyLimit)
    else if p.allowedSymbols != []
            && !exists k :: 0 <= k < |p.allowedSymbols| && Upper(p.allowedSymbols[k]) == Upper(signal.symbol)
    then Some(SymbolNotAllowed)
    else if p.allowedStrategies != [] && signal.strategy.Some? && signal.strategy.value != ""
            && signal.strategy.value !in p.allowedStrategies
    then Some(StrategyNotAllowed)
    else None
  }

  // ---------------------------------------------------------------------------------------------
  // Normal form

  function Field(o: Option<string>): Js { if o.Some? then Str(o.value) else Undefined }

  /** A normalised signal, submitted again. */
  function Resubmitted(s: Signal): RawSignal {
    Fields(Field(s.id), Str(s.symbol), Str(s.side), Num(s.quantity), Num(s.price), Str(s.kind), Field(s.strategy),
           Str(s.agentId), Field(s.correlationId), if s.confidence.Some? then Num(s.confidence.value) else Undefined,
           Num(s.timestamp), Undefined)
  }

  lemma LowerTwice(s: string)
    ensures Lower(Lower(s)) == Lower(s)
  {
  }

  lemma SymbolHasNoSpace(s: string)
    requires IsSymbol(s)
    ensures Trim(s) == s && s != ""
  {
    assert IsSymbolChar(s[0]) && IsSymbolChar(s[|s| - 1]);
  }

  /** Validation reaches a normal form: a signal it has normalised passes again, unchanged. */
  lemma {:induction false} NormalFormIsFixed(raw: RawSignal, now: real, later: real)
    requires ValidateSignal(raw, now).Valid?
    ensures var s := ValidateSignal(raw, now).signal; ValidateSignal(Resubmitted(s), later) == Valid(s)
  {
    var s := ValidateSignal(raw, now).signal;
    var again := Resubmitted(s);
    SymbolHasNoSpace(s.symbol);
    UpperTwice(Trim(raw.symbol.s));
    TrimTwice(raw.agentId.s);
    if IsNonBlank(raw.id) { TrimTwice(raw.id.s); }
    if raw.side.Str? { LowerTwice(raw.side.s); } else { LowerTwice(raw.side.text); }
    if raw.kind.Str? { LowerTwice(raw.kind.s); }
    if raw.kind.Other? { LowerTwice(raw.kind.text); }
    MarketIsLower();
    assert Upper(Trim(s.symbol)) == s.symbol;
    assert LowerText(again.side) == s.side && LowerText(again.kind) == s.kind;
    assert FirstFault(again).None?;
  }

  lemma MarketIsLower()
    ensures Lower("market") == "market" && Lower("limit") == "limit"
  {
  }
}
