/** One execution through the pipeline's gates, from the kill switch to the broker's answer. */
module Gates {
  import opened Common
  import opened Text
  import opened Validation

  datatype Stage = KillSwitch | LiveDisabled | Received | Validating | HardLimits | Risk | Permitting | Paper | Completed

  /** One audit entry of an execution: its stage, and whether it reports approval, refusal or neither. */
  datatype Mark = Mark(stage: Stage, approved: Option<bool>)

  /** Answers of parts whose own logic is not modelled; Broken is a thrown exception. */
  datatype Switch = Quiet | Halted | SwitchBroken
  datatype Limits = WithinLimits | Breached | LimitsBroken
  datatype RiskAnswer = RiskDecided(approved: bool, hasTicket: bool) | RiskThrew
  datatype BrokerAnswer = Accepted | BrokerRejected | BrokerThrew

  /** The configuration and the outside world as one execution meets them. */
  datatype World = World(killSwitch: Switch, liveTradingEnabled: bool, liveEnvAllowed: bool, maxOrderValue: Option<real>,
                         hardLimits: Option<(Signal, nat) -> Limits>, requireRiskApproval: bool,
                         risk: Signal -> RiskAnswer, permissionOf: string -> Option<Permission>, now: real)

  datatype Result = Result(success: bool, stage: Stage)

  /** The synchronous part of an execution: it stops, reaches the broker, or lets an exception escape. */
  datatype Verdict =
    | Stopped(stage: Stage, trail: seq<Mark>)
    | ToBroker(signal: Signal, trail: seq<Mark>)
    | Threw(trail: seq<Mark>)

  function Refused(stage: Stage): Mark { Mark(stage, Some(false)) }

  function Granted(stage: Stage): Mark { Mark(stage, Some(true)) }

  predicate RiskPasses(w: World, s: Signal) {
    w.risk(s).RiskDecided? && (w.requireRiskApproval ==> w.risk(s).approved && w.risk(s).hasTicket)
  }

  predicate PermissionPasses(w: World, s: Signal, daily: nat) { CheckPermission(s, w.permissionOf(s.agentId), daily).None? }

  function LimitsAnswer(w: World, s: Signal, daily: nat): Limits {
    if w.hardLimits.Some? then w.hardLimits.value(s, daily) else WithinLimits
  }

  /** The last two gates of a signal that has been validated. */
  function Assess(w: World, s: Signal, daily: nat, validated: seq<Mark>): Verdict {
    if !RiskPasses(w, s) then Stopped(Risk, validated + [Refused(Risk)])
    else
      var assessed := validated + [Granted(Risk)];
      if !PermissionPasses(w, s, daily) then Stopped(Permitting, assessed + [Refused(Permitting)])
      else ToBroker(s, assessed + [Granted(Permitting)])
  }

  /** The gates in their order; `daily` is the agent's count when the execution starts. */
  function RunGates(w: World, raw: RawSignal, daily: string -> nat): Verdict {
    if w.killSwitch.SwitchBroken? then Threw([])
    else if w.killSwitch.Halted? then Stopped(KillSwitch, [Refused(KillSwitch)])
    else if w.liveTradingEnabled && !w.liveEnvAllowed then Stopped(LiveDisabled, [Refused(LiveDisabled)])
    else
      var received := [Mark(Received, None)];
      match ValidateSignal(raw, w.now)
      case Invalid(_) => Stopped(Validating, received + [Refused(Validating)])
      case Valid(s) =>
        if !WithinNotional(s, w.maxOrderValue) then Stopped(Validating, received + [Refused(Validating)])
        else if LimitsAnswer(w, s, daily(s.agentId)).LimitsBroken? then Threw(received)
        else if LimitsAnswer(w, s, daily(s.agentId)).Breached? then Stopped(HardLimits, received + [Refused(HardLimits)])
        else
          Assess(w, s, daily(s.agentId), received + [Granted(Validating)])
  }

  function BrokerMark(answer: BrokerAnswer): Mark { if answer.Accepted? then Granted(Paper) else Refused(Paper) }

  function Conclude(answer: BrokerAnswer): Result {
    if answer.Accepted? then Result(true, Completed) else Result(false, Paper)
  }

  /** How an execution that lets no exception escape ends: its result and its whole audit trail. */
  function Finish(v: Verdict, answer: BrokerAnswer): (Result, seq<Mark>)
    requires !v.Threw?
  {
    match v
    case Stopped(stage, trail) => (Result(false, stage), trail)
    case ToBroker(_, trail) => (Conclude(answer), trail + [BrokerMark(answer)])
  }

  function Execution(w: World, raw: RawSignal, daily: string -> nat, answer: BrokerAnswer): (Result, seq<Mark>)
    requires !RunGates(w, raw, daily).Threw?
  {
    Finish(RunGates(w, raw, daily), answer)
  }

  // ---------------------------------------------------------------------------------------------
  // Gate soundness

  /** An independent reading of the rules: each gate with whether it is passed, in order. */
  function Checks(w: World, raw: RawSignal, daily: string -> nat, answer: BrokerAnswer): seq<(Stage, bool)> {
    [(KillSwitch, w.killSwitch.Quiet?)] + ([(LiveDisabled, w.liveTradingEnabled ==> w.liveEnvAllowed)]
    + LaterChecks(w, raw, daily, answer))
  }

  function SignalChecks(w: World, s: Signal, daily: nat, answer: BrokerAnswer): seq<(Stage, bool)> {
    [(Validating, WithinNotional(s, w.maxOrderValue)), (HardLimits, LimitsAnswer(w, s, daily).WithinLimits?),
     (Risk, RiskPasses(w, s)), (Permitting, PermissionPasses(w, s, daily)), (Paper, answer.Accepted?)]
  }

  function FirstFailure(checks: seq<(Stage, bool)>): Option<Stage> {
    if checks == [] then None else if !checks[0].1 then Some(checks[0].0) else FirstFailure(checks[1..])
  }

  function Rank(s: Stage): nat {
    match s
    case KillSwitch => 0
    case LiveDisabled => 1
    case Received => 2
    case Validating => 3
    case HardLimits => 4
    case Risk => 5
    case Permitting => 6
    case Paper => 7
    case Completed => 8
  }

  /** Stages in order, nothing refused before the end, and the end refused exactly when the execution fails there. */
  ghost predicate HonestTrail(trail: seq<Mark>, r: Result) {
    && trail != []
    && (forall i, j :: 0 <= i < j < |trail| ==> Rank(trail[i].stage) < Rank(trail[j].stage))
    && (forall i :: 0 <= i < |trail| - 1 ==> trail[i].approved != Some(false))
    && trail[|trail| - 1] == if r.success then Granted(Paper) else Refused(r.stage)
  }

  lemma FirstFailureStep(stage: Stage, ok: bool, rest: seq<(Stage, bool)>)
    ensures FirstFailure([(stage, ok)] + rest) == if ok then FirstFailure(rest) else Some(stage)
  {
    assert ([(stage, ok)] + rest)[1..] == rest;
  }

  lemma FirstOfFive(a: bool, b: bool, c: bool, d: bool, e: bool)
    ensures FirstFailure([(Validating, a), (HardLimits, b), (Risk, c), (Permitting, d), (Paper, e)])
         == if !a then Some(Validating) else if !b then Some(HardLimits) else if !c then Some(Risk)
            else if !d then Some(Permitting) else if !e then Some(Paper) else None
  {
    var r4, r3, r2, r1 := [(Paper, e)], [(Permitting, d), (Paper, e)], [(Risk, c), (Permitting, d), (Paper, e)],
                          [(HardLimits, b), (Risk, c), (Permitting, d), (Paper, e)];
    assert [(Validating, a)] + r1 == [(Validating, a), (HardLimits, b), (Risk, c), (Permitting, d), (Paper, e)];
    assert [(HardLimits, b)] + r2 == r1 && [(Risk, c)] + r3 == r2 && [(Permitting, d)] + r4 == r3 && [(Paper, e)] + [] == r4;
    FirstFailureStep(Validating, a, r1);
    FirstFailureStep(HardLimits, b, r2);
    FirstFailureStep(Risk, c, r3);
    FirstFailureStep(Permitting, d, r4);
    FirstFailureStep(Paper, e, []);
  }

  /** The checks of a valid signal, as the ladder the gates climb. */
  lemma SignalLadder(w: World, s: Signal, daily: nat, answer: BrokerAnswer)
    ensures FirstFailure(SignalChecks(w, s, daily, answer))
         == if !WithinNotional(s, w.maxOrderValue) then Some(Validating)
            else if !LimitsAnswer(w, s, daily).WithinLimits? then Some(HardLimits)
            else if !RiskPasses(w, s) then Some(Risk)
            else if !PermissionPasses(w, s, daily) then Some(Permitting)
            else if !answer.Accepted? then Some(Paper) else None
  {
    FirstOfFive(WithinNotional(s, w.maxOrderValue), LimitsAnswer(w, s, daily).WithinLimits?,
                RiskPasses(w, s), PermissionPasses(w, s, daily), answer.Accepted?);
  }

  lemma FailureOfSignal(w: World, raw: RawSignal, daily: string -> nat, answer: BrokerAnswer)
    requires w.killSwitch.Quiet? && (w.liveTradingEnabled ==> w.liveEnvAllowed) && !RunGates(w, raw, daily).Threw?
    ensures var failure := FirstFailure(LaterChecks(w, raw, daily, answer));
            && (Execution(w, raw, daily, answer).0.success <==> failure.None?)
            && Execution(w, raw, daily, answer).0.stage == failure.GetOr(Completed)
  {
    match ValidateSignal(raw, w.now)
    case Invalid(_) =>
    case Valid(s) => SignalLadder(w, s, daily(s.agentId), answer);
  }

  /** The trail of a success. */
  const FULL_TRAIL := [Mark(Received, None), Granted(Validating), Granted(Risk), Granted(Permitting), Granted(Paper)]

  lemma RefusalAfter(n: nat, stage: Stage)
    requires n <= 4 && (n > 0 ==> Rank(FULL_TRAIL[n - 1].stage) < Rank(stage))
    ensures HonestTrail(FULL_TRAIL[..n] + [Refused(stage)], Result(false, stage))
  {
  }

  /** How many marks precede a refusal at this stage. */
  function MarksBefore(stage: Stage): nat {
    match stage
    case KillSwitch => 0
    case LiveDisabled => 0
    case Validating => 1
    case HardLimits => 1
    case Risk => 2
    case Permitting => 3
    case _ => 4
  }

  /** The trail a verdict of the gates must come with. */
  ghost predicate GateTrail(v: Verdict) {
    match v
    case Threw(_) => true
    case Stopped(stage, trail) => trail == FULL_TRAIL[..MarksBefore(stage)] + [Refused(stage)]
                                  && !stage.Received? && !stage.Paper? && !stage.Completed?
    case ToBroker(_, trail) => trail == FULL_TRAIL[..4]
  }

  lemma GatesLeaveTrail(w: World, raw: RawSignal, daily: string -> nat)
    ensures GateTrail(RunGates(w, raw, daily))
  {
    if w.killSwitch.Quiet? && (w.liveTradingEnabled ==> w.liveEnvAllowed) {
      match ValidateSignal(raw, w.now)
      case Invalid(_) =>
      case Valid(s) => SignalLeavesTrail(w, raw, daily, s);
    }
  }

  lemma SignalLeavesTrail(w: World, raw: RawSignal, daily: string -> nat, s: Signal)
    requires w.killSwitch.Quiet? && (w.liveTradingEnabled ==> w.liveEnvAllowed) && ValidateSignal(raw, w.now) == Valid(s)
    ensures GateTrail(RunGates(w, raw, daily))
  {
    if WithinNotional(s, w.maxOrderValue) && LimitsAnswer(w, s, daily(s.agentId)).WithinLimits? {
      if RiskPasses(w, s) {
        assert [Mark(Received, None)] + [Granted(Validating)] + [Granted(Risk)] == FULL_TRAIL[..3];
      } else {
        assert [Mark(Received, None)] + [Granted(Validating)] == FULL_TRAIL[..2];
      }
    }
  }

  lemma FinishIsHonest(v: Verdict, answer: BrokerAnswer)
    requires !v.Threw? && GateTrail(v)
    ensures HonestTrail(Finish(v, answer).1, Finish(v, answer).0)
  {
    if v.Stopped? {
      RankBefore(v.stage);
      RefusalAfter(MarksBefore(v.stage), v.stage);
    } else if answer.Accepted? {
      SuccessIsHonest();
    } else {
      RefusalAfter(4, Paper);
    }
  }

  lemma RankBefore(stage: Stage)
    requires !stage.Received? && !stage.Paper? && !stage.Completed?
    ensures var n := MarksBefore(stage); n <= 4 && (n > 0 ==> Rank(FULL_TRAIL[n - 1].stage) < Rank(stage))
  {
  }

  lemma SuccessIsHonest()
    ensures HonestTrail(FULL_TRAIL[..4] + [Granted(Paper)], Result(true, Completed))
  {
    assert FULL_TRAIL[..4] + [Granted(Paper)] == FULL_TRAIL;
  }

  function LaterChecks(w: World, raw: RawSignal, daily: string -> nat, answer: BrokerAnswer): seq<(Stage, bool)> {
    match ValidateSignal(raw, w.now)
    case Invalid(_) => [(Validating, false)]
    case Valid(s) => SignalChecks(w, s, daily(s.agentId), answer)
  }

  lemma FailureLadder(w: World, raw: RawSignal, daily: string -> nat, answer: BrokerAnswer)
    ensures FirstFailure(Checks(w, raw, daily, answer))
         == if !w.killSwitch.Quiet? then Some(KillSwitch)
            else if w.liveTradingEnabled && !w.liveEnvAllowed then Some(LiveDisabled)
            else FirstFailure(LaterChecks(w, raw, daily, answer))
  {
    var k, l := w.killSwitch.Quiet?, w.liveTradingEnabled ==> w.liveEnvAllowed;
    var rest := LaterChecks(w, raw, daily, answer);
    FirstFailureStep(KillSwitch, k, [(LiveDisabled, l)] + rest);
    FirstFailureStep(LiveDisabled, l, rest);
  }

  /** An execution succeeds exactly when every gate is passed; otherwise it reports the first gate that is not. */
  lemma ReportsFirstFailure(w: World, raw: RawSignal, daily: string -> nat, answer: BrokerAnswer)
    requires !RunGates(w, raw, daily).Threw?
    ensures var r, failure := Execution(w, raw, daily, answer).0, FirstFailure(Checks(w, raw, daily, answer));
            (r.success <==> failure.None?) && r.stage == failure.GetOr(Completed)
  {
    FailureLadder(w, raw, daily, answer);
    if w.killSwitch.Quiet? && (w.liveTradingEnabled ==> w.liveEnvAllowed) {
      FailureOfSignal(w, raw, daily, answer);
    }
  }

  /** Its audit trail runs in stage order, approving everything up to the gate that refused, if one did. */
  lemma {:induction false} TrailsAreHonest(w: World, raw: RawSignal, daily: string -> nat, answer: BrokerAnswer)
    requires !RunGates(w, raw, daily).Threw?
    ensures HonestTrail(Execution(w, raw, daily, answer).1, Execution(w, raw, daily, answer).0)
  {
    GatesLeaveTrail(w, raw, daily);
    FinishIsHonest(RunGates(w, raw, daily), answer);
  }

  /** What a success guarantees about the signal that was handed in, end to end. */
  lemma SuccessIsWithinLimits(w: World, raw: RawSignal, daily: string -> nat, answer: BrokerAnswer)
    requires !RunGates(w, raw, daily).Threw? && Execution(w, raw, daily, answer).0.success
    ensures raw.Fields? && raw.quantity.Num? && raw.price.Num? && raw.quantity.r > 0.0 && raw.price.r > 0.0
    ensures ValidateSignal(raw, w.now).Valid?
    ensures var s := ValidateSignal(raw, w.now).signal;
            var p := w.permissionOf(s.agentId).GetOr(DEFAULT_PERMISSION);
            && s.quantity == raw.quantity.r && s.price == raw.price.r
            && (w.maxOrderValue.Some? && w.maxOrderValue.value > 0.0 ==> s.quantity * s.price <= w.maxOrderValue.value)
            && p.canTrade && p.canSubmitOrders
            && (p.maxOrderSize > 0.0 ==> s.quantity * s.price <= p.maxOrderSize)
            && (p.maxDailyOrders > 0 ==> daily(s.agentId) < p.maxDailyOrders)
            && (p.allowedSymbols != [] ==>
                  exists k :: 0 <= k < |p.allowedSymbols| && Upper(p.allowedSymbols[k]) == Upper(s.symbol))
            && (p.allowedStrategies != [] && s.strategy.Some? && s.strategy.value != "" ==>
                  s.strategy.value in p.allowedStrategies)
            && w.killSwitch.Quiet? && (w.liveTradingEnabled ==> w.liveEnvAllowed)
            && (w.hardLimits.Some? ==> w.hardLimits.value(s, daily(s.agentId)).WithinLimits?)
            && (w.requireRiskApproval ==> w.risk(s) == RiskDecided(true, true)) && answer.Accepted?
  {
  }

  // ---------------------------------------------------------------------------------------------
  // Approval that is not required

  /** Every gate before risk is passed. */
  predicate ReachesRisk(w: World, raw: RawSignal, daily: string -> nat) {
    && w.killSwitch.Quiet? && (w.liveTradingEnabled ==> w.liveEnvAllowed) && ValidateSignal(raw, w.now).Valid?
    && var s := ValidateSignal(raw, w.now).signal;
       WithinNotional(s, w.maxOrderValue) && LimitsAnswer(w, s, daily(s.agentId)).WithinLimits?
  }

  /**
   * When risk refuses a signal or issues no ticket for it, the trail nevertheless says that risk
   * granted it, wherever the execution ends, if and only if approval is not required.
   */
  lemma RefusalMarkedGrantedExactlyWhen(w: World, raw: RawSignal, daily: string -> nat)
    requires ReachesRisk(w, raw, daily)
    requires var answer := w.risk(ValidateSignal(raw, w.now).signal);
             answer.RiskDecided? && !(answer.approved && answer.hasTicket)
    ensures Granted(Risk) in RunGates(w, raw, daily).trail <==> !w.requireRiskApproval
  {
    GatesLeaveTrail(w, raw, daily);
    if !w.requireRiskApproval {
      assert RunGates(w, raw, daily).trail[2] == Granted(Risk);
    }
  }

  const SAMPLE := Fields(Str("s"), Str("BTC"), Str("buy"), Num(1.0), Num(1.0), Undefined, Undefined, Str("a"), Str("c"),
                         Undefined, Num(0.0), Undefined)

  /** Nothing is configured, risk refuses everything, and its approval is not required. */
  const UNGUARDED := World(Quiet, false, false, None, None, false, (s: Signal) => RiskDecided(false, false),
                           (agent: string) => None, 0.0)

  lemma SampleIsValid()
    ensures FirstFault(SAMPLE).None? && Normalized(SAMPLE, 0.0).agentId == "a"
    ensures Normalized(SAMPLE, 0.0).quantity == 1.0 && Normalized(SAMPLE, 0.0).price == 1.0
  {
    assert !IsSpace("BTC"[0]) && !IsSpace("BTC"[2]) && !IsSpace("a"[0]) && !IsSpace("s"[0]);
    assert TrimStart("BTC") == "BTC" && TrimStart("a") == "a";
    assert Trim("BTC") == "BTC" && Trim("a") == "a";
    assert Upper("BTC") == "BTC" && Lower("buy") == "buy";
    assert IsSymbol("BTC");
  }

  lemma SampleIsPermitted(daily: string -> nat)
    requires daily("a") < 100
    ensures PermissionPasses(UNGUARDED, Normalized(SAMPLE, 0.0), daily("a"))
  {
    SampleIsValid();
  }

  /** A refused signal that goes through to the broker and is logged as granted. */
  lemma RefusedSignalReachesBroker(daily: string -> nat)
    requires daily("a") < 100
    ensures ReachesRisk(UNGUARDED, SAMPLE, daily) && RunGates(UNGUARDED, SAMPLE, daily).ToBroker?
    ensures UNGUARDED.risk(ValidateSignal(SAMPLE, 0.0).signal) == RiskDecided(false, false)
    ensures Granted(Risk) in RunGates(UNGUARDED, SAMPLE, daily).trail
  {
    SampleIsValid();
    SampleIsPermitted(daily);
    assert ValidateSignal(SAMPLE, 0.0) == Valid(Normalized(SAMPLE, 0.0));
    assert RunGates(UNGUARDED, SAMPLE, daily).ToBroker?;
    RefusalMarkedGrantedExactlyWhen(UNGUARDED, SAMPLE, daily);
  }
}
