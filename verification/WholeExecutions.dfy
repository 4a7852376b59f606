/** Whole executions inside a run: what their results and their audit entries say, and how many an agent can have. */
module WholeExecutions {
  import opened Common
  import opened Text
  import opened Validation
  import opened Gates
  import opened Pipeline

  // ---------------------------------------------------------------------------------------------
  // Every result and every trail is that of the gates

  /** Operation k of the run is the call that started execution i, with the counts in force just before it. */
  ghost predicate StartedBy(ops: seq<Op>, i: nat, k: nat) {
    && k < |ops| && ops[k].Execute? && KeyOf(ops[k].call).Some?
    && |Run(ops[..k]).table.execs| == i < |Run(ops).table.execs|
    && var e, call := Run(ops).table.execs[i], ops[k].call;
       e.key == KeyOf(call).value && e.verdict == GatesOf(Run(ops[..k]).counts, call.world, call.raw)
  }

  lemma {:induction false} EveryExecutionWasStarted(ops: seq<Op>, i: nat) returns (k: nat)
    requires i < |Run(ops).table.execs|
    ensures StartedBy(ops, i, k)
  {
    var n := |ops| - 1;
    var init := ops[..n];
    StepGrows(Run(init), ops[n]);
    if i < |Run(init).table.execs| {
      k := EveryExecutionWasStarted(init, i);
      assert init[..k] == ops[..k];
      assert Later(Run(init).table.execs[i], Run(ops).table.execs[i]);
    } else {
      k := n;
    }
  }

  /** The answer a resolved execution got from the broker, as far as its result tells. */
  function AnswerBehind(r: Result): BrokerAnswer { if r.success then Accepted else BrokerRejected }

  lemma ResolvedIsFinished(e: Exec)
    requires PhaseFits(e) && e.phase.Resolved?
    ensures !e.verdict.Threw? && Finish(e.verdict, AnswerBehind(e.phase.result)) == (e.phase.result, TrailSoFar(e))
  {
  }

  /**
   * In every run, resets included, and whatever else was going on: the result of a resolved execution
   * and the marks of exactly its own audit entries are those of the gates, run on its own signal and
   * world with the daily counts in force when it started.
   */
  lemma {:induction false} ResultAndTrailAreTheGates(ops: seq<Op>, i: nat) returns (k: nat, answer: BrokerAnswer)
    requires i < |Run(ops).table.execs| && Run(ops).table.execs[i].phase.Resolved?
    ensures StartedBy(ops, i, k) && !GatesOf(Run(ops[..k]).counts, ops[k].call.world, ops[k].call.raw).Threw?
    ensures Execution(ops[k].call.world, ops[k].call.raw, DailyOf(Run(ops[..k]).counts), answer)
         == (Run(ops).table.execs[i].phase.result, Marks(EntriesOf(Run(ops).audit.published, i)))
    ensures Run(ops).audit.idsOf[i] == Ids(EntriesOf(Run(ops).audit.published, i))
  {
    k := EveryExecutionWasStarted(ops, i);
    EveryRunFiled(ops);
    AuditIsFaithful(ops);
    assert PhaseFits(Run(ops).table.execs[i]);
    ResolvedIsFinished(Run(ops).table.execs[i]);
    answer := AnswerBehind(Run(ops).table.execs[i].phase.result);
  }

  /**
   * Gate soundness of whole executions. Its own entries run in stage order, approve everything before
   * the end, and refuse there if and only if it failed; it succeeded if and only if every gate passed,
   * and otherwise reports the first that did not.
   */
  lemma {:induction false} ResolvedExecutionsAreSound(ops: seq<Op>, i: nat) returns (k: nat, answer: BrokerAnswer)
    requires i < |Run(ops).table.execs| && Run(ops).table.execs[i].phase.Resolved?
    ensures HonestTrail(Marks(EntriesOf(Run(ops).audit.published, i)), Run(ops).table.execs[i].phase.result)
    ensures StartedBy(ops, i, k)
    ensures var r, call := Run(ops).table.execs[i].phase.result, ops[k].call;
            var failure := FirstFailure(Checks(call.world, call.raw, DailyOf(Run(ops[..k]).counts), answer));
            (r.success <==> failure.None?) && r.stage == failure.GetOr(Completed)
  {
    k, answer := ResultAndTrailAreTheGates(ops, i);
    TrailsAreHonest(ops[k].call.world, ops[k].call.raw, DailyOf(Run(ops[..k]).counts), answer);
    ReportsFirstFailure(ops[k].call.world, ops[k].call.raw, DailyOf(Run(ops[..k]).counts), answer);
  }

  /** A success in a run kept every limit that applied to its signal when it started. */
  lemma {:induction false} SuccessKeptTheLimits(ops: seq<Op>, i: nat) returns (k: nat)
    requires i < |Run(ops).table.execs| && Run(ops).table.execs[i].phase == Resolved(Result(true, Completed))
    ensures StartedBy(ops, i, k) && ValidateSignal(ops[k].call.raw, ops[k].call.world.now).Valid?
    ensures var w, counts := ops[k].call.world, Run(ops[..k]).counts;
            var s := ValidateSignal(ops[k].call.raw, w.now).signal;
            var p := w.permissionOf(s.agentId).GetOr(DEFAULT_PERMISSION);
            && (w.maxOrderValue.Some? && w.maxOrderValue.value > 0.0 ==> s.quantity * s.price <= w.maxOrderValue.value)
            && (p.maxOrderSize > 0.0 ==> s.quantity * s.price <= p.maxOrderSize)
            && (p.maxDailyOrders > 0 ==> Daily(counts, s.agentId) < p.maxDailyOrders)
            && (p.allowedSymbols != [] ==>
                  exists k :: 0 <= k < |p.allowedSymbols| && Upper(p.allowedSymbols[k]) == Upper(s.symbol))
            && (p.allowedStrategies != [] && s.strategy.Some? && s.strategy.value != "" ==>
                  s.strategy.value in p.allowedStrategies)
            && p.canTrade && p.canSubmitOrders && w.killSwitch.Quiet?
            && (w.requireRiskApproval ==> w.risk(s) == RiskDecided(true, true))
  {
    var answer;
    k, answer := ResultAndTrailAreTheGates(ops, i);
    SuccessIsWithinLimits(ops[k].call.world, ops[k].call.raw, DailyOf(Run(ops[..k]).counts), answer);
  }

  // ---------------------------------------------------------------------------------------------
  // The daily limit under overlap

  predicate WaitsFor(e: Exec, agent: string) {
    e.phase.AwaitingBroker? && e.verdict.ToBroker? && e.verdict.signal.agentId == agent
  }

  /** The agent's executions waiting for the broker. */
  function Waiting(execs: seq<Exec>, agent: string): set<nat> {
    set i | 0 <= i < |execs| && WaitsFor(execs[i], agent)
  }

  /** Successes of the day plus executions at the broker: what an answer can only move or lower. */
  function Exposure(p: Pipe, agent: string): nat { Daily(p.counts, agent) + |Waiting(p.table.execs, agent)| }

  /** At most n executions of the agent are ever at the broker together. */
  ghost predicate OverlapWithin(ops: seq<Op>, agent: string, n: nat) {
    forall k :: 0 <= k <= |ops| ==> |Waiting(Run(ops[..k]).table.execs, agent)| <= n
  }

  /** Every call meets the same daily maximum for the agent. */
  ghost predicate DailyMaximum(ops: seq<Op>, agent: string, max: int) {
    forall k :: 0 <= k < |ops| && ops[k].Execute? ==> MaximumIs(ops[k].call.world, agent, max)
  }

  predicate MaximumIs(w: World, agent: string, max: int) {
    w.permissionOf(agent).GetOr(DEFAULT_PERMISSION).maxDailyOrders == max
  }

  lemma OneMoreWaits(execs: seq<Exec>, e: Exec, agent: string)
    ensures |Waiting(execs + [e], agent)| == |Waiting(execs, agent)| + if WaitsFor(e, agent) then 1 else 0
  {
    var longer := execs + [e];
    assert forall i :: 0 <= i < |execs| ==> longer[i] == execs[i];
    assert Waiting(longer, agent) == Waiting(execs, agent) + if WaitsFor(e, agent) then {|execs|} else {};
  }

  lemma OneChanges(execs: seq<Exec>, i: nat, e: Exec, agent: string)
    requires i < |execs| && !WaitsFor(e, agent)
    ensures |Waiting(execs[i := e], agent)| == |Waiting(execs, agent)| - if WaitsFor(execs[i], agent) then 1 else 0
  {
    assert Waiting(execs[i := e], agent) == Waiting(execs, agent) - {i};
    if WaitsFor(execs[i], agent) {
      assert i in Waiting(execs, agent);
    } else {
      assert Waiting(execs, agent) - {i} == Waiting(execs, agent);
    }
  }

  /** Beginning an execution raises the exposure by at most one, and only while the count is below the maximum. */
  lemma BeginExposure(p: Pipe, call: Call, agent: string, max: int)
    requires Aligned(p) && IdentityOf(call).Some? && MaximumIs(call.world, agent, max) && max > 0
    ensures var p' := Begin(p, call);
            Exposure(p', agent) <= Exposure(p, agent)
            || (Daily(p'.counts, agent) == Daily(p.counts, agent) < max)
  {
    var v := GatesOf(p.counts, call.world, call.raw);
    OneMoreWaits(p.table.execs, Exec(IdentityOf(call).value.0, KeyOf(call).value, v, PhaseAfter(v), false), agent);
    if v.ToBroker? { PassedPermission(call.world, call.raw, DailyOf(p.counts)); }
  }

  lemma PassedPermission(w: World, raw: RawSignal, daily: string -> nat)
    requires RunGates(w, raw, daily).ToBroker?
    ensures var s := RunGates(w, raw, daily).signal; PermissionPasses(w, s, daily(s.agentId))
  {
  }

  lemma AnswerExposure(p: Pipe, exec: nat, answer: BrokerAnswer, agent: string)
    requires Aligned(p) && Filed(p.table) && Awaits(p.table, exec)
    ensures Exposure(Apply(p, BrokerAnswers(exec, answer)), agent) <= Exposure(p, agent)
  {
    var e := p.table.execs[exec];
    assert PhaseFits(e);
    OneChanges(p.table.execs, exec, e.(phase := Resolved(Conclude(answer))), agent);
  }

  lemma StepExposure(p: Pipe, op: Op, agent: string, max: int)
    requires Aligned(p) && Filed(p.table) && max > 0 && (op.Execute? ==> MaximumIs(op.call.world, agent, max))
    ensures var p' := Apply(p, op);
            Exposure(p', agent) <= Exposure(p, agent)
            || (Daily(p'.counts, agent) == Daily(p.counts, agent) < max)
  {
    match op
    case Execute(call) => if KeyOf(call).Some? { BeginExposure(p, call, agent, max); }
    case BrokerAnswers(exec, answer) => if Awaits(p.table, exec) { AnswerExposure(p, exec, answer, agent); }
    case FollowUp(exec) =>
      if CanFollowUp(p.table, exec) {
        OneChanges(p.table.execs, exec, p.table.execs[exec].(followedUp := true), agent);
      }
    case ResetDailyCounts =>
  }

  /**
   * The count is checked when an execution starts and raised when the broker accepts. In every run an
   * agent's successes of the day plus its executions at the broker stay within max - 1 + n, where n
   * bounds the overlap; so without overlap the daily maximum itself is kept.
   */
  lemma {:induction false} DailyLimitUnderOverlap(ops: seq<Op>, agent: string, max: int, n: nat)
    requires max > 0 && n >= 1 && DailyMaximum(ops, agent, max) && OverlapWithin(ops, agent, n)
    ensures Exposure(Run(ops), agent) <= max - 1 + n
  {
    if ops != [] {
      var init := ops[..|ops| - 1];
      forall k | 0 <= k <= |init|
        ensures |Waiting(Run(init[..k]).table.execs, agent)| <= n
      {
        assert init[..k] == ops[..k];
      }
      DailyLimitUnderOverlap(init, agent, max, n);
      EveryRunFiled(init);
      StepExposure(Run(init), ops[|ops| - 1], agent, max);
      assert ops[..|ops|] == ops;
    }
  }
}
