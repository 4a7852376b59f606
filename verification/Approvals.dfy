/** Approving proposals by hand, beside the pipeline that executes them. */
module Approvals {
  import opened Common
  import opened Text
  import opened Validation
  import opened Gates
  import opened Pipeline
  import AtMostOnce

  datatype Status = Pending | Approved | Rejected | Expired | Failed

  datatype Order = Order(symbol: string, side: string, quantity: real, price: real, confidence: Option<real>,
                         strategy: Option<string>, planId: Option<string>)

  datatype Proposal = Proposal(createdAt: nat, serial: nat, order: Order, expiresAt: int, status: Status,
                               decidedAt: Option<int>, result: Option<Result>)

  /**
   * What a call of approve waits for: the promise of a pipeline, with the call it will make of it; or
   * the result of an execution. Delivered is a promise that turned out to hold the result itself.
   */
  datatype Wait = ForFactory(call: Call) | ForResult(handle: Handle) | Delivered(result: Result)

  /** A call of approve that is waiting; open until it resumes. */
  datatype Claim = Claim(id: string, wait: Wait, madeAt: int, open: bool)

  datatype Desk = Desk(proposals: map<string, Proposal>, nextId: nat, claims: seq<Claim>)

  datatype Sys = Sys(desk: Desk, pipe: Pipe)

  const START := Sys(Desk(map[], 0, []), EMPTY)

  /** The pipeline factory and what it does when called. */
  datatype Factory = Missing | Throws | GivesNothing | GivesPipeline | GivesPromise

  /** What the promise of a factory delivers in the end. */
  datatype Delivery = APipeline(world: World) | AValue(value: Result) | NoValue | ARejection

  /** One call of approve: who, the clock at its two readings, what the pipeline would generate, and the world it meets. */
  datatype Attempt = Attempt(agentId: Option<string>, sweptAt: nat, checkedAt: nat, uuid: string, fallbackId: string,
                             world: World, factory: Factory)

  datatype Step =
    | Propose(order: Order, ttl: int, now: nat)
    | Sweep(now: nat)
    | Approve(id: string, attempt: Attempt)
    | FactoryDelivers(claim: nat, delivery: Delivery, now: nat)
    | Resume(claim: nat, now: nat)
    | Reject(id: string, now: nat)
    | InPipeline(op: Op)

  datatype Refusal = NotFound | HasExpired | NotPending | TooLate | NoPipeline | FactoryThrew

  // ---------------------------------------------------------------------------------------------
  // Steps

  function ProposalId(createdAt: nat, serial: nat): string { "prop-" + Decimal(createdAt) + "-" + Decimal(serial) }

  function SweptOne(p: Proposal, now: nat): Proposal {
    if p.status.Pending? && p.expiresAt <= now then p.(status := Expired, decidedAt := Some(now)) else p
  }

  function Swept(proposals: map<string, Proposal>, now: nat): map<string, Proposal> {
    map id | id in proposals :: SweptOne(proposals[id], now)
  }

  /** Why an approval does not go ahead, once the expired have been swept. */
  function RefusalOf(proposals: map<string, Proposal>, id: string, a: Attempt): Option<Refusal> {
    if id !in proposals then Some(NotFound)
    else if proposals[id].status.Expired? then Some(HasExpired)
    else if !proposals[id].status.Pending? then Some(NotPending)
    else if a.checkedAt > proposals[id].expiresAt then Some(TooLate)
    else
      match a.factory
      case Missing => Some(NoPipeline)
      case GivesNothing => Some(NoPipeline)
      case Throws => Some(FactoryThrew)
      case _ => None
  }

  function AfterRefusal(proposals: map<string, Proposal>, id: string, a: Attempt, why: Refusal): map<string, Proposal> {
    if id !in proposals then proposals
    else
      match why
      case TooLate => proposals[id := proposals[id].(status := Expired, decidedAt := Some(a.checkedAt))]
      case FactoryThrew => proposals[id := Resumed(proposals[id], None, a.checkedAt)]
      case _ => proposals
  }

  function Resumed(p: Proposal, outcome: Option<Result>, now: nat): Proposal {
    match outcome
    case Some(r) => p.(status := Approved, decidedAt := Some(now), result := Some(r))
    case None => p.(status := Failed, decidedAt := Some(now))
  }

  function SignalFor(id: string, o: Order, a: Attempt): RawSignal {
    Fields(Str(id), Str(o.symbol), Str(o.side), Num(o.quantity), Num(o.price), Str("market"),
           Str(o.strategy.GetOr("approval")), Str(a.agentId.GetOr("approvals")), Str(o.planId.GetOr(id)),
           Num(o.confidence.GetOr(0.7)), Num(a.checkedAt as real), Undefined)
  }

  function CallFor(id: string, o: Order, a: Attempt): (c: Call)
    ensures KeyOf(c).Some?
  {
    Call(a.world, SignalFor(id, o, a), a.uuid, a.fallbackId)
  }

  /** What a resumed approval finds: None when the execution was rejected by an exception. */
  function OutcomeOf(t: Table, h: Handle): Option<Result> {
    match h
    case Remembered(r) => Some(r)
    case Promised(exec) =>
      if exec < |t.execs| && t.execs[exec].phase.Resolved? then Some(t.execs[exec].phase.result) else None
  }

  /** The outcome an approval has found or would find now. */
  function OutcomeOfWait(t: Table, w: Wait): Option<Result> {
    match w
    case ForFactory(_) => None
    case ForResult(h) => OutcomeOf(t, h)
    case Delivered(r) => Some(r)
  }

  predicate IsOpen(s: Sys, claim: nat) {
    claim < |s.desk.claims| && s.desk.claims[claim].open && s.desk.claims[claim].id in s.desk.proposals
  }

  predicate CanResume(s: Sys, claim: nat) {
    && IsOpen(s, claim) && s.desk.claims[claim].wait.ForResult?
    && (s.desk.claims[claim].wait.handle.Promised? ==> !Awaits(s.pipe.table, s.desk.claims[claim].wait.handle.exec))
  }

  predicate AwaitsFactory(s: Sys, claim: nat) { IsOpen(s, claim) && s.desk.claims[claim].wait.ForFactory? }

  function HandleOf(p: Pipe, call: Call): Handle
    requires KeyOf(call).Some?
  {
    HandleFor(p, KeyOf(call).value)
  }

  function Claimed(s: Sys, id: string, a: Attempt): Sys
    requires Aligned(s.pipe) && id in s.desk.proposals
  {
    var call := CallFor(id, s.desk.proposals[id].order, a);
    if a.factory.GivesPromise? then
      s.(desk := s.desk.(claims := s.desk.claims + [Claim(id, ForFactory(call), a.checkedAt, true)]))
    else
      Sys(s.desk.(claims := s.desk.claims + [Claim(id, ForResult(HandleOf(s.pipe, call)), a.checkedAt, true)]),
          Pipeline.Apply(s.pipe, Op.Execute(call)))
  }

  /** A claim ends, with an outcome for its proposal or without touching it. */
  function Closed(d: Desk, claim: nat, wait: Wait, decided: Option<Proposal>): Desk
    requires claim < |d.claims|
  {
    var c := d.claims[claim];
    d.(claims := d.claims[claim := c.(wait := wait, open := false)],
       proposals := if decided.Some? then d.proposals[c.id := decided.value] else d.proposals)
  }

  function FactoryAnswered(s: Sys, claim: nat, delivery: Delivery, now: nat): Sys
    requires Aligned(s.pipe) && AwaitsFactory(s, claim)
  {
    var c := s.desk.claims[claim];
    var p := s.desk.proposals[c.id];
    match delivery
    case APipeline(w) =>
      var call := c.wait.call.(world := w);
      if KeyOf(call).None? then s
      else
        Sys(s.desk.(claims := s.desk.claims[claim := c.(wait := ForResult(HandleOf(s.pipe, call)))]),
            Pipeline.Apply(s.pipe, Op.Execute(call)))
    case AValue(r) => s.(desk := Closed(s.desk, claim, Delivered(r), Some(Resumed(p, Some(r), now))))
    case NoValue => s.(desk := Closed(s.desk, claim, c.wait, None))
    case ARejection => s.(desk := Closed(s.desk, claim, c.wait, Some(Resumed(p, None, now))))
  }

  function ExecutionDone(s: Sys, claim: nat, now: nat): Sys
    requires CanResume(s, claim)
  {
    var c := s.desk.claims[claim];
    var p := Resumed(s.desk.proposals[c.id], OutcomeOf(s.pipe.table, c.wait.handle), now);
    s.(desk := Closed(s.desk, claim, c.wait, Some(p)))
  }

  function SweptSys(s: Sys, now: nat): Sys { s.(desk := s.desk.(proposals := Swept(s.desk.proposals, now))) }

  function Attempted(s: Sys, id: string, a: Attempt): Sys
    requires Aligned(s.pipe)
  {
    var swept := SweptSys(s, a.sweptAt);
    match RefusalOf(swept.desk.proposals, id, a)
    case Some(why) => swept.(desk := swept.desk.(proposals := AfterRefusal(swept.desk.proposals, id, a, why)))
    case None => Claimed(swept, id, a)
  }

  function Proposed(d: Desk, o: Order, ttl: int, now: nat): Desk {
    var p := Proposal(now, d.nextId + 1, o, now + ttl, Pending, None, None);
    d.(proposals := d.proposals[ProposalId(now, d.nextId + 1) := p], nextId := d.nextId + 1)
  }

  function Turned(d: Desk, id: string, now: nat): Desk {
    if id in d.proposals && d.proposals[id].status.Pending?
    then d.(proposals := d.proposals[id := d.proposals[id].(status := Rejected, decidedAt := Some(now))]) else d
  }

  function Advance(s: Sys, step: Step): (r: Sys)
    requires Aligned(s.pipe)
    ensures Aligned(r.pipe)
  {
    match step
    case Propose(o, ttl, now) => s.(desk := Proposed(s.desk, o, ttl, now))
    case Sweep(now) => SweptSys(s, now)
    case Approve(id, a) => Attempted(s, id, a)
    case FactoryDelivers(claim, delivery, now) =>
      if AwaitsFactory(s, claim) then FactoryAnswered(s, claim, delivery, now) else s
    case Resume(claim, now) => if CanResume(s, claim) then ExecutionDone(s, claim, now) else s
    case Reject(id, now) => var swept := SweptSys(s, now); swept.(desk := Turned(swept.desk, id, now))
    case InPipeline(op) => s.(pipe := Pipeline.Apply(s.pipe, op))
  }

  function Run(steps: seq<Step>): (s: Sys)
    ensures Aligned(s.pipe)
  {
    if |steps| == 0 then START else Advance(Run(steps[..|steps| - 1]), steps[|steps| - 1])
  }

  lemma RunSnoc(steps: seq<Step>, step: Step)
    ensures Run(steps + [step]) == Advance(Run(steps), step)
  {
    assert (steps + [step])[..|steps|] == steps;
  }

  ghost predicate NoReset(steps: seq<Step>) {
    forall k :: 0 <= k < |steps| ==> !(steps[k].InPipeline? && steps[k].op.ResetDailyCounts?)
  }

  // ---------------------------------------------------------------------------------------------
  // Identifiers

  lemma TailHasDash(a: string, b: string, a': string, b': string)
    requires a + "-" + b == a' + "-" + b' && |b| < |b'|
    ensures '-' in b'
  {
    var s := a + "-" + b;
    assert s[|a|] == '-' && s[|a|] == b'[|a| - |a'| - 1];
  }

  lemma SameTail(a: string, b: string, a': string, b': string)
    requires a + "-" + b == a' + "-" + b' && '-' !in b && '-' !in b'
    ensures b == b'
  {
    if |b| < |b'| {
      TailHasDash(a, b, a', b');
    } else if |b'| < |b| {
      TailHasDash(a', b', a, b);
    } else {
      var s := a + "-" + b;
      assert b == s[|a| + 1..] && b' == s[|a'| + 1..];
    }
  }

  /** No two proposals of one service get the same id, whatever the clock says. */
  lemma IdsDiffer(createdAt: nat, serial: nat, createdAt': nat, serial': nat)
    requires ProposalId(createdAt, serial) == ProposalId(createdAt', serial')
    ensures serial == serial'
  {
    SameTail("prop-" + Decimal(createdAt), Decimal(serial), "prop-" + Decimal(createdAt'), Decimal(serial'));
    if serial != serial' { PrintedNumbersDiffer(serial, serial'); }
  }

  lemma IdIsTrimmed(createdAt: nat, serial: nat)
    ensures var id := ProposalId(createdAt, serial); Trim(id) == id != ""
  {
    var id := ProposalId(createdAt, serial);
    assert id[0] == 'p' && id[|id| - 1] == Decimal(serial)[|Decimal(serial)| - 1];
  }

  // ---------------------------------------------------------------------------------------------
  // One execution per proposal

  /** The plan of a proposal gives every approval of it the same correlation: it has none, or a non-blank one. */
  predicate Steady(o: Order) { o.planId.Some? ==> Trim(o.planId.value) != "" }

  function SteadyKey(id: string, o: Order): string { Joined(Trim(o.planId.GetOr(id)), id) }

  ghost predicate Named(d: Desk) {
    forall id :: id in d.proposals ==>
      id == ProposalId(d.proposals[id].createdAt, d.proposals[id].serial) && d.proposals[id].serial <= d.nextId
  }

  /** The execution a wait is for, or will be for, runs under the key of its proposal. */
  predicate WaitHolds(t: Table, id: string, o: Order, w: Wait) {
    match w
    case ForFactory(call) => KeyOf(call).Some? && (Steady(o) ==> KeyOf(call).value == SteadyKey(id, o))
    case ForResult(Promised(exec)) => exec < |t.execs| && (Steady(o) ==> t.execs[exec].key == SteadyKey(id, o))
    case _ => true
  }

  predicate ClaimHolds(d: Desk, t: Table, c: Claim) {
    c.id in d.proposals && WaitHolds(t, c.id, d.proposals[c.id].order, c.wait)
  }

  ghost predicate ClaimsHold(d: Desk, t: Table) { forall k :: 0 <= k < |d.claims| ==> ClaimHolds(d, t, d.claims[k]) }

  ghost predicate Sound(s: Sys) {
    Aligned(s.pipe) && Filed(s.pipe.table) && Named(s.desk) && ClaimsHold(s.desk, s.pipe.table)
  }

  lemma KeyIsSteady(id: string, o: Order, a: Attempt)
    requires Trim(id) == id != "" && Steady(o)
    ensures KeyOf(CallFor(id, o, a)) == Some(SteadyKey(id, o))
  {
  }

  lemma CallHolds(d: Desk, t: Table, id: string, a: Attempt)
    requires Named(d) && id in d.proposals
    ensures WaitHolds(t, id, d.proposals[id].order, ForFactory(CallFor(id, d.proposals[id].order, a)))
  {
    var p := d.proposals[id];
    IdIsTrimmed(p.createdAt, p.serial);
    if Steady(p.order) { KeyIsSteady(id, p.order, a); }
  }

  /** Executing the call a wait is for leads to a handle under the same key, in whatever world. */
  lemma ExecutionHolds(p: Pipe, id: string, o: Order, call: Call, w: World)
    requires Aligned(p) && Filed(p.table) && WaitHolds(p.table, id, o, ForFactory(call))
    ensures KeyOf(call.(world := w)) == KeyOf(call)
    ensures WaitHolds(Pipeline.Apply(p, Op.Execute(call.(world := w))).table, id, o,
                      ForResult(HandleOf(p, call.(world := w))))
  {
    assert FiledUnder(p.table, KeyOf(call).value);
  }

  lemma WaitSurvives(t: Table, t': Table, id: string, o: Order, w: Wait)
    requires Grown(t, t') && WaitHolds(t, id, o, w)
    ensures WaitHolds(t', id, o, w)
  {
    if w.ForResult? && w.handle.Promised? { assert Later(t.execs[w.handle.exec], t'.execs[w.handle.exec]); }
  }

  lemma PipelineKeepsSound(s: Sys, op: Op)
    requires Sound(s)
    ensures Sound(s.(pipe := Pipeline.Apply(s.pipe, op)))
  {
    StepKeepsFiled(s.pipe, op);
    Pipeline.StepGrows(s.pipe, op);
    forall k | 0 <= k < |s.desk.claims|
      ensures ClaimHolds(s.desk, Pipeline.Apply(s.pipe, op).table, s.desk.claims[k])
    {
      var c := s.desk.claims[k];
      assert ClaimHolds(s.desk, s.pipe.table, c);
      WaitSurvives(s.pipe.table, Pipeline.Apply(s.pipe, op).table, c.id, s.desk.proposals[c.id].order, c.wait);
    }
  }

  lemma ClaimKeepsSound(s: Sys, id: string, a: Attempt)
    requires Sound(s) && id in s.desk.proposals
    ensures Sound(Claimed(s, id, a))
  {
    var o := s.desk.proposals[id].order;
    var call := CallFor(id, o, a);
    CallHolds(s.desk, s.pipe.table, id, a);
    if !a.factory.GivesPromise? {
      PipelineKeepsSound(s, Op.Execute(call));
      ExecutionHolds(s.pipe, id, o, call, call.world);
      assert call.(world := call.world) == call;
    }
  }

  lemma FactoryKeepsSound(s: Sys, claim: nat, w: World, now: nat)
    requires Sound(s) && AwaitsFactory(s, claim)
    ensures Sound(FactoryAnswered(s, claim, APipeline(w), now))
  {
    var c := s.desk.claims[claim];
    assert ClaimHolds(s.desk, s.pipe.table, c);
    ExecutionHolds(s.pipe, c.id, s.desk.proposals[c.id].order, c.wait.call, w);
    PipelineKeepsSound(s, Op.Execute(c.wait.call.(world := w)));
  }

  lemma NewId(d: Desk, now: nat)
    requires Named(d)
    ensures ProposalId(now, d.nextId + 1) !in d.proposals
  {
    var newId := ProposalId(now, d.nextId + 1);
    if newId in d.proposals {
      IdsDiffer(now, d.nextId + 1, d.proposals[newId].createdAt, d.proposals[newId].serial);
    }
  }

  lemma ProposeKeepsNamed(d: Desk, t: Table, o: Order, ttl: int, now: nat)
    requires Named(d) && ClaimsHold(d, t)
    ensures Named(Proposed(d, o, ttl, now)) && ClaimsHold(Proposed(d, o, ttl, now), t)
  {
    NewId(d, now);
    forall k | 0 <= k < |d.claims|
      ensures ClaimHolds(Proposed(d, o, ttl, now), t, d.claims[k])
    {
      assert ClaimHolds(d, t, d.claims[k]);
    }
  }

  /** Same proposals but for their decisions, same claims but for being open. */
  ghost predicate OnlyDecisions(d: Desk, d': Desk) {
    && d'.nextId == d.nextId && d'.proposals.Keys == d.proposals.Keys && |d'.claims| == |d.claims|
    && (forall id :: id in d.proposals ==> OnlyDecision(d.proposals[id], d'.proposals[id]))
    && (forall k :: 0 <= k < |d.claims| ==> SameClaim(d.claims[k], d'.claims[k]))
  }

  ghost predicate SameClaim(c: Claim, c': Claim) {
    c'.id == c.id && c'.madeAt == c.madeAt && (c'.wait == c.wait || c'.wait.Delivered?)
  }

  predicate OnlyDecision(p: Proposal, p': Proposal) {
    p'.createdAt == p.createdAt && p'.serial == p.serial && p'.order == p.order && p'.expiresAt == p.expiresAt
  }

  lemma DecisionsKeepSound(s: Sys, d': Desk)
    requires Sound(s) && OnlyDecisions(s.desk, d')
    ensures Sound(s.(desk := d'))
  {
    forall id | id in d'.proposals
      ensures id == ProposalId(d'.proposals[id].createdAt, d'.proposals[id].serial) && d'.proposals[id].serial <= d'.nextId
    {
      assert OnlyDecision(s.desk.proposals[id], d'.proposals[id]);
    }
    forall k | 0 <= k < |d'.claims|
      ensures ClaimHolds(d', s.pipe.table, d'.claims[k])
    {
      assert ClaimHolds(s.desk, s.pipe.table, s.desk.claims[k]);
      assert SameClaim(s.desk.claims[k], d'.claims[k]);
      assert OnlyDecision(s.desk.proposals[d'.claims[k].id], d'.proposals[d'.claims[k].id]);
    }
  }

  /** Steps that neither propose, nor claim, nor reach the pipeline. */
  predicate Decides(step: Step) {
    step.Sweep? || step.Resume? || step.Reject? || (step.FactoryDelivers? && !step.delivery.APipeline?)
  }

  lemma SweepOnlyDecides(s: Sys, now: nat)
    ensures OnlyDecisions(s.desk, SweptSys(s, now).desk)
  {
  }

  lemma OnlyDecides(s: Sys, step: Step)
    requires Aligned(s.pipe) && Decides(step)
    ensures Advance(s, step).pipe == s.pipe && OnlyDecisions(s.desk, Advance(s, step).desk)
  {
    if step.Sweep? || step.Reject? { SweepOnlyDecides(s, step.now); }
  }

  lemma StepKeepsSound(s: Sys, step: Step)
    requires Sound(s)
    ensures Sound(Advance(s, step))
  {
    match step
    case Propose(o, ttl, now) => ProposeKeepsNamed(s.desk, s.pipe.table, o, ttl, now);
    case Approve(id, a) => AttemptKeepsSound(s, id, a);
    case InPipeline(op) => PipelineKeepsSound(s, op);
    case FactoryDelivers(claim, APipeline(w), now) => if AwaitsFactory(s, claim) { FactoryKeepsSound(s, claim, w, now); }
    case _ =>
      OnlyDecides(s, step);
      DecisionsKeepSound(s, Advance(s, step).desk);
  }

  lemma AttemptKeepsSound(s: Sys, id: string, a: Attempt)
    requires Sound(s)
    ensures Sound(Attempted(s, id, a))
  {
    var swept := SweptSys(s, a.sweptAt);
    SweepOnlyDecides(s, a.sweptAt);
    DecisionsKeepSound(s, swept.desk);
    if RefusalOf(swept.desk.proposals, id, a).None? {
      ClaimKeepsSound(swept, id, a);
    } else {
      DecisionsKeepSound(swept, Attempted(s, id, a).desk);
    }
  }

  lemma {:induction false} EveryRunSound(steps: seq<Step>)
    ensures Sound(Run(steps))
  {
    if |steps| > 0 {
      EveryRunSound(steps[..|steps| - 1]);
      StepKeepsSound(Run(steps[..|steps| - 1]), steps[|steps| - 1]);
    }
  }

  lemma StepKeepsPeriod(s: Sys, step: Step, from: nat, key: string)
    requires Sound(s) && AtMostOnce.Period(s.pipe.table, from, key) && !(step.InPipeline? && step.op.ResetDailyCounts?)
    ensures AtMostOnce.Period(Advance(s, step).pipe.table, from, key)
  {
    match step
    case Approve(id, a) =>
      var swept := SweptSys(s, a.sweptAt);
      if RefusalOf(swept.desk.proposals, id, a).None? && !a.factory.GivesPromise? {
        AtMostOnce.StepKeepsPeriod(s.pipe, Op.Execute(CallFor(id, swept.desk.proposals[id].order, a)), from, key);
      }
    case FactoryDelivers(claim, APipeline(w), _) =>
      if AwaitsFactory(s, claim) {
        AtMostOnce.StepKeepsPeriod(s.pipe, Op.Execute(s.desk.claims[claim].wait.call.(world := w)), from, key);
      }
    case InPipeline(op) => AtMostOnce.StepKeepsPeriod(s.pipe, op, from, key);
    case _ =>
  }

  lemma {:induction false} PeriodHolds(before: seq<Step>, after: seq<Step>, key: string)
    requires NoReset(after)
    requires AtMostOnce.Quiet(Run(before).pipe.table, |Run(before).pipe.table.execs|, key)
    ensures AtMostOnce.Period(Run(before + after).pipe.table, |Run(before).pipe.table.execs|, key)
  {
    if |after| == 0 {
      assert before + after == before;
    } else {
      var init, last := after[..|after| - 1], after[|after| - 1];
      PeriodHolds(before, init, key);
      EveryRunSound(before + init);
      StepKeepsPeriod(Run(before + init), last, |Run(before).pipe.table.execs|, key);
      RunSnoc(before + init, last);
      assert (before + init) + [last] == before + after;
    }
  }

  /** The claim waits, or waited, for this execution. */
  ghost predicate IsFor(s: Sys, claim: nat, id: string, exec: nat) {
    claim < |s.desk.claims| && s.desk.claims[claim].id == id && s.desk.claims[claim].wait == ForResult(Promised(exec))
  }

  lemma SameProposalSameKey(s: Sys, i: nat, j: nat, id: string, e: nat, f: nat)
    requires Sound(s) && IsFor(s, i, id, e) && IsFor(s, j, id, f)
    requires id in s.desk.proposals && Steady(s.desk.proposals[id].order)
    ensures e < |s.pipe.table.execs| && s.pipe.table.execs[e].key == SteadyKey(id, s.desk.proposals[id].order)
    ensures f < |s.pipe.table.execs| && s.pipe.table.execs[f].key == SteadyKey(id, s.desk.proposals[id].order)
  {
    assert ClaimHolds(s.desk, s.pipe.table, s.desk.claims[i]) && ClaimHolds(s.desk, s.pipe.table, s.desk.claims[j]);
  }

  /**
   * One execution per proposal, between resets. Cut any run anywhere; after the cut let proposals,
   * approvals by anyone, factories, rejections, sweeps, broker answers and foreign executions interleave
   * in any way without a reset. Two approvals of a proposal whose plan is absent or not blank, whose
   * executions started after the cut, never reach the broker through different executions, nor start
   * different ones if none throws, provided none older under the proposal's key has thrown with its
   * follow-up still due.
   */
  lemma {:induction false} OneExecutionPerProposal(before: seq<Step>, after: seq<Step>, i: nat, j: nat, id: string, e: nat,
                                                   f: nat)
    requires NoReset(after) && IsFor(Run(before + after), i, id, e) && IsFor(Run(before + after), j, id, f)
    requires id in Run(before + after).desk.proposals && Steady(Run(before + after).desk.proposals[id].order)
    requires |Run(before).pipe.table.execs| <= e && |Run(before).pipe.table.execs| <= f
    requires AtMostOnce.Quiet(Run(before).pipe.table, |Run(before).pipe.table.execs|,
                              SteadyKey(id, Run(before + after).desk.proposals[id].order))
    ensures var execs := Run(before + after).pipe.table.execs;
            && e < |execs| && f < |execs| && execs[e].key == execs[f].key
            && (execs[e].verdict.ToBroker? && execs[f].verdict.ToBroker? ==> e == f)
            && (!execs[e].verdict.Threw? && !execs[f].verdict.Threw? ==> e == f)
  {
    var s, from := Run(before + after), |Run(before).pipe.table.execs|;
    var key := SteadyKey(id, s.desk.proposals[id].order);
    EveryRunSound(before + after);
    SameProposalSameKey(s, i, j, id, e, f);
    PeriodHolds(before, after, key);
    SpentOrSame(s.pipe.table, from, key, e, f);
  }

  lemma SpentOrSame(t: Table, from: nat, key: string, e: nat, f: nat)
    requires AtMostOnce.Period(t, from, key) && from <= e && from <= f
    requires AtMostOnce.HasKey(t, e, key) && AtMostOnce.HasKey(t, f, key)
    ensures e == f || AtMostOnce.Spent(t, e) || AtMostOnce.Spent(t, f)
  {
  }

  // ---------------------------------------------------------------------------------------------
  // Approvals made after a reset

  ghost predicate EndsWithReset(steps: seq<Step>) {
    |steps| > 0 && steps[|steps| - 1].InPipeline? && steps[|steps| - 1].op.ResetDailyCounts?
  }

  /** Nothing in flight is older than the period, and so no claim made in it is for anything older. */
  ghost predicate AllNew(s: Sys, claims: nat, execs: nat) {
    && execs <= |s.pipe.table.execs|
    && (forall key :: key in s.pipe.table.inflight ==> s.pipe.table.inflight[key] >= execs)
    && forall k :: claims <= k < |s.desk.claims| ==> NewClaim(s.desk.claims[k], execs)
  }

  predicate NewClaim(c: Claim, execs: nat) {
    c.wait.ForResult? && c.wait.handle.Promised? ==> c.wait.handle.exec >= execs
  }

  lemma StepKeepsAllNew(s: Sys, step: Step, claims: nat, execs: nat)
    requires Aligned(s.pipe) && AllNew(s, claims, execs) && !(step.InPipeline? && step.op.ResetDailyCounts?)
    ensures AllNew(Advance(s, step), claims, execs)
  {
    var s' := Advance(s, step);
    forall k | claims <= k < |s'.desk.claims|
      ensures NewClaim(s'.desk.claims[k], execs)
    {
      if k < |s.desk.claims| { assert NewClaim(s.desk.claims[k], execs); }
    }
  }

  lemma ResetMakesAllNew(before: seq<Step>)
    requires EndsWithReset(before)
    ensures var s := Run(before); AllNew(s, |s.desk.claims|, |s.pipe.table.execs|)
  {
    assert Run(before).pipe.table.inflight == map[];
  }

  lemma {:induction false} AllNewAfterReset(before: seq<Step>, after: seq<Step>)
    requires EndsWithReset(before) && NoReset(after)
    ensures AllNew(Run(before + after), |Run(before).desk.claims|, |Run(before).pipe.table.execs|)
  {
    if |after| == 0 {
      assert before + after == before;
      ResetMakesAllNew(before);
    } else {
      var init, last := after[..|after| - 1], after[|after| - 1];
      AllNewAfterReset(before, init);
      StepKeepsAllNew(Run(before + init), last, |Run(before).desk.claims|, |Run(before).pipe.table.execs|);
      RunSnoc(before + init, last);
      assert (before + init) + [last] == before + after;
    }
  }

  /** So, from one reset to the next, the approvals of a steady proposal made in between share one execution. */
  lemma {:induction false} OneExecutionBetweenResets(before: seq<Step>, after: seq<Step>, i: nat, j: nat, id: string, e: nat,
                                                     f: nat)
    requires EndsWithReset(before) && NoReset(after)
    requires |Run(before).desk.claims| <= i && |Run(before).desk.claims| <= j
    requires IsFor(Run(before + after), i, id, e) && IsFor(Run(before + after), j, id, f)
    requires id in Run(before + after).desk.proposals && Steady(Run(before + after).desk.proposals[id].order)
    requires AtMostOnce.Quiet(Run(before).pipe.table, |Run(before).pipe.table.execs|,
                              SteadyKey(id, Run(before + after).desk.proposals[id].order))
    ensures var execs := Run(before + after).pipe.table.execs;
            && e < |execs| && f < |execs|
            && (execs[e].verdict.ToBroker? && execs[f].verdict.ToBroker? ==> e == f)
            && (!execs[e].verdict.Threw? && !execs[f].verdict.Threw? ==> e == f)
  {
    AllNewAfterReset(before, after);
    assert NewClaim(Run(before + after).desk.claims[i], |Run(before).pipe.table.execs|);
    assert NewClaim(Run(before + after).desk.claims[j], |Run(before).pipe.table.execs|);
    OneExecutionPerProposal(before, after, i, j, id, e, f);
  }

  predicate FreshKey(s: Sys, id: string, a: Attempt)
    requires id in s.desk.proposals
  {
    !Known(s.pipe.table, KeyOf(CallFor(id, s.desk.proposals[id].order, a)).value)
  }

  predicate Approvable(s: Sys, id: string, a: Attempt) {
    id in s.desk.proposals && s.desk.proposals[id].status.Pending? && a.sweptAt < s.desk.proposals[id].expiresAt
    && a.checkedAt <= s.desk.proposals[id].expiresAt && a.factory.GivesPipeline?
  }

  lemma BlankKey(id: string, o: Order, a: Attempt)
    requires Trim(id) == id != "" && !Steady(o)
    ensures KeyOf(CallFor(id, o, a)) == Some(Joined(a.uuid, id))
  {
  }

  lemma JoinedSplits(a: string, id: string)
    ensures Joined(a, id)[..|Joined(a, id)| - |id| - 1] == a
  {
  }

  lemma JoinedDiffer(a: string, b: string, id: string)
    requires a != b
    ensures Joined(a, id) != Joined(b, id)
  {
    JoinedSplits(a, id);
    JoinedSplits(b, id);
  }

  lemma ApprovalGoesAhead(s: Sys, id: string, a: Attempt)
    requires Aligned(s.pipe) && Approvable(s, id, a)
    ensures Advance(s, Approve(id, a)) == Claimed(SweptSys(s, a.sweptAt), id, a)
    ensures id in SweptSys(s, a.sweptAt).desk.proposals
            && SweptSys(s, a.sweptAt).desk.proposals[id] == s.desk.proposals[id]
  {
  }

  lemma ApprovalBegins(s: Sys, id: string, a: Attempt)
    requires Aligned(s.pipe) && Approvable(s, id, a) && FreshKey(s, id, a)
    ensures var s', call := Advance(s, Approve(id, a)), CallFor(id, s.desk.proposals[id].order, a);
            && s'.pipe == Begin(s.pipe, call)
            && id in s'.desk.proposals && s'.desk.proposals[id] == s.desk.proposals[id]
  {
    ApprovalGoesAhead(s, id, a);
  }

  lemma FreshAfterAnother(s: Sys, id: string, a: Attempt, b: Attempt)
    requires Sound(s) && a.uuid != b.uuid && Approvable(s, id, a) && !Steady(s.desk.proposals[id].order)
    requires FreshKey(s, id, a) && FreshKey(s, id, b)
    ensures var mid := Advance(s, Approve(id, a)); id in mid.desk.proposals && FreshKey(mid, id, b)
  {
    var p := s.desk.proposals[id];
    ApprovalBegins(s, id, a);
    IdIsTrimmed(p.createdAt, p.serial);
    BlankKey(id, p.order, a);
    BlankKey(id, p.order, b);
    JoinedDiffer(a.uuid, b.uuid, id);
  }

  /**
   * Every blank plan breaks it, in every reachable state: two approvals of the proposal that draw
   * different identifiers start two executions, and the broker is called twice if the gates let them pass.
   */
  lemma {:induction false} BlankPlanExecutesTwice(steps: seq<Step>, id: string, a: Attempt, b: Attempt)
    requires a.uuid != b.uuid
    requires Approvable(Run(steps), id, a) && Approvable(Run(steps), id, b) && !Steady(Run(steps).desk.proposals[id].order)
    requires FreshKey(Run(steps), id, a) && FreshKey(Run(steps), id, b)
    ensures var s, o := Run(steps), Run(steps).desk.proposals[id].order;
            var s', n := Advance(Advance(s, Approve(id, a)), Approve(id, b)), |s.pipe.table.execs|;
            && |s'.pipe.table.execs| == n + 2
            && s'.pipe.table.execs[n].verdict == GatesOf(s.pipe.counts, a.world, SignalFor(id, o, a))
            && s'.pipe.table.execs[n + 1].verdict == GatesOf(s.pipe.counts, b.world, SignalFor(id, o, b))
  {
    EveryRunSound(steps);
    var s, mid := Run(steps), Advance(Run(steps), Approve(id, a));
    ApprovalBegins(s, id, a);
    FreshAfterAnother(s, id, a, b);
    ApprovalBegins(mid, id, b);
  }

  lemma ResetKeepsApprovable(s: Sys, id: string, b: Attempt)
    requires Aligned(s.pipe) && Approvable(s, id, b)
    ensures var reset := Advance(s, InPipeline(ResetDailyCounts));
            && Approvable(reset, id, b) && reset.desk == s.desk && FreshKey(reset, id, b)
            && reset.pipe.table.execs == s.pipe.table.execs && reset.pipe.counts.daily == EMPTY.counts.daily
  {
  }

  lemma ApprovalKeepsApprovable(s: Sys, id: string, a: Attempt, b: Attempt)
    requires Aligned(s.pipe) && Approvable(s, id, a) && Approvable(s, id, b)
    ensures Approvable(Advance(s, Approve(id, a)), id, b)
    ensures Advance(s, Approve(id, a)).desk.proposals[id] == s.desk.proposals[id]
  {
    ApprovalGoesAhead(s, id, a);
  }

  /**
   * A reset between two approvals breaks it for a steady plan too: the second starts again, under the
   * same key.
   */
  lemma {:induction false} ResetBetweenApprovalsExecutesTwice(steps: seq<Step>, id: string, a: Attempt, b: Attempt)
    requires Approvable(Run(steps), id, a) && Approvable(Run(steps), id, b) && FreshKey(Run(steps), id, a)
    requires Steady(Run(steps).desk.proposals[id].order)
    ensures var s, o := Run(steps), Run(steps).desk.proposals[id].order;
            var reset := Advance(Advance(s, Approve(id, a)), InPipeline(ResetDailyCounts));
            var execs, n := Advance(reset, Approve(id, b)).pipe.table.execs, |s.pipe.table.execs|;
            && |execs| == n + 2 && execs[n].key == execs[n + 1].key == SteadyKey(id, o)
            && execs[n].verdict == GatesOf(s.pipe.counts, a.world, SignalFor(id, o, a))
            && execs[n + 1].verdict == GatesOf(EMPTY.counts, b.world, SignalFor(id, o, b))
  {
    EveryRunSound(steps);
    var s, p := Run(steps), Run(steps).desk.proposals[id];
    IdIsTrimmed(p.createdAt, p.serial);
    KeyIsSteady(id, p.order, a);
    KeyIsSteady(id, p.order, b);
    ApprovalBegins(s, id, a);
    ApprovalKeepsApprovable(s, id, a, b);
    var claimed := Advance(s, Approve(id, a));
    ResetKeepsApprovable(claimed, id, b);
    var reset := Advance(claimed, InPipeline(ResetDailyCounts));
    ApprovalBegins(reset, id, b);
    AtMostOnce.SameCounts(reset.pipe.counts, EMPTY.counts, b.world, SignalFor(id, p.order, b));
  }

  // ---------------------------------------------------------------------------------------------
  // Decisions

  /** A claim still open on a proposal. */
  ghost predicate Contested(s: Sys, id: string) {
    exists k :: 0 <= k < |s.desk.claims| && s.desk.claims[k].id == id && s.desk.claims[k].open
  }

  /** Decided, and nobody is waiting to decide otherwise. */
  ghost predicate SettledAs(s: Sys, id: string, p: Proposal) {
    id in s.desk.proposals && s.desk.proposals[id] == p && !p.status.Pending? && !Contested(s, id)
  }

  lemma SweepKeepsSettled(s: Sys, now: nat, id: string, p: Proposal)
    requires SettledAs(s, id, p)
    ensures SettledAs(SweptSys(s, now), id, p)
  {
  }

  lemma AttemptKeepsSettled(s: Sys, about: string, a: Attempt, id: string, p: Proposal)
    requires Aligned(s.pipe) && SettledAs(s, id, p)
    ensures SettledAs(Attempted(s, about, a), id, p)
  {
    var swept := SweptSys(s, a.sweptAt);
    SweepKeepsSettled(s, a.sweptAt, id, p);
    if RefusalOf(swept.desk.proposals, about, a).None? {
      assert about != id;
      var claims := Claimed(swept, about, a).desk.claims;
      assert forall k :: 0 <= k < |swept.desk.claims| ==> claims[k] == swept.desk.claims[k];
    }
  }

  /** An open claim's step touches only its own proposal. */
  lemma ClosingKeepsSettled(s: Sys, claim: nat, c: Claim, id: string, p: Proposal)
    requires SettledAs(s, id, p) && IsOpen(s, claim) && c.id == s.desk.claims[claim].id
    ensures c.id != id && !Contested(s.(desk := s.desk.(claims := s.desk.claims[claim := c])), id)
  {
    var claims := s.desk.claims[claim := c];
    forall k | 0 <= k < |claims| && claims[k].id == id
      ensures !claims[k].open
    {
      assert k != claim && claims[k] == s.desk.claims[k];
    }
  }

  lemma StepKeepsSettled(s: Sys, step: Step, id: string, p: Proposal)
    requires Aligned(s.pipe) && Named(s.desk) && SettledAs(s, id, p)
    ensures SettledAs(Advance(s, step), id, p)
  {
    match step
    case Propose(_, _, now) => NewId(s.desk, now);
    case Sweep(now) => SweepKeepsSettled(s, now, id, p);
    case Approve(about, a) => AttemptKeepsSettled(s, about, a, id, p);
    case FactoryDelivers(claim, _, _) =>
      if AwaitsFactory(s, claim) { ClosingKeepsSettled(s, claim, Advance(s, step).desk.claims[claim], id, p); }
    case Resume(claim, _) =>
      if CanResume(s, claim) { ClosingKeepsSettled(s, claim, Advance(s, step).desk.claims[claim], id, p); }
    case Reject(_, now) => SweepKeepsSettled(s, now, id, p);
    case InPipeline(_) =>
  }

  lemma {:induction false} SettledStays(steps: seq<Step>, more: seq<Step>, id: string, p: Proposal)
    requires SettledAs(Run(steps), id, p)
    ensures SettledAs(Run(steps + more), id, p)
  {
    if |more| == 0 {
      assert steps + more == steps;
    } else {
      var init, last := more[..|more| - 1], more[|more| - 1];
      SettledStays(steps, init, id, p);
      EveryRunSound(steps + init);
      StepKeepsSettled(Run(steps + init), last, id, p);
      RunSnoc(steps + init, last);
      assert (steps + init) + [last] == steps + more;
    }
  }

  /** An open claim can always be brought to decide the proposal, at a time of one's choosing. */
  lemma OpenClaimDecides(steps: seq<Step>, claim: nat, now: nat) returns (more: seq<Step>)
    requires IsOpen(Run(steps), claim) && !Run(steps).desk.claims[claim].wait.Delivered?
    ensures var id, s' := Run(steps).desk.claims[claim].id, Run(steps + more);
            id in s'.desk.proposals && s'.desk.proposals[id].decidedAt == Some(now)
  {
    var s := Run(steps);
    match s.desk.claims[claim].wait
    case ForFactory(_) =>
      more := [FactoryDelivers(claim, ARejection, now)];
      RunSnoc(steps, more[0]);
    case ForResult(h) =>
      if CanResume(s, claim) {
        more := [Resume(claim, now)];
        RunSnoc(steps, more[0]);
      } else {
        var answer := InPipeline(BrokerAnswers(h.exec, Accepted));
        more := [answer, Resume(claim, now)];
        RunSnoc(steps, answer);
        RunSnoc(steps + [answer], Resume(claim, now));
        assert (steps + [answer]) + [Resume(claim, now)] == steps + more;
      }
  }

  ghost predicate OpenMeansWaiting(d: Desk) {
    forall k :: 0 <= k < |d.claims| && d.claims[k].open ==> !d.claims[k].wait.Delivered?
  }

  lemma {:induction false} EveryOpenClaimWaits(steps: seq<Step>)
    ensures OpenMeansWaiting(Run(steps).desk)
  {
    if |steps| > 0 { EveryOpenClaimWaits(steps[..|steps| - 1]); }
  }

  /**
   * A decision on a proposal stands through every continuation of the run, resets included, if and
   * only if no approval of the proposal is still waiting.
   */
  lemma {:induction false} DecisionIsFinalExactlyWhen(steps: seq<Step>, id: string)
    requires id in Run(steps).desk.proposals && !Run(steps).desk.proposals[id].status.Pending?
    ensures (forall more :: id in Run(steps + more).desk.proposals
                            && Run(steps + more).desk.proposals[id] == Run(steps).desk.proposals[id])
            <==> !Contested(Run(steps), id)
  {
    var s, p := Run(steps), Run(steps).desk.proposals[id];
    if Contested(s, id) {
      var k :| 0 <= k < |s.desk.claims| && s.desk.claims[k].id == id && s.desk.claims[k].open;
      EveryOpenClaimWaits(steps);
      var more := OpenClaimDecides(steps, k, if p.decidedAt == Some(0) then 1 else 0);
      assert Run(steps + more).desk.proposals[id] != p;
    } else {
      forall more
        ensures id in Run(steps + more).desk.proposals && Run(steps + more).desk.proposals[id] == p
      {
        SettledStays(steps, more, id, p);
      }
    }
  }

  /** A rejection lands between the two halves of an approval, and the proposal still ends up approved. */
  lemma RejectedYetApproved(s: Sys, id: string, claim: nat, now: nat, later: nat)
    requires Sound(s) && id in s.desk.proposals && s.desk.proposals[id].status.Pending?
    requires now < s.desk.proposals[id].expiresAt && CanResume(s, claim) && s.desk.claims[claim].id == id
    requires OutcomeOf(s.pipe.table, s.desk.claims[claim].wait.handle).Some?
    ensures var rejected := Advance(s, Reject(id, now));
            && rejected.desk.proposals[id].status == Rejected
            && Advance(rejected, Resume(claim, later)).desk.proposals[id].status == Approved
  {
  }

  /** The claim has resumed with this outcome. */
  predicate Resulted(s: Sys, claim: nat, id: string, outcome: Option<Result>) {
    && claim < |s.desk.claims| && s.desk.claims[claim].id == id && !s.desk.claims[claim].open
    && OutcomeOfWait(s.pipe.table, s.desk.claims[claim].wait) == outcome
  }

  ghost predicate Justified(s: Sys, id: string, p: Proposal) {
    p.status.Approved? ==> p.result.Some? && exists k: nat :: Resulted(s, k, id, p.result)
  }

  ghost predicate AllJustified(s: Sys) {
    forall id :: id in s.desk.proposals ==> Justified(s, id, s.desk.proposals[id])
  }

  /** No approval goes ahead after its proposal has expired. */
  ghost predicate ClaimsInTime(d: Desk) { forall k :: 0 <= k < |d.claims| ==> InTime(d, d.claims[k]) }

  predicate InTime(d: Desk, c: Claim) { c.id in d.proposals && c.madeAt <= d.proposals[c.id].expiresAt }

  /** Claims are only added to; a closed one stays as it is. */
  ghost predicate ClaimsKept(d: Desk, d': Desk) {
    |d.claims| <= |d'.claims| && forall k :: 0 <= k < |d.claims| && !d.claims[k].open ==> d'.claims[k] == d.claims[k]
  }

  lemma JustificationSurvives(s: Sys, s': Sys, id: string, p: Proposal)
    requires Grown(s.pipe.table, s'.pipe.table) && ClaimsKept(s.desk, s'.desk) && Justified(s, id, p)
    ensures Justified(s', id, p)
  {
    if p.status.Approved? {
      var k: nat :| Resulted(s, k, id, p.result);
      var w := s.desk.claims[k].wait;
      if w.ForResult? && w.handle.Promised? {
        assert Later(s.pipe.table.execs[w.handle.exec], s'.pipe.table.execs[w.handle.exec]);
      }
      assert Resulted(s', k, id, p.result);
    }
  }

  lemma StepGrows(s: Sys, step: Step)
    requires Aligned(s.pipe)
    ensures Grown(s.pipe.table, Advance(s, step).pipe.table) && ClaimsKept(s.desk, Advance(s, step).desk)
  {
    match step
    case Approve(id, a) =>
      var swept := SweptSys(s, a.sweptAt);
      if RefusalOf(swept.desk.proposals, id, a).None? {
        Pipeline.StepGrows(s.pipe, Op.Execute(CallFor(id, swept.desk.proposals[id].order, a)));
      }
    case FactoryDelivers(claim, APipeline(w), _) =>
      if AwaitsFactory(s, claim) { Pipeline.StepGrows(s.pipe, Op.Execute(s.desk.claims[claim].wait.call.(world := w))); }
    case InPipeline(op) => Pipeline.StepGrows(s.pipe, op);
    case _ =>
  }

  lemma AttemptApprovesNothing(s: Sys, about: string, a: Attempt, id: string)
    requires Aligned(s.pipe) && id in Attempted(s, about, a).desk.proposals
    requires Attempted(s, about, a).desk.proposals[id].status.Approved?
    ensures id in s.desk.proposals && s.desk.proposals[id] == Attempted(s, about, a).desk.proposals[id]
  {
  }

  /** A step approves a proposal only through a claim on it, which it closes with the result. */
  lemma OnlyClaimsApprove(s: Sys, step: Step, id: string)
    requires Aligned(s.pipe) && Named(s.desk)
    requires id in Advance(s, step).desk.proposals && Advance(s, step).desk.proposals[id].status.Approved?
    ensures (id in s.desk.proposals && s.desk.proposals[id] == Advance(s, step).desk.proposals[id])
            || (step.FactoryDelivers? && AwaitsFactory(s, step.claim) && step.delivery.AValue?
                && s.desk.claims[step.claim].id == id)
            || (step.Resume? && CanResume(s, step.claim) && s.desk.claims[step.claim].id == id
                && OutcomeOf(s.pipe.table, s.desk.claims[step.claim].wait.handle).Some?)
  {
    match step
    case Approve(about, a) => AttemptApprovesNothing(s, about, a, id);
    case Propose(_, _, now) => NewId(s.desk, now);
    case _ =>
  }

  lemma StepKeepsJustified(s: Sys, step: Step)
    requires Aligned(s.pipe) && Named(s.desk) && AllJustified(s)
    ensures AllJustified(Advance(s, step))
  {
    var s' := Advance(s, step);
    StepGrows(s, step);
    forall id | id in s'.desk.proposals
      ensures Justified(s', id, s'.desk.proposals[id])
    {
      if s'.desk.proposals[id].status.Approved? {
        OnlyClaimsApprove(s, step, id);
        if id in s.desk.proposals && s.desk.proposals[id] == s'.desk.proposals[id] {
          JustificationSurvives(s, s', id, s.desk.proposals[id]);
        } else {
          assert Resulted(s', step.claim, id, s'.desk.proposals[id].result);
        }
      }
    }
  }

  lemma DecisionsKeepInTime(d: Desk, d': Desk)
    requires OnlyDecisions(d, d') && ClaimsInTime(d)
    ensures ClaimsInTime(d')
  {
    forall k | 0 <= k < |d'.claims|
      ensures InTime(d', d'.claims[k])
    {
      assert InTime(d, d.claims[k]) && SameClaim(d.claims[k], d'.claims[k]);
      assert OnlyDecision(d.proposals[d.claims[k].id], d'.proposals[d.claims[k].id]);
    }
  }

  lemma StepKeepsInTime(s: Sys, step: Step)
    requires Sound(s) && ClaimsInTime(s.desk)
    ensures ClaimsInTime(Advance(s, step).desk)
  {
    match step
    case Propose(o, ttl, now) => ProposeKeepsInTime(s.desk, o, ttl, now);
    case Approve(id, a) => AttemptKeepsInTime(s, id, a);
    case InPipeline(_) =>
    case FactoryDelivers(claim, APipeline(_), _) =>
      if AwaitsFactory(s, claim) { assert InTime(s.desk, s.desk.claims[claim]); }
    case _ =>
      OnlyDecides(s, step);
      DecisionsKeepInTime(s.desk, Advance(s, step).desk);
  }

  lemma ProposeKeepsInTime(d: Desk, o: Order, ttl: int, now: nat)
    requires Named(d) && ClaimsInTime(d)
    ensures ClaimsInTime(Proposed(d, o, ttl, now))
  {
    NewId(d, now);
    forall k | 0 <= k < |d.claims|
      ensures InTime(Proposed(d, o, ttl, now), d.claims[k])
    {
      assert InTime(d, d.claims[k]);
    }
  }

  lemma AttemptKeepsInTime(s: Sys, id: string, a: Attempt)
    requires Aligned(s.pipe) && ClaimsInTime(s.desk)
    ensures ClaimsInTime(Attempted(s, id, a).desk)
  {
    var swept := SweptSys(s, a.sweptAt);
    SweepOnlyDecides(s, a.sweptAt);
    DecisionsKeepInTime(s.desk, swept.desk);
    if RefusalOf(swept.desk.proposals, id, a).Some? {
      DecisionsKeepInTime(swept.desk, Attempted(s, id, a).desk);
    }
  }

  /**
   * In every run, resets included, an approved proposal carries the outcome one of its own approvals
   * resumed with, and no approval came too late.
   */
  lemma {:induction false} ApprovalsAreJustified(steps: seq<Step>)
    ensures AllJustified(Run(steps)) && ClaimsInTime(Run(steps).desk)
  {
    if |steps| > 0 {
      var earlier, last := Run(steps[..|steps| - 1]), steps[|steps| - 1];
      EveryRunSound(steps[..|steps| - 1]);
      ApprovalsAreJustified(steps[..|steps| - 1]);
      StepKeepsJustified(earlier, last);
      StepKeepsInTime(earlier, last);
    }
  }

  // ---------------------------------------------------------------------------------------------
  // The service object

  class ApprovalService {
    const pipeline: ExecutionPipeline
    var proposals: map<string, Proposal>
    var nextId: nat
    var claims: seq<Claim>

    ghost function View(): Sys
      reads this, pipeline, pipeline.log
    {
      Sys(Desk(proposals, nextId, claims), pipeline.View())
    }

    constructor (pipeline: ExecutionPipeline)
      ensures this.pipeline == pipeline && View().desk == START.desk
    {
      this.pipeline, proposals, nextId, claims := pipeline, map[], 0, [];
    }

    method ProposeTrade(order: Order, ttl: int, now: nat) returns (id: string)
      requires pipeline.Valid()
      modifies this
      ensures View() == Advance(old(View()), Propose(order, ttl, now)) && id == ProposalId(now, nextId)
    {
      nextId := nextId + 1;
      id := ProposalId(now, nextId);
      proposals := proposals[id := Proposal(now, nextId, order, now + ttl, Pending, None, None)];
    }

    method SweepExpired(now: nat)
      modifies this`proposals
      ensures proposals == Swept(old(proposals), now)
    {
      var left := proposals.Keys;
      while left != {}
        invariant left <= proposals.Keys == old(proposals).Keys
        invariant forall id :: id in proposals ==>
                    proposals[id] == if id in left then old(proposals)[id] else SweptOne(old(proposals)[id], now)
        decreases |left|
      {
        var id :| id in left;
        if proposals[id].status.Pending? && !(proposals[id].expiresAt > now) {
          proposals := proposals[id := proposals[id].(status := Expired, decidedAt := Some(now))];
        }
        left := left - {id};
      }
    }

    /** Up to the point where the pipeline is awaited. */
    method ApproveProposal(id: string, a: Attempt) returns (refusal: Option<Refusal>)
      requires pipeline.Valid()
      modifies this, pipeline, pipeline.log
      ensures pipeline.Valid() && View() == Advance(old(View()), Approve(id, a))
      ensures refusal == RefusalOf(Swept(old(proposals), a.sweptAt), id, a)
    {
      SweepExpired(a.sweptAt);
      if id !in proposals { return Some(NotFound); }
      var proposal := proposals[id];
      if proposal.status.Expired? { return Some(HasExpired); }
      if !proposal.status.Pending? { return Some(NotPending); }
      if a.checkedAt > proposal.expiresAt {
        proposals := proposals[id := proposal.(status := Expired, decidedAt := Some(a.checkedAt))];
        return Some(TooLate);
      }
      if a.factory.Missing? || a.factory.GivesNothing? { return Some(NoPipeline); }
      if a.factory.Throws? {
        proposals := proposals[id := proposal.(status := Failed, decidedAt := Some(a.checkedAt))];
        return Some(FactoryThrew);
      }
      var call := CallFor(id, proposal.order, a);
      if a.factory.GivesPromise? {
        claims := claims + [Claim(id, ForFactory(call), a.checkedAt, true)];
      } else {
        var handle := pipeline.Execute(call);
        claims := claims + [Claim(id, ForResult(handle.value), a.checkedAt, true)];
      }
      refusal := None;
    }

    /** After the promise of a factory has settled. */
    method OnFactory(claim: nat, delivery: Delivery, now: nat)
      requires pipeline.Valid() && AwaitsFactory(View(), claim) && KeyOf(claims[claim].wait.call).Some?
      modifies this, pipeline, pipeline.log
      ensures pipeline.Valid() && View() == Advance(old(View()), FactoryDelivers(claim, delivery, now))
    {
      var c := claims[claim];
      var proposal := proposals[c.id];
      match delivery
      case APipeline(w) =>
        var handle := pipeline.Execute(c.wait.call.(world := w));
        claims := claims[claim := c.(wait := ForResult(handle.value))];
      case AValue(r) =>
        proposals := proposals[c.id := proposal.(status := Approved, decidedAt := Some(now), result := Some(r))];
        claims := claims[claim := c.(wait := Delivered(r), open := false)];
      case NoValue =>
        claims := claims[claim := c.(open := false)];
      case ARejection =>
        proposals := proposals[c.id := proposal.(status := Failed, decidedAt := Some(now))];
        claims := claims[claim := c.(open := false)];
    }

    /** After the wait: `outcome` is what the awaited promise delivered, None when it was rejected. */
    method OnExecuted(claim: nat, outcome: Option<Result>, now: nat)
      requires pipeline.Valid() && CanResume(View(), claim)
      requires outcome == OutcomeOf(pipeline.View().table, claims[claim].wait.handle)
      modifies this
      ensures View() == Advance(old(View()), Resume(claim, now))
    {
      var c := claims[claim];
      var proposal := proposals[c.id];
      if outcome.None? {
        proposal := proposal.(status := Failed, decidedAt := Some(now));
      } else {
        proposal := proposal.(status := Approved, decidedAt := Some(now), result := Some(outcome.value));
      }
      proposals := proposals[c.id := proposal];
      claims := claims[claim := c.(open := false)];
    }

    method RejectProposal(id: string, now: nat) returns (refusal: Option<Refusal>)
      requires pipeline.Valid()
      modifies this
      ensures View() == Advance(old(View()), Reject(id, now))
      ensures refusal == if id !in old(proposals) then Some(NotFound)
                         else if proposals[id].status.Rejected? && Swept(old(proposals), now)[id].status.Pending? then None
                         else Some(NotPending)
    {
      SweepExpired(now);
      if id !in proposals { return Some(NotFound); }
      if !proposals[id].status.Pending? { return Some(NotPending); }
      proposals := proposals[id := proposals[id].(status := Rejected, decidedAt := Some(now))];
      refusal := None;
    }
  }
}
