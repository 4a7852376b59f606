/** Approved proposals execute their own orders, in every run, and carry the result of doing so. */
module OwnOrders {
  import opened Common
  import opened Text
  import opened Validation
  import opened Gates
  import opened Pipeline
  import opened Approvals
  import AtMostOnce
  import Decisions
  import Remembered

  // ---------------------------------------------------------------------------------------------
  // Keys of proposals

  /** The key protects an execution of this proposal: whatever plan comes before the colon, its id comes after. */
  ghost predicate KeyFor(key: string, id: string) { exists plan: string :: key == Joined(plan, id) }

  lemma NoColonInId(createdAt: nat, serial: nat)
    ensures ':' !in ProposalId(createdAt, serial)
  {
    assert forall k :: 0 <= k < |Decimal(createdAt)| ==> IsDigit(Decimal(createdAt)[k]);
    assert forall k :: 0 <= k < |Decimal(serial)| ==> IsDigit(Decimal(serial)[k]);
  }

  lemma LongerTailHasColon(a: string, b: string, a': string, b': string)
    requires Joined(a, b) == Joined(a', b') && |b| < |b'|
    ensures ':' in b'
  {
    var key := Joined(a, b);
    assert key[|a|] == ':' && key[|a|] == b'[|a| - |a'| - 1];
  }

  /** A key that ends in an id without colons says which. */
  lemma KeyNamesOne(key: string, id: string, other: string)
    requires KeyFor(key, id) && KeyFor(key, other) && ':' !in id && ':' !in other
    ensures id == other
  {
    var plan: string :| key == Joined(plan, id);
    var plan': string :| key == Joined(plan', other);
    if |id| < |other| {
      LongerTailHasColon(plan, id, plan', other);
    } else if |other| < |id| {
      LongerTailHasColon(plan', other, plan, id);
    } else {
      assert id == key[|plan| + 1..] && other == key[|plan'| + 1..];
    }
  }

  /** This call asks for the order of this proposal, whoever approved it and whenever. */
  ghost predicate IsFor(call: Call, id: string, o: Order) {
    exists agentId, at :: Decisions.AsksFor(call, id, o, agentId, at)
  }

  lemma OwnKey(call: Call, id: string, o: Order)
    requires IsFor(call, id, o) && Trim(id) == id != ""
    ensures KeyOf(call).Some? && KeyFor(KeyOf(call).value, id)
  {
    var agentId, at :| Decisions.AsksFor(call, id, o, agentId, at);
    var owner := IdentityOf(call).value.0;
    assert IdentityOf(call).value.1 == id && KeyOf(call).value == Joined(owner.correlationId, id);
  }

  /** A call that leaves the keys of all proposals alone. */
  ghost predicate KeepsOff(call: Call) {
    KeyOf(call).Some? ==> forall createdAt, serial :: !KeyFor(KeyOf(call).value, ProposalId(createdAt, serial))
  }

  // ---------------------------------------------------------------------------------------------
  // What must stay true

  /** What reaches the broker is the proposal's own order, normalised. */
  predicate Carries(v: Verdict, o: Order) {
    v.ToBroker? ==>
      && v.signal.symbol == Upper(Trim(o.symbol)) && v.signal.side == Lower(o.side)
      && v.signal.quantity == o.quantity && v.signal.price == o.price
  }

  lemma OwnSignal(w: World, raw: RawSignal, daily: string -> nat)
    requires RunGates(w, raw, daily).ToBroker?
    ensures FirstFault(raw).None? && RunGates(w, raw, daily).signal == Normalized(raw, w.now)
  {
  }

  lemma OwnVerdict(call: Call, id: string, o: Order, counts: Counts)
    requires IsFor(call, id, o)
    ensures Carries(GatesOf(counts, call.world, call.raw), o)
  {
    if GatesOf(counts, call.world, call.raw).ToBroker? { OwnSignal(call.world, call.raw, DailyOf(counts)); }
  }

  /** An execution under the key of a proposal is of a proposal that exists, and carries its order. */
  ghost predicate OwnedBy(d: Desk, e: Exec, createdAt: nat, serial: nat) {
    var id := ProposalId(createdAt, serial);
    KeyFor(e.key, id) ==> id in d.proposals && Carries(e.verdict, d.proposals[id].order)
  }

  ghost predicate Owned(d: Desk, e: Exec) { forall createdAt, serial :: OwnedBy(d, e, createdAt, serial) }

  ghost predicate AllOwned(d: Desk, t: Table) { forall i :: 0 <= i < |t.execs| ==> Owned(d, t.execs[i]) }

  /** This execution ran under the proposal's key and ended in this result. */
  ghost predicate RanFor(t: Table, i: nat, id: string, r: Result) {
    i < |t.execs| && KeyFor(t.execs[i].key, id) && t.execs[i].phase == Resolved(r)
  }

  /** What a claim waits for, or got, concerns its own proposal. */
  ghost predicate OwnWait(t: Table, id: string, o: Order, w: Wait) {
    match w
    case ForFactory(call) => IsFor(call, id, o)
    case ForResult(Promised(i)) => i < |t.execs| && KeyFor(t.execs[i].key, id)
    case ForResult(Remembered(r)) => exists i: nat :: RanFor(t, i, id, r)
    case Delivered(_) => true
  }

  ghost predicate OwnClaim(d: Desk, t: Table, c: Claim) {
    c.id in d.proposals && OwnWait(t, c.id, d.proposals[c.id].order, c.wait)
  }

  ghost predicate OwnClaims(d: Desk, t: Table) { forall k :: 0 <= k < |d.claims| ==> OwnClaim(d, t, d.claims[k]) }

  /** Every remembered result is that of an execution under its key. */
  ghost predicate Memories(t: Table) { forall key :: key in t.completed ==> Recalls(t, key) }

  ghost predicate Recalls(t: Table, key: string)
    requires key in t.completed
  {
    exists i: nat :: i < |t.execs| && Remembered.Yields(t.execs[i], key, t.completed[key])
  }

  ghost predicate InOrder(s: Sys) {
    Sound(s) && AllOwned(s.desk, s.pipe.table) && OwnClaims(s.desk, s.pipe.table) && Memories(s.pipe.table)
  }

  // ---------------------------------------------------------------------------------------------
  // Steps of the pipeline

  lemma KeepsMemories(p: Pipe, op: Op)
    requires Aligned(p) && Memories(p.table)
    ensures Memories(Pipeline.Apply(p, op).table)
  {
    var t' := Pipeline.Apply(p, op).table;
    forall key | key in t'.completed
      ensures Recalls(t', key)
    {
      var memory, running: Option<nat> := None, None;
      if key in p.table.completed {
        assert Recalls(p.table, key);
        var i: nat :| i < |p.table.execs| && Remembered.Yields(p.table.execs[i], key, p.table.completed[key]);
        memory := Some(i);
      }
      if key in p.table.inflight { running := Some(p.table.inflight[key]); }
      Remembered.StepKnows(p, op, key, running, memory);
    }
  }

  lemma LaterIsOwned(d: Desk, e: Exec, e': Exec)
    requires Later(e, e') && Owned(d, e)
    ensures Owned(d, e')
  {
    forall createdAt, serial
      ensures OwnedBy(d, e', createdAt, serial)
    {
      assert OwnedBy(d, e, createdAt, serial);
    }
  }

  lemma WaitStaysOwn(t: Table, t': Table, id: string, o: Order, w: Wait)
    requires Grown(t, t') && OwnWait(t, id, o, w)
    ensures OwnWait(t', id, o, w)
  {
    if w.ForResult? {
      if w.handle.Promised? {
        assert Later(t.execs[w.handle.exec], t'.execs[w.handle.exec]);
      } else {
        var i: nat :| RanFor(t, i, id, w.handle.result);
        assert Later(t.execs[i], t'.execs[i]);
        assert RanFor(t', i, id, w.handle.result);
      }
    }
  }

  /** An execution that a call starts belongs to nobody, or to the proposal it was called for. */
  lemma StartIsOwned(d: Desk, call: Call, id: string, e: Exec, counts: Counts)
    requires Named(d) && KeyOf(call).Some? && e.key == KeyOf(call).value
    requires e.verdict == GatesOf(counts, call.world, call.raw)
    requires KeepsOff(call) || (id in d.proposals && IsFor(call, id, d.proposals[id].order))
    ensures Owned(d, e)
  {
    forall createdAt, serial
      ensures OwnedBy(d, e, createdAt, serial)
    {
      var named := ProposalId(createdAt, serial);
      if KeyFor(e.key, named) {
        assert !KeepsOff(call);
        var p := d.proposals[id];
        IdIsTrimmed(p.createdAt, p.serial);
        OwnKey(call, id, p.order);
        NoColonInId(createdAt, serial);
        NoColonInId(p.createdAt, p.serial);
        KeyNamesOne(e.key, id, named);
        OwnVerdict(call, id, p.order, counts);
      }
    }
  }

  /** Either nobody's key, or a call for the order of a proposal on the desk. */
  ghost predicate Allowed(d: Desk, op: Op, id: string) {
    op.Execute? ==> KeepsOff(op.call) || (id in d.proposals && IsFor(op.call, id, d.proposals[id].order))
  }

  lemma NewExecution(p: Pipe, op: Op, i: nat)
    requires Aligned(p) && |p.table.execs| <= i < |Pipeline.Apply(p, op).table.execs|
    ensures op.Execute? && KeyOf(op.call).Some?
    ensures var e := Pipeline.Apply(p, op).table.execs[i];
            e.key == KeyOf(op.call).value && e.verdict == GatesOf(p.counts, op.call.world, op.call.raw)
  {
  }

  lemma PipelineKeepsOwned(d: Desk, p: Pipe, op: Op, id: string)
    requires Aligned(p) && Named(d) && AllOwned(d, p.table) && Allowed(d, op, id)
    ensures AllOwned(d, Pipeline.Apply(p, op).table)
  {
    var t' := Pipeline.Apply(p, op).table;
    Pipeline.StepGrows(p, op);
    forall i | 0 <= i < |t'.execs|
      ensures Owned(d, t'.execs[i])
    {
      if i < |p.table.execs| {
        LaterIsOwned(d, p.table.execs[i], t'.execs[i]);
      } else {
        NewExecution(p, op, i);
        StartIsOwned(d, op.call, id, t'.execs[i], p.counts);
      }
    }
  }

  lemma PipelineKeepsClaims(d: Desk, p: Pipe, op: Op)
    requires Aligned(p) && OwnClaims(d, p.table)
    ensures OwnClaims(d, Pipeline.Apply(p, op).table)
  {
    Pipeline.StepGrows(p, op);
    forall k | 0 <= k < |d.claims|
      ensures OwnClaim(d, Pipeline.Apply(p, op).table, d.claims[k])
    {
      assert OwnClaim(d, p.table, d.claims[k]);
      WaitStaysOwn(p.table, Pipeline.Apply(p, op).table, d.claims[k].id, d.proposals[d.claims[k].id].order, d.claims[k].wait);
    }
  }

  lemma PipelineKeepsOrder(s: Sys, op: Op, id: string)
    requires InOrder(s) && Allowed(s.desk, op, id)
    ensures InOrder(s.(pipe := Pipeline.Apply(s.pipe, op)))
  {
    PipelineKeepsSound(s, op);
    PipelineKeepsOwned(s.desk, s.pipe, op, id);
    PipelineKeepsClaims(s.desk, s.pipe, op);
    KeepsMemories(s.pipe, op);
  }

  // ---------------------------------------------------------------------------------------------
  // Steps of the service

  /** Asking the pipeline for a proposal's order leads to something of its own to wait for. */
  lemma HandleIsOwn(p: Pipe, id: string, o: Order, call: Call)
    requires Aligned(p) && Filed(p.table) && Memories(p.table) && IsFor(call, id, o) && Trim(id) == id != ""
    ensures KeyOf(call).Some?
    ensures OwnWait(Pipeline.Apply(p, Op.Execute(call)).table, id, o, ForResult(HandleOf(p, call)))
  {
    OwnKey(call, id, o);
    var key, t' := KeyOf(call).value, Pipeline.Apply(p, Op.Execute(call)).table;
    assert FiledUnder(p.table, key);
    if key in p.table.completed {
      assert Recalls(p.table, key);
      var i: nat :| i < |p.table.execs| && Remembered.Yields(p.table.execs[i], key, p.table.completed[key]);
      assert RanFor(t', i, id, p.table.completed[key]);
    }
  }

  /** Decisions change neither what exists nor what is waited for, unless a value was delivered. */
  lemma DecisionsKeepOrder(s: Sys, d': Desk)
    requires InOrder(s) && OnlyDecisions(s.desk, d')
    ensures InOrder(s.(desk := d'))
  {
    DecisionsKeepSound(s, d');
    forall i | 0 <= i < |s.pipe.table.execs|
      ensures Owned(d', s.pipe.table.execs[i])
    {
      OrdersStay(s.desk, d', s.pipe.table.execs[i]);
    }
    forall k | 0 <= k < |d'.claims|
      ensures OwnClaim(d', s.pipe.table, d'.claims[k])
    {
      assert OwnClaim(s.desk, s.pipe.table, s.desk.claims[k]) && SameClaim(s.desk.claims[k], d'.claims[k]);
      assert OnlyDecision(s.desk.proposals[d'.claims[k].id], d'.proposals[d'.claims[k].id]);
    }
  }

  lemma OrdersStay(d: Desk, d': Desk, e: Exec)
    requires Owned(d, e) && d.proposals.Keys <= d'.proposals.Keys
    requires forall id :: id in d.proposals ==> d'.proposals[id].order == d.proposals[id].order
    ensures Owned(d', e)
  {
    forall createdAt, serial
      ensures OwnedBy(d', e, createdAt, serial)
    {
      assert OwnedBy(d, e, createdAt, serial);
    }
  }

  lemma ProposeKeepsOrder(s: Sys, o: Order, ttl: int, now: nat)
    requires InOrder(s)
    ensures InOrder(s.(desk := Proposed(s.desk, o, ttl, now)))
  {
    var d' := Proposed(s.desk, o, ttl, now);
    NewId(s.desk, now);
    ProposeKeepsNamed(s.desk, s.pipe.table, o, ttl, now);
    forall i | 0 <= i < |s.pipe.table.execs|
      ensures Owned(d', s.pipe.table.execs[i])
    {
      OrdersStay(s.desk, d', s.pipe.table.execs[i]);
    }
    forall k | 0 <= k < |d'.claims|
      ensures OwnClaim(d', s.pipe.table, d'.claims[k])
    {
      assert OwnClaim(s.desk, s.pipe.table, s.desk.claims[k]);
    }
  }

  lemma ClaimKeepsOrder(s: Sys, id: string, a: Attempt)
    requires InOrder(s) && id in s.desk.proposals
    ensures InOrder(Claimed(s, id, a))
  {
    var p := s.desk.proposals[id];
    var call := CallFor(id, p.order, a);
    assert Decisions.AsksFor(call, id, p.order, a.agentId, a.checkedAt);
    ClaimKeepsSound(s, id, a);
    IdIsTrimmed(p.createdAt, p.serial);
    if a.factory.GivesPromise? {
      ClaimsPlusOwn(s.desk, s.pipe.table, Claim(id, ForFactory(call), a.checkedAt, true));
    } else {
      PipelineKeepsOrder(s, Op.Execute(call), id);
      HandleIsOwn(s.pipe, id, p.order, call);
      ClaimsPlusOwn(s.desk, Pipeline.Apply(s.pipe, Op.Execute(call)).table,
                    Claim(id, ForResult(HandleOf(s.pipe, call)), a.checkedAt, true));
    }
  }

  lemma ClaimsPlusOwn(d: Desk, t: Table, c: Claim)
    requires OwnClaims(d, t) && AllOwned(d, t) && OwnClaim(d, t, c)
    ensures OwnClaims(d.(claims := d.claims + [c]), t) && AllOwned(d.(claims := d.claims + [c]), t)
  {
    var d' := d.(claims := d.claims + [c]);
    forall k | 0 <= k < |d'.claims|
      ensures OwnClaim(d', t, d'.claims[k])
    {
      if k < |d.claims| { assert OwnClaim(d, t, d.claims[k]); }
    }
    SameOrders(d, d', t);
  }

  lemma SameOrders(d: Desk, d': Desk, t: Table)
    requires AllOwned(d, t) && d'.proposals == d.proposals
    ensures AllOwned(d', t)
  {
    forall i | 0 <= i < |t.execs|
      ensures Owned(d', t.execs[i])
    {
      OrdersStay(d, d', t.execs[i]);
    }
  }

  lemma FactoryKeepsOrder(s: Sys, claim: nat, w: World, now: nat)
    requires InOrder(s) && AwaitsFactory(s, claim)
    ensures InOrder(FactoryAnswered(s, claim, APipeline(w), now))
  {
    var c := s.desk.claims[claim];
    var call, p := c.wait.call.(world := w), s.desk.proposals[c.id];
    assert OwnClaim(s.desk, s.pipe.table, c);
    FactoryKeepsSound(s, claim, w, now);
    WorldIsFree(c.wait.call, w, c.id, p.order);
    IdIsTrimmed(p.createdAt, p.serial);
    PipelineKeepsOrder(s, Op.Execute(call), c.id);
    HandleIsOwn(s.pipe, c.id, p.order, call);
    ClaimUpdateOwn(s.desk, Pipeline.Apply(s.pipe, Op.Execute(call)).table, claim,
                   c.(wait := ForResult(HandleOf(s.pipe, call))));
  }

  lemma WorldIsFree(call: Call, w: World, id: string, o: Order)
    requires IsFor(call, id, o)
    ensures IsFor(call.(world := w), id, o)
  {
    var agentId, at :| Decisions.AsksFor(call, id, o, agentId, at);
    assert Decisions.AsksFor(call.(world := w), id, o, agentId, at);
  }

  lemma ClaimUpdateOwn(d: Desk, t: Table, claim: nat, c: Claim)
    requires OwnClaims(d, t) && AllOwned(d, t) && OwnClaim(d, t, c) && claim < |d.claims|
    ensures OwnClaims(d.(claims := d.claims[claim := c]), t) && AllOwned(d.(claims := d.claims[claim := c]), t)
  {
    var d' := d.(claims := d.claims[claim := c]);
    forall k | 0 <= k < |d'.claims|
      ensures OwnClaim(d', t, d'.claims[k])
    {
      if k != claim { assert OwnClaim(d, t, d.claims[k]); }
    }
    SameOrders(d, d', t);
  }

  lemma AttemptKeepsOrder(s: Sys, id: string, a: Attempt)
    requires InOrder(s)
    ensures InOrder(Attempted(s, id, a))
  {
    var swept := SweptSys(s, a.sweptAt);
    SweepOnlyDecides(s, a.sweptAt);
    DecisionsKeepOrder(s, swept.desk);
    if RefusalOf(swept.desk.proposals, id, a).None? {
      ClaimKeepsOrder(swept, id, a);
    } else {
      DecisionsKeepOrder(swept, Attempted(s, id, a).desk);
    }
  }

  /** Calls made past the service leave the keys of proposals alone. */
  ghost predicate StepKeepsOff(step: Step) { step.InPipeline? && step.op.Execute? ==> KeepsOff(step.op.call) }

  ghost predicate AllKeepOff(steps: seq<Step>) { forall k :: 0 <= k < |steps| ==> StepKeepsOff(steps[k]) }

  lemma StepKeepsOrder(s: Sys, step: Step)
    requires InOrder(s) && StepKeepsOff(step)
    ensures InOrder(Advance(s, step))
  {
    match step
    case Propose(o, ttl, now) => ProposeKeepsOrder(s, o, ttl, now);
    case Approve(id, a) => AttemptKeepsOrder(s, id, a);
    case InPipeline(op) => PipelineKeepsOrder(s, op, "");
    case FactoryDelivers(claim, APipeline(w), now) => if AwaitsFactory(s, claim) { FactoryKeepsOrder(s, claim, w, now); }
    case _ =>
      OnlyDecides(s, step);
      DecisionsKeepOrder(s, Advance(s, step).desk);
  }

  lemma {:induction false} EveryRunInOrder(steps: seq<Step>)
    requires AllKeepOff(steps)
    ensures InOrder(Approvals.Run(steps))
  {
    if |steps| > 0 {
      EveryRunInOrder(steps[..|steps| - 1]);
      StepKeepsOrder(Approvals.Run(steps[..|steps| - 1]), steps[|steps| - 1]);
    }
  }

  /** The factory itself handed over this value as the result. */
  ghost predicate HandedOver(s: Sys, id: string, r: Result) {
    exists k: nat :: k < |s.desk.claims| && s.desk.claims[k].id == id && s.desk.claims[k].wait == Delivered(r)
  }

  /**
   * In every run, resets included, whose other calls leave the keys of proposals alone: an approved
   * proposal carries the result of an execution under its own key, and whatever that execution took to
   * the broker was the proposal's own symbol, side, quantity and price. The one exception is a result
   * that the factory handed over itself.
   */
  lemma {:induction false} ApprovedExecutedItsOwn(steps: seq<Step>, id: string) returns (i: nat)
    requires AllKeepOff(steps) && id in Approvals.Run(steps).desk.proposals
    requires Approvals.Run(steps).desk.proposals[id].status == Approved
    ensures var s, p := Approvals.Run(steps), Approvals.Run(steps).desk.proposals[id];
            && p.result.Some?
            && (HandedOver(s, id, p.result.value)
                || (RanFor(s.pipe.table, i, id, p.result.value) && Carries(s.pipe.table.execs[i].verdict, p.order)))
  {
    EveryRunInOrder(steps);
    ApprovalsAreJustified(steps);
    var s := Approvals.Run(steps);
    var p, t := s.desk.proposals[id], s.pipe.table;
    assert Justified(s, id, p);
    var k: nat :| Resulted(s, k, id, p.result);
    assert OwnClaim(s.desk, t, s.desk.claims[k]);
    i := 0;
    match s.desk.claims[k].wait
    case Delivered(r) =>
    case ForFactory(_) =>
    case ForResult(Promised(e)) =>
      i := e;
      assert OwnedBy(s.desk, t.execs[i], p.createdAt, p.serial);
    case ForResult(Remembered(r)) =>
      i :| RanFor(t, i, id, r);
      assert OwnedBy(s.desk, t.execs[i], p.createdAt, p.serial);
  }

  /** The call an approval would make, but for another quantity. */
  function WithQuantity(id: string, o: Order, a: Attempt, quantity: real): Call {
    CallFor(id, o, a).(raw := SignalFor(id, o, a).(quantity := Num(quantity)))
  }

  lemma QuantityIsNotInTheKey(id: string, o: Order, a: Attempt, quantity: real)
    ensures KeyOf(WithQuantity(id, o, a, quantity)) == KeyOf(CallFor(id, o, a))
  {
  }

  /** An approval under a key in flight starts nothing and waits for the execution there is. */
  lemma ApprovalJoins(s: Sys, id: string, a: Attempt, n: nat)
    requires Aligned(s.pipe) && Approvable(s, id, a)
    requires var key := KeyOf(CallFor(id, s.desk.proposals[id].order, a)).value;
             key !in s.pipe.table.completed && key in s.pipe.table.inflight && s.pipe.table.inflight[key] == n
    ensures var s' := Advance(s, Approve(id, a));
            s'.pipe == s.pipe && s'.desk.claims == s.desk.claims + [Claim(id, ForResult(Promised(n)), a.checkedAt, true)]
  {
    ApprovalGoesAhead(s, id, a);
  }

  lemma ForeignStarts(p: Pipe, call: Call)
    requires Aligned(p) && KeyOf(call).Some? && !Known(p.table, KeyOf(call).value)
    ensures var t, key, n := Pipeline.Apply(p, Op.Execute(call)).table, KeyOf(call).value, |p.table.execs|;
            && |t.execs| == n + 1 && t.execs[n].verdict == GatesOf(p.counts, call.world, call.raw)
            && key !in t.completed && key in t.inflight && t.inflight[key] == n
  {
  }

  lemma ApprovalJoinsForeign(s: Sys, mid: Sys, id: string, a: Attempt, foreign: Call)
    requires Aligned(s.pipe) && Approvable(s, id, a) && FreshKey(s, id, a)
    requires KeyOf(foreign) == KeyOf(CallFor(id, s.desk.proposals[id].order, a))
    requires mid == s.(pipe := Pipeline.Apply(s.pipe, Op.Execute(foreign)))
    ensures var s', n := Advance(mid, Approve(id, a)), |s.pipe.table.execs|;
            && |s'.pipe.table.execs| == n + 1
            && s'.pipe.table.execs[n].verdict == GatesOf(s.pipe.counts, foreign.world, foreign.raw)
            && s'.desk.claims == s.desk.claims + [Claim(id, ForResult(Promised(n)), a.checkedAt, true)]
  {
    ForeignStarts(s.pipe, foreign);
    ApprovalJoins(mid, id, a, |s.pipe.table.execs|);
  }

  /**
   * The proviso is needed: in every state that has not used the key, a call made past the service under
   * the key of a proposal takes its place. The approval that follows starts nothing and waits for the
   * execution of the other order, of whatever quantity.
   */
  lemma ForeignOrderTakesItsPlace(s: Sys, id: string, a: Attempt, quantity: real)
    requires Aligned(s.pipe) && Approvable(s, id, a)
    requires FreshKey(s, id, a)
    ensures var foreign := WithQuantity(id, s.desk.proposals[id].order, a, quantity);
            var s' := Advance(Advance(s, InPipeline(Op.Execute(foreign))), Approve(id, a));
            var n := |s.pipe.table.execs|;
            && |s'.pipe.table.execs| == n + 1
            && s'.pipe.table.execs[n].verdict == GatesOf(s.pipe.counts, a.world, foreign.raw)
            && s'.desk.claims == s.desk.claims + [Claim(id, ForResult(Promised(n)), a.checkedAt, true)]
  {
    var o := s.desk.proposals[id].order;
    var foreign := WithQuantity(id, o, a, quantity);
    QuantityIsNotInTheKey(id, o, a, quantity);
    ApprovalJoinsForeign(s, Advance(s, InPipeline(Op.Execute(foreign))), id, a, foreign);
  }
}
