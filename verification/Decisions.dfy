/** What each step of the approval service does to every proposal, without naming how it does it. */
module Decisions {
  import opened Common
  import opened Text
  import opened Validation
  import opened Gates
  import opened Pipeline
  import opened Approvals

  /** The fields of a proposal that nothing ever changes. */
  predicate SameProposal(p: Proposal, p': Proposal) {
    && p'.createdAt == p.createdAt && p'.serial == p.serial && p'.order == p.order && p'.expiresAt == p.expiresAt
  }

  /** The proposal has been decided just now; only an approval gives it a result. */
  predicate DecidedAs(p: Proposal, status: Status, now: int, result: Option<Result>, p': Proposal) {
    && SameProposal(p, p') && p'.status == status && p'.decidedAt == Some(now)
    && p'.result == if status == Approved then result else p.result
  }

  /** A proposal still pending when its time is over expires; any other is left alone. */
  predicate IsSwept(p: Proposal, now: nat, p': Proposal) {
    if p.status == Pending && p.expiresAt <= now then DecidedAs(p, Expired, now, None, p') else p' == p
  }

  ghost predicate AllSwept(d: Desk, now: nat, d': Desk, but: string) {
    && d'.proposals.Keys == d.proposals.Keys && d'.nextId == d.nextId
    && forall id :: id in d.proposals && id != but ==> IsSwept(d.proposals[id], now, d'.proposals[id])
  }

  /** Sweeping expires exactly the pending proposals whose time is over, and touches nothing else. */
  lemma SweepExpires(s: Sys, now: nat)
    requires Aligned(s.pipe)
    ensures var s' := Advance(s, Sweep(now));
            && AllSwept(s.desk, now, s'.desk, "") && s'.desk.claims == s.desk.claims && s'.pipe == s.pipe
            && ("" in s.desk.proposals ==> IsSwept(s.desk.proposals[""], now, s'.desk.proposals[""]))
  {
  }

  /** Rejecting a proposal that is pending and in time rejects it; any other meets the sweep alone. */
  lemma RejectionExactlyWhen(s: Sys, id: string, now: nat)
    requires Aligned(s.pipe)
    ensures var s' := Advance(s, Reject(id, now));
            && AllSwept(s.desk, now, s'.desk, id) && s'.desk.claims == s.desk.claims && s'.pipe == s.pipe
            && (id in s.desk.proposals ==>
                  if s.desk.proposals[id].status == Pending && s.desk.proposals[id].expiresAt > now
                  then DecidedAs(s.desk.proposals[id], Rejected, now, None, s'.desk.proposals[id])
                  else IsSwept(s.desk.proposals[id], now, s'.desk.proposals[id]))
  {
  }

  /** A new proposal is pending under an id of its own until its time to live is over. */
  lemma ProposalIsPending(s: Sys, o: Order, ttl: int, now: nat)
    requires Aligned(s.pipe)
    ensures var s' := Advance(s, Propose(o, ttl, now));
            var id := "prop-" + Decimal(now) + "-" + Decimal(s.desk.nextId + 1);
            && s'.desk.proposals == s.desk.proposals[id := Proposal(now, s.desk.nextId + 1, o, now + ttl, Pending, None, None)]
            && s'.desk.nextId == s.desk.nextId + 1 && s'.desk.claims == s.desk.claims && s'.pipe == s.pipe
  {
  }

  /** This call asks the pipeline for the proposal's own order. */
  predicate AsksFor(call: Call, id: string, o: Order, agentId: Option<string>, at: int) {
    && call.raw.Fields? && call.raw.id == Str(id)
    && call.raw.symbol == Str(o.symbol) && call.raw.side == Str(o.side)
    && call.raw.quantity == Num(o.quantity) && call.raw.price == Num(o.price) && call.raw.kind == Str("market")
    && call.raw.strategy == Str(if o.strategy.Some? then o.strategy.value else "approval")
    && call.raw.agentId == Str(if agentId.Some? then agentId.value else "approvals")
    && call.raw.correlationId == Str(if o.planId.Some? then o.planId.value else id)
    && call.raw.confidence == Num(if o.confidence.Some? then o.confidence.value else 0.7)
    && call.raw.timestamp == Num(at as real) && call.raw.idempotencyKey == Undefined
  }

  predicate InTimeFor(p: Proposal, a: Attempt) { p.status == Pending && p.expiresAt > a.sweptAt }

  /** The approval is under way: one more open claim on the proposal, made now. */
  ghost predicate OneMoreClaim(s: Sys, id: string, a: Attempt, s': Sys) {
    && |s'.desk.claims| == |s.desk.claims| + 1 && s'.desk.claims[..|s.desk.claims|] == s.desk.claims
    && var c := s'.desk.claims[|s.desk.claims|]; c.id == id && c.open && c.madeAt == a.checkedAt
  }

  /** The claim waits for the factory's promise, with a call for the proposal's own order in hand. */
  ghost predicate WaitsForPromise(s: Sys, id: string, o: Order, a: Attempt, s': Sys) {
    && OneMoreClaim(s, id, a, s') && s'.pipe == s.pipe
    && var w := s'.desk.claims[|s.desk.claims|].wait;
       w.ForFactory? && AsksFor(w.call, id, o, a.agentId, a.checkedAt)
       && w.call.world == a.world && w.call.uuid == a.uuid && w.call.fallbackId == a.fallbackId
  }

  /** The pipeline has been asked for this very order, and the claim waits for what that call returned. */
  ghost predicate Hands(pipe: Pipe, call: Call, pipe': Pipe, wait: Wait)
    requires Aligned(pipe)
  {
    && KeyOf(call).Some? && pipe' == Pipeline.Apply(pipe, Op.Execute(call))
    && wait == ForResult(HandleFor(pipe, KeyOf(call).value))
  }

  ghost predicate WaitsForExecution(s: Sys, id: string, o: Order, a: Attempt, s': Sys)
    requires Aligned(s.pipe)
  {
    && OneMoreClaim(s, id, a, s')
    && exists call :: AsksFor(call, id, o, a.agentId, a.checkedAt)
         && call.world == a.world && call.uuid == a.uuid && call.fallbackId == a.fallbackId
         && Hands(s.pipe, call, s'.pipe, s'.desk.claims[|s.desk.claims|].wait)
  }

  /** What a call of approve does when its proposal is pending after the sweep. */
  ghost predicate GoesAhead(s: Sys, id: string, a: Attempt, s': Sys)
    requires Aligned(s.pipe) && id in s.desk.proposals && id in s'.desk.proposals
  {
    var p, p' := s.desk.proposals[id], s'.desk.proposals[id];
    if a.checkedAt > p.expiresAt then
      DecidedAs(p, Expired, a.checkedAt, None, p') && s'.desk.claims == s.desk.claims && s'.pipe == s.pipe
    else
      match a.factory
      case Missing => p' == p && s'.desk.claims == s.desk.claims && s'.pipe == s.pipe
      case GivesNothing => p' == p && s'.desk.claims == s.desk.claims && s'.pipe == s.pipe
      case Throws => DecidedAs(p, Failed, a.checkedAt, None, p') && s'.desk.claims == s.desk.claims && s'.pipe == s.pipe
      case GivesPromise => p' == p && WaitsForPromise(s, id, p.order, a, s')
      case GivesPipeline => p' == p && WaitsForExecution(s, id, p.order, a, s')
  }

  lemma NoClaimWithoutTime(s: Sys, id: string, a: Attempt)
    requires Aligned(s.pipe) && !(id in s.desk.proposals && InTimeFor(s.desk.proposals[id], a))
    ensures Advance(s, Approve(id, a)) == SweptSys(s, a.sweptAt)
  {
    var swept := SweptSys(s, a.sweptAt);
    assert RefusalOf(swept.desk.proposals, id, a).Some?;
  }

  lemma InTimeAfterSweep(s: Sys, id: string, a: Attempt)
    requires id in s.desk.proposals && InTimeFor(s.desk.proposals[id], a)
    ensures id in SweptSys(s, a.sweptAt).desk.proposals
    ensures SweptSys(s, a.sweptAt).desk.proposals[id] == s.desk.proposals[id]
  {
  }

  lemma AttemptGoesAhead(swept: Sys, s': Sys, id: string, a: Attempt)
    requires Aligned(swept.pipe) && id in swept.desk.proposals && swept.desk.proposals[id].status == Pending
    requires s' == match RefusalOf(swept.desk.proposals, id, a)
                   case Some(why) =>
                     swept.(desk := swept.desk.(proposals := AfterRefusal(swept.desk.proposals, id, a, why)))
                   case None => Claimed(swept, id, a)
    ensures id in s'.desk.proposals && GoesAhead(swept, id, a, s')
    ensures s'.desk.proposals.Keys == swept.desk.proposals.Keys && s'.desk.nextId == swept.desk.nextId
    ensures forall other :: other in swept.desk.proposals && other != id ==>
              s'.desk.proposals[other] == swept.desk.proposals[other]
  {
    if RefusalOf(swept.desk.proposals, id, a).None? { ClaimGoesAhead(swept, Claimed(swept, id, a), id, a); }
  }

  lemma ClaimGoesAhead(swept: Sys, s': Sys, id: string, a: Attempt)
    requires Aligned(swept.pipe) && id in swept.desk.proposals && a.checkedAt <= swept.desk.proposals[id].expiresAt
    requires (a.factory.GivesPipeline? || a.factory.GivesPromise?) && s' == Claimed(swept, id, a)
    ensures s'.desk.proposals == swept.desk.proposals && s'.desk.nextId == swept.desk.nextId
    ensures GoesAhead(swept, id, a, s')
  {
    var call := CallFor(id, swept.desk.proposals[id].order, a);
    CallAsksFor(id, swept.desk.proposals[id].order, a, call);
    if a.factory.GivesPipeline? {
      assert Hands(swept.pipe, call, s'.pipe, s'.desk.claims[|swept.desk.claims|].wait);
    }
  }

  lemma CallAsksFor(id: string, o: Order, a: Attempt, call: Call)
    requires call == CallFor(id, o, a)
    ensures KeyOf(call).Some? && AsksFor(call, id, o, a.agentId, a.checkedAt)
    ensures call.world == a.world && call.uuid == a.uuid && call.fallbackId == a.fallbackId
  {
  }

  /**
   * A call of approve goes ahead if and only if its proposal is pending and in time after the sweep: then
   * the pipeline, or the one that the factory promises, is asked for the proposal's own symbol, side,
   * quantity and price. A proposal read as too late expires, one whose factory throws fails.
   */
  lemma ApprovalExactlyWhen(s: Sys, id: string, a: Attempt)
    requires Aligned(s.pipe)
    ensures var s' := Advance(s, Approve(id, a));
            && AllSwept(s.desk, a.sweptAt, s'.desk, id)
            && if id in s.desk.proposals && InTimeFor(s.desk.proposals[id], a) then GoesAhead(s, id, a, s')
               else && (id in s.desk.proposals ==> IsSwept(s.desk.proposals[id], a.sweptAt, s'.desk.proposals[id]))
                    && s'.desk.claims == s.desk.claims && s'.pipe == s.pipe
  {
    if id in s.desk.proposals && InTimeFor(s.desk.proposals[id], a) {
      ApprovalInTime(s, SweptSys(s, a.sweptAt), Advance(s, Approve(id, a)), id, a);
    } else {
      NoClaimWithoutTime(s, id, a);
    }
  }

  lemma ApprovalInTime(s: Sys, swept: Sys, s': Sys, id: string, a: Attempt)
    requires Aligned(s.pipe) && id in s.desk.proposals && InTimeFor(s.desk.proposals[id], a)
    requires swept == SweptSys(s, a.sweptAt)
    requires s' == match RefusalOf(swept.desk.proposals, id, a)
                   case Some(why) =>
                     swept.(desk := swept.desk.(proposals := AfterRefusal(swept.desk.proposals, id, a, why)))
                   case None => Claimed(swept, id, a)
    ensures AllSwept(s.desk, a.sweptAt, s'.desk, id) && id in s'.desk.proposals && GoesAhead(s, id, a, s')
  {
    InTimeAfterSweep(s, id, a);
    AttemptGoesAhead(swept, s', id, a);
    SameBut(s, swept, id, a, s');
  }

  /** Going ahead looks at nothing of the desk but the claims and the one proposal. */
  lemma SameBut(s: Sys, swept: Sys, id: string, a: Attempt, s': Sys)
    requires Aligned(s.pipe) && id in s.desk.proposals && id in swept.desk.proposals && id in s'.desk.proposals
    requires swept.pipe == s.pipe && swept.desk.claims == s.desk.claims && swept.desk.proposals[id] == s.desk.proposals[id]
    requires GoesAhead(swept, id, a, s')
    ensures GoesAhead(s, id, a, s')
  {
  }

  /** Why a call of approve is refused, given its proposal before the sweep. */
  predicate Refuses(s: Sys, id: string, a: Attempt, why: Refusal) {
    match why
    case NotFound => id !in s.desk.proposals
    case HasExpired =>
      id in s.desk.proposals
      && (s.desk.proposals[id].status == Expired
          || (s.desk.proposals[id].status == Pending && s.desk.proposals[id].expiresAt <= a.sweptAt))
    case NotPending =>
      id in s.desk.proposals && s.desk.proposals[id].status != Pending && s.desk.proposals[id].status != Expired
    case TooLate => Considered(s, id, a) && a.checkedAt > s.desk.proposals[id].expiresAt
    case NoPipeline => StillInTime(s, id, a) && (a.factory == Missing || a.factory == GivesNothing)
    case FactoryThrew => StillInTime(s, id, a) && a.factory == Throws
  }

  predicate Considered(s: Sys, id: string, a: Attempt) {
    id in s.desk.proposals && InTimeFor(s.desk.proposals[id], a)
  }

  predicate StillInTime(s: Sys, id: string, a: Attempt) {
    Considered(s, id, a) && a.checkedAt <= s.desk.proposals[id].expiresAt
  }

  /** The refusal a caller gets is the one whose ground there is; without any it gets the promise. */
  lemma RefusedExactlyWhen(s: Sys, id: string, a: Attempt)
    ensures forall why :: RefusalOf(SweptSys(s, a.sweptAt).desk.proposals, id, a) == Some(why) <==> Refuses(s, id, a, why)
    ensures RefusalOf(SweptSys(s, a.sweptAt).desk.proposals, id, a).None? <==>
              StillInTime(s, id, a) && (a.factory == GivesPipeline || a.factory == GivesPromise)
  {
  }

  /** A service begins with nothing: its first proposal has the serial number 1. */
  lemma BeginsWithNothing()
    ensures Approvals.Run([]) == Sys(Desk(map[], 0, []), Pipeline.EMPTY)
  {
  }

  /** The claim has ended and nothing else on the desk has, but for its proposal. */
  ghost predicate EndsClaim(s: Sys, claim: nat, wait: Wait, p': Proposal, s': Sys)
    requires claim < |s.desk.claims|
  {
    var c := s.desk.claims[claim];
    && s'.desk.claims == s.desk.claims[claim := Claim(c.id, wait, c.madeAt, false)]
    && s'.desk.proposals == s.desk.proposals[c.id := p'] && s'.desk.nextId == s.desk.nextId && s'.pipe == s.pipe
  }

  /** What the factory's promise comes to, for a claim that is open and waits for it. */
  lemma DeliveryDecides(s: Sys, claim: nat, delivery: Delivery, now: nat) returns (p': Proposal)
    requires Aligned(s.pipe) && AwaitsFactory(s, claim) && KeyOf(s.desk.claims[claim].wait.call).Some?
    ensures var c := s.desk.claims[claim];
            var p, s' := s.desk.proposals[c.id], Advance(s, FactoryDelivers(claim, delivery, now));
            match delivery
            case APipeline(w) =>
              && s'.desk.proposals == s.desk.proposals && s'.desk.nextId == s.desk.nextId
              && |s'.desk.claims| == |s.desk.claims|
              && s'.desk.claims == s.desk.claims[claim := c.(wait := s'.desk.claims[claim].wait)]
              && Hands(s.pipe, c.wait.call.(world := w), s'.pipe, s'.desk.claims[claim].wait)
            case AValue(r) => DecidedAs(p, Approved, now, Some(r), p') && EndsClaim(s, claim, Delivered(r), p', s')
            case NoValue => p' == p && EndsClaim(s, claim, c.wait, p', s')
            case ARejection => DecidedAs(p, Failed, now, None, p') && EndsClaim(s, claim, c.wait, p', s')
  {
    p' := Advance(s, FactoryDelivers(claim, delivery, now)).desk.proposals[s.desk.claims[claim].id];
    if delivery.APipeline? { assert KeyOf(s.desk.claims[claim].wait.call.(world := delivery.world)).Some?; }
    if delivery.NoValue? { assert s.desk.proposals[s.desk.claims[claim].id := p'] == s.desk.proposals; }
  }

  /** The result of what a claim waits for, if there is one: a remembered result, or that of the execution. */
  predicate HasResult(t: Table, h: Handle, r: Result) {
    h == Remembered(r) || (h.Promised? && h.exec < |t.execs| && t.execs[h.exec].phase == Resolved(r))
  }

  /**
   * A claim whose execution is over ends: with its result the proposal becomes approved, and without one,
   * because an exception escaped from the execution, it becomes failed.
   */
  lemma ExecutionDecides(s: Sys, claim: nat, now: nat) returns (p': Proposal)
    requires Aligned(s.pipe) && IsOpen(s, claim) && s.desk.claims[claim].wait.ForResult?
    ensures var c := s.desk.claims[claim];
            var h, p, s' := c.wait.handle, s.desk.proposals[c.id], Advance(s, Resume(claim, now));
            if h.Promised? && h.exec < |s.pipe.table.execs| && s.pipe.table.execs[h.exec].phase.AwaitingBroker?
            then s' == s
            else
              && EndsClaim(s, claim, c.wait, p', s')
              && (forall r :: HasResult(s.pipe.table, h, r) ==> DecidedAs(p, Approved, now, Some(r), p'))
              && ((forall r :: !HasResult(s.pipe.table, h, r)) ==> DecidedAs(p, Failed, now, None, p'))
  {
    var c := s.desk.claims[claim];
    p' := Advance(s, Resume(claim, now)).desk.proposals[c.id];
    if CanResume(s, claim) {
      var outcome := OutcomeOf(s.pipe.table, c.wait.handle);
      if outcome.Some? { assert HasResult(s.pipe.table, c.wait.handle, outcome.value); }
    }
  }
}
