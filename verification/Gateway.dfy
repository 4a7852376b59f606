/** Order admission: checks at submission, counting at decision, and what overlap does to the quota. */
module Gateway {
  import opened Common
  import opened Text

  datatype Permissions = Permissions(canTrade: bool, canSubmitOrders: bool, maxOrderSize: real, maxDailyOrders: int,
                                     allowedSymbols: seq<string>, allowedStrategies: seq<string>)

  datatype Config = Config(live: bool, liveTradingEnabled: bool, maxPendingRequests: int, requireRiskTicket: bool)

  /** A trade request; quantity and price are None when they are not finite numbers. */
  datatype Request = Request(symbol: string, side: string, kind: string, quantity: Option<real>, price: Option<real>,
                             agentId: string, strategy: Option<string>)

  /** A request with its three identifiers resolved. */
  datatype Submission = Submission(requestId: string, correlationId: string, key: string, request: Request)

  datatype Reason = Invalid | NotPermitted | TooManyPending | LiveDisabled | RiskRejected | MissingTicket | TimedOut | Passed

  datatype Decision = Decision(requestId: string, correlationId: string, approved: bool, reason: Reason, riskApproved: bool)

  /** What the bus and the log have seen: orders created, and resets of the daily counts. */
  datatype Event = OrderCreated(token: nat, submission: Submission) | CountsReset

  /** The counters, the daily counts and the log. */
  datatype Books = Books(total: nat, approved: nat, rejected: nat, daily: map<string, nat>, log: seq<Event>)

  /**
   * The promises: `waiting` holds the subscriptions still listening for a risk decision, numbered in
   * the order they were made; `decided` the outcome of every promise that has settled; `unrecorded` the
   * promises, waiting or not, whose follow-up (which fills the duplicate table) has not run yet.
   */
  datatype Desk = Desk(nextToken: nat, waiting: map<nat, Submission>, decided: map<nat, Decision>,
                       unrecorded: map<nat, Submission>, pendingByCorrelation: map<string, nat>)

  datatype State = State(books: Books, desk: Desk, pendingRequests: map<string, Request>, dedup: map<string, Decision>)

  const INITIAL := State(Books(0, 0, 0, map[], []), Desk(0, map[], map[], map[], map[]), map[], map[])

  /** What a caller gets: an answer at once, or the promise with this token. */
  datatype Reply = Now(decision: Decision) | Later(token: nat)

  /** What can end a wait. */
  datatype Verdict = Approved(hasTicket: bool) | Rejected | Expired

  datatype Op =
    | Submit(submission: Submission)
    | RiskEvent(correlationId: Option<string>, id: Option<string>, approved: bool, hasTicket: bool)
    | Timeout(token: nat)
    | Recorded(token: nat)
    | ResetDailyCounts

  type Perms = map<string, Permissions>

  // ---------------------------------------------------------------------------------------------
  // Permissions and identifiers

  const DEFAULT_PERMISSIONS := Permissions(true, true, 50000.0, 100, [], [])

  /** A partial update: what is absent keeps its value. */
  datatype Update = Update(canTrade: Option<bool>, canSubmitOrders: Option<bool>, maxOrderSize: Option<real>,
                           maxDailyOrders: Option<int>, allowedSymbols: Option<seq<string>>,
                           allowedStrategies: Option<seq<string>>)

  function Merged(p: Permissions, u: Update): Permissions {
    Permissions(u.canTrade.GetOr(p.canTrade), u.canSubmitOrders.GetOr(p.canSubmitOrders),
                u.maxOrderSize.GetOr(p.maxOrderSize), u.maxDailyOrders.GetOr(p.maxDailyOrders),
                u.allowedSymbols.GetOr(p.allowedSymbols), u.allowedStrategies.GetOr(p.allowedStrategies))
  }

  function Updated(perms: Perms, agent: string, u: Update): Perms {
    perms[agent := Merged(if agent in perms then perms[agent] else DEFAULT_PERMISSIONS, u)]
  }

  /** A request as it is submitted, any of its identifiers missing. */
  datatype RawRequest = RawRequest(id: Option<string>, clientOrderId: Option<string>, correlationId: Option<string>,
                                   idempotencyKey: Option<string>, request: Request)

  /** What the source generates or prints: two fresh ids, and the text of a number. */
  datatype Given = Given(requestId: string, correlationId: string, show: Option<real> -> string)

  function TrimmedOr(o: Option<string>, otherwise: string): string {
    if o.Some? && Trim(o.value) != "" then Trim(o.value) else otherwise
  }

  function DefaultKey(r: Request, show: Option<real> -> string): string {
    "gw:" + r.agentId + ":" + Upper(r.symbol) + ":" + r.side + ":" + show(r.quantity) + ":" + show(r.price)
  }

  function Resolved(raw: RawRequest, g: Given): Submission {
    Submission(TrimmedOr(raw.id, TrimmedOr(raw.clientOrderId, g.requestId)), TrimmedOr(raw.correlationId, g.correlationId),
               TrimmedOr(raw.idempotencyKey, TrimmedOr(raw.clientOrderId, DefaultKey(raw.request, g.show))), raw.request)
  }

  // ---------------------------------------------------------------------------------------------
  // Checks

  predicate ValidRequest(r: Request) {
    && r.symbol != "" && (r.side == "buy" || r.side == "sell") && (r.kind == "market" || r.kind == "limit")
    && r.quantity.Some? && r.quantity.value > 0.0 && r.price.Some? && r.price.value > 0.0 && r.agentId != ""
  }

  function Daily(b: Books, agent: string): nat { if agent in b.daily then b.daily[agent] else 0 }

  /** An agent without permissions on file is not limited at all. */
  predicate Permitted(perms: Perms, s: State, r: Request)
    requires ValidRequest(r)
  {
    r.agentId in perms ==>
      var p := perms[r.agentId];
      && p.canTrade && p.canSubmitOrders
      && (p.maxOrderSize > 0.0 ==> r.quantity.value * r.price.value <= p.maxOrderSize)
      && (p.maxDailyOrders > 0 ==> Daily(s.books, r.agentId) < p.maxDailyOrders)
      && (p.allowedSymbols != [] ==> Upper(r.symbol) in p.allowedSymbols)
      && (p.allowedStrategies != [] && r.strategy.Some? && r.strategy.value != "" ==> r.strategy.value in p.allowedStrategies)
  }

  /** Why a fresh submission is refused on the spot, if it is. */
  function Refusal(cfg: Config, perms: Perms, s: State, r: Request): Option<Reason> {
    if !ValidRequest(r) then Some(Invalid)
    else if !Permitted(perms, s, r) then Some(NotPermitted)
    else if |s.pendingRequests| >= cfg.maxPendingRequests then Some(TooManyPending)
    else if cfg.live && !cfg.liveTradingEnabled then Some(LiveDisabled)
    else None
  }

  // ---------------------------------------------------------------------------------------------
  // Steps

  /** A submission is looked at afresh only when neither table knows it. */
  predicate Known(s: State, sub: Submission) {
    sub.key in s.dedup || sub.correlationId in s.desk.pendingByCorrelation
  }

  predicate Admits(cfg: Config, perms: Perms, s: State, sub: Submission) {
    !Known(s, sub) && Refusal(cfg, perms, s, sub.request).None?
  }

  function ReplyTo(cfg: Config, perms: Perms, s: State, sub: Submission): Reply {
    if sub.key in s.dedup then Now(s.dedup[sub.key])
    else if sub.correlationId in s.desk.pendingByCorrelation then Later(s.desk.pendingByCorrelation[sub.correlationId])
    else
      match Refusal(cfg, perms, s, sub.request)
      case Some(reason) => Now(Decision(sub.requestId, sub.correlationId, false, reason, false))
      case None => Later(s.desk.nextToken)
  }

  function CountSubmission(b: Books): Books { b.(total := b.total + 1) }

  function CountRejection(b: Books): Books { b.(rejected := b.rejected + 1) }

  function CountOrder(b: Books, token: nat, sub: Submission): Books {
    b.(approved := b.approved + 1, log := b.log + [OrderCreated(token, sub)],
       daily := b.daily[sub.request.agentId := Daily(b, sub.request.agentId) + 1])
  }

  function CountDecision(b: Books, token: nat, sub: Submission, d: Decision): Books {
    if d.approved then CountOrder(b, token, sub) else CountRejection(b)
  }

  function OpenWait(d: Desk, sub: Submission): Desk {
    Desk(d.nextToken + 1, d.waiting[d.nextToken := sub], d.decided, d.unrecorded[d.nextToken := sub],
         d.pendingByCorrelation[sub.correlationId := d.nextToken])
  }

  function EndWait(d: Desk, token: nat, decision: Decision): Desk {
    d.(waiting := d.waiting - {token}, decided := d.decided[token := decision])
  }

  function FollowUp(d: Desk, token: nat): Desk
    requires token in d.unrecorded
  {
    d.(unrecorded := d.unrecorded - {token},
       pendingByCorrelation := d.pendingByCorrelation - {d.unrecorded[token].correlationId})
  }

  function Admit(s: State, sub: Submission): State {
    State(CountSubmission(s.books), OpenWait(s.desk, sub), s.pendingRequests[sub.requestId := sub.request], s.dedup)
  }

  function DecisionFor(cfg: Config, sub: Submission, verdict: Verdict): Decision {
    match verdict
    case Rejected => Decision(sub.requestId, sub.correlationId, false, RiskRejected, false)
    case Expired => Decision(sub.requestId, sub.correlationId, false, TimedOut, false)
    case Approved(hasTicket) =>
      if cfg.requireRiskTicket && !hasTicket then Decision(sub.requestId, sub.correlationId, false, MissingTicket, false)
      else Decision(sub.requestId, sub.correlationId, true, Passed, true)
  }

  function Settle(cfg: Config, s: State, token: nat, verdict: Verdict): State
    requires token in s.desk.waiting
  {
    var sub := s.desk.waiting[token];
    var d := DecisionFor(cfg, sub, verdict);
    State(CountDecision(s.books, token, sub, d), EndWait(s.desk, token, d), s.pendingRequests - {sub.requestId}, s.dedup)
  }

  function VerdictOf(op: Op): Verdict
    requires op.RiskEvent?
  {
    if op.approved then Approved(op.hasTicket) else Rejected
  }

  predicate Hears(d: Desk, token: nat, op: Op)
    requires op.RiskEvent?
  {
    token in d.waiting
    && (op.correlationId == Some(d.waiting[token].correlationId) || op.id == Some(d.waiting[token].requestId))
  }

  /** A subscription answers an event that matches it. */
  function AnswerIfHeard(cfg: Config, s: State, op: Op, token: nat): State
    requires op.RiskEvent?
  {
    if Hears(s.desk, token, op) then Settle(cfg, s, token, VerdictOf(op)) else s
  }

  /** The event reaches every subscription it matches, in the order the subscriptions were made. */
  function SettleMatching(cfg: Config, s: State, op: Op, n: nat): State
    requires op.RiskEvent?
  {
    if n == 0 then s else AnswerIfHeard(cfg, SettleMatching(cfg, s, op, n - 1), op, n - 1)
  }

  function Record(s: State, token: nat): State
    requires token in s.desk.unrecorded && token in s.desk.decided
  {
    s.(dedup := s.dedup[s.desk.unrecorded[token].key := s.desk.decided[token]], desk := FollowUp(s.desk, token))
  }

  function ResetDaily(b: Books): Books { b.(daily := map[], log := b.log + [CountsReset]) }

  function Apply(cfg: Config, perms: Perms, s: State, op: Op): State {
    match op
    case Submit(sub) =>
      if Known(s, sub) then s
      else if Refusal(cfg, perms, s, sub.request).Some? then s.(books := CountRejection(CountSubmission(s.books)))
      else Admit(s, sub)
    case RiskEvent(_, _, _, _) => SettleMatching(cfg, s, op, s.desk.nextToken)
    case Timeout(token) => if token in s.desk.waiting then Settle(cfg, s, token, Expired) else s
    case Recorded(token) => if token in s.desk.unrecorded && token in s.desk.decided then Record(s, token) else s
    case ResetDailyCounts => s.(books := ResetDaily(s.books))
  }

  function Run(cfg: Config, perms: Perms, ops: seq<Op>): State {
    if ops == [] then INITIAL else Apply(cfg, perms, Run(cfg, perms, ops[..|ops| - 1]), ops[|ops| - 1])
  }

  // ---------------------------------------------------------------------------------------------
  // Conservation

  function Created(log: seq<Event>): nat {
    if log == [] then 0 else Created(log[..|log| - 1]) + if log[|log| - 1].OrderCreated? then 1 else 0
  }

  /** Orders created for an agent since the counts were last reset. */
  function CreatedSinceReset(log: seq<Event>, agent: string): nat {
    if log == [] || log[|log| - 1].CountsReset? then 0
    else
      CreatedSinceReset(log[..|log| - 1], agent) + if log[|log| - 1].submission.request.agentId == agent then 1 else 0
  }

  ghost predicate Balanced(b: Books, outstanding: nat) {
    && b.total == b.approved + b.rejected + outstanding
    && b.approved == Created(b.log)
    && (forall agent :: Daily(b, agent) == CreatedSinceReset(b.log, agent))
  }

  /** Every promise ever made is waiting or decided, never both; follow-ups are outstanding for all that wait. */
  ghost predicate Tracked(d: Desk) {
    && (forall t: nat :: t < d.nextToken <==> t in d.waiting || t in d.decided)
    && (forall t :: t in d.waiting ==> t !in d.decided && t in d.unrecorded && d.unrecorded[t] == d.waiting[t])
    && (forall t :: t in d.unrecorded ==>
          && t < d.nextToken && d.unrecorded[t].correlationId in d.pendingByCorrelation
          && d.pendingByCorrelation[d.unrecorded[t].correlationId] == t)
  }

  lemma LogGrows(log: seq<Event>, e: Event)
    ensures Created(log + [e]) == Created(log) + if e.OrderCreated? then 1 else 0
    ensures forall agent :: CreatedSinceReset(log + [e], agent)
              == if e.CountsReset? then 0
                 else CreatedSinceReset(log, agent) + if e.submission.request.agentId == agent then 1 else 0
  {
    assert (log + [e])[..|log|] == log;
  }

  lemma DecisionKeepsBalance(b: Books, outstanding: nat, token: nat, sub: Submission, d: Decision)
    requires Balanced(b, outstanding + 1)
    ensures Balanced(CountDecision(b, token, sub, d), outstanding)
  {
    LogGrows(b.log, OrderCreated(token, sub));
  }

  lemma EndWaitKeeps(d: Desk, token: nat, decision: Decision)
    requires Tracked(d) && token in d.waiting
    ensures Tracked(EndWait(d, token, decision)) && |EndWait(d, token, decision).waiting| == |d.waiting| - 1
  {
    assert EndWait(d, token, decision).waiting.Keys == d.waiting.Keys - {token};
  }

  lemma OpenWaitKeeps(d: Desk, sub: Submission)
    requires Tracked(d) && sub.correlationId !in d.pendingByCorrelation
    ensures Tracked(OpenWait(d, sub)) && |OpenWait(d, sub).waiting| == |d.waiting| + 1
  {
    var d' := OpenWait(d, sub);
    assert d.nextToken !in d.waiting;
    forall t | t in d'.unrecorded
      ensures t < d'.nextToken && d'.unrecorded[t].correlationId in d'.pendingByCorrelation
      ensures d'.pendingByCorrelation[d'.unrecorded[t].correlationId] == t
    {
      if t != d.nextToken {
        assert d'.unrecorded[t] == d.unrecorded[t] && d.unrecorded[t].correlationId in d.pendingByCorrelation;
      }
    }
  }

  lemma FollowUpKeeps(d: Desk, token: nat)
    requires Tracked(d) && token in d.unrecorded && token in d.decided
    ensures Tracked(FollowUp(d, token))
  {
  }

  /** Induction over the subscriptions an event reaches: what each answer keeps, the event keeps. */
  lemma {:induction false} EventKeeps(cfg: Config, s: State, op: Op, n: nat, inv: State -> bool)
    requires op.RiskEvent? && inv(s)
    requires forall s': State, t: nat :: inv(s') ==> inv(AnswerIfHeard(cfg, s', op, t))
    ensures inv(SettleMatching(cfg, s, op, n))
  {
    if n > 0 { EventKeeps(cfg, s, op, n - 1, inv); }
  }

  lemma SettleMatchingTracked(cfg: Config, s: State, op: Op, n: nat)
    requires op.RiskEvent? && Tracked(s.desk)
    ensures Tracked(SettleMatching(cfg, s, op, n).desk)
  {
    forall s': State, t: nat | Tracked(s'.desk)
      ensures Tracked(AnswerIfHeard(cfg, s', op, t).desk)
    {
      if Hears(s'.desk, t, op) { EndWaitKeeps(s'.desk, t, DecisionFor(cfg, s'.desk.waiting[t], VerdictOf(op))); }
    }
    EventKeeps(cfg, s, op, n, (x: State) => Tracked(x.desk));
  }

  lemma StepTracked(cfg: Config, perms: Perms, s: State, op: Op)
    requires Tracked(s.desk)
    ensures Tracked(Apply(cfg, perms, s, op).desk)
  {
    match op
    case Submit(sub) => if !Known(s, sub) { OpenWaitKeeps(s.desk, sub); }
    case RiskEvent(_, _, _, _) => SettleMatchingTracked(cfg, s, op, s.desk.nextToken);
    case Timeout(token) =>
      if token in s.desk.waiting { EndWaitKeeps(s.desk, token, DecisionFor(cfg, s.desk.waiting[token], Expired)); }
    case Recorded(token) =>
      if token in s.desk.unrecorded && token in s.desk.decided { FollowUpKeeps(s.desk, token); }
    case ResetDailyCounts =>
  }

  /**
   * In every reachable state every admitted request is waiting or decided, never both, so it is settled
   * exactly once; and a correlation id in flight leads to the one promise that is in flight under it.
   */
  lemma {:induction false} EveryStateTracked(cfg: Config, perms: Perms, ops: seq<Op>)
    ensures Tracked(Run(cfg, perms, ops).desk)
  {
    if ops != [] {
      EveryStateTracked(cfg, perms, ops[..|ops| - 1]);
      StepTracked(cfg, perms, Run(cfg, perms, ops[..|ops| - 1]), ops[|ops| - 1]);
    }
  }

  lemma SettleBalanced(cfg: Config, s: State, token: nat, verdict: Verdict)
    requires token in s.desk.waiting && Balanced(s.books, |s.desk.waiting|)
    ensures Balanced(Settle(cfg, s, token, verdict).books, |Settle(cfg, s, token, verdict).desk.waiting|)
  {
    var sub := s.desk.waiting[token];
    assert (s.desk.waiting - {token}).Keys == s.desk.waiting.Keys - {token};
    DecisionKeepsBalance(s.books, |s.desk.waiting| - 1, token, sub, DecisionFor(cfg, sub, verdict));
  }

  lemma SettleMatchingBalanced(cfg: Config, s: State, op: Op, n: nat)
    requires op.RiskEvent? && Balanced(s.books, |s.desk.waiting|)
    ensures var s' := SettleMatching(cfg, s, op, n); Balanced(s'.books, |s'.desk.waiting|)
  {
    forall s': State, t: nat | Balanced(s'.books, |s'.desk.waiting|)
      ensures Balanced(AnswerIfHeard(cfg, s', op, t).books, |AnswerIfHeard(cfg, s', op, t).desk.waiting|)
    {
      if Hears(s'.desk, t, op) { SettleBalanced(cfg, s', t, VerdictOf(op)); }
    }
    EventKeeps(cfg, s, op, n, (x: State) => Balanced(x.books, |x.desk.waiting|));
  }

  lemma StepBalanced(cfg: Config, perms: Perms, s: State, op: Op)
    requires Balanced(s.books, |s.desk.waiting|) && s.desk.nextToken !in s.desk.waiting
    ensures var s' := Apply(cfg, perms, s, op); Balanced(s'.books, |s'.desk.waiting|)
  {
    match op
    case Submit(sub) =>
    case RiskEvent(_, _, _, _) => SettleMatchingBalanced(cfg, s, op, s.desk.nextToken);
    case Timeout(token) => if token in s.desk.waiting { SettleBalanced(cfg, s, token, Expired); }
    case Recorded(token) =>
    case ResetDailyCounts => LogGrows(s.books.log, CountsReset);
  }

  /**
   * In every reachable state: requests counted are those approved, rejected or still waiting; approvals
   * are exactly the orders created; and an agent's daily count is its orders since the last reset.
   */
  lemma {:induction false} EveryStateBalanced(cfg: Config, perms: Perms, ops: seq<Op>)
    ensures Balanced(Run(cfg, perms, ops).books, |Run(cfg, perms, ops).desk.waiting|)
  {
    if ops != [] {
      var s := Run(cfg, perms, ops[..|ops| - 1]);
      EveryStateBalanced(cfg, perms, ops[..|ops| - 1]);
      EveryStateTracked(cfg, perms, ops[..|ops| - 1]);
      StepBalanced(cfg, perms, s, ops[|ops| - 1]);
    }
  }

  // ---------------------------------------------------------------------------------------------
  // What is on file, and what is remembered

  /**
   * An agent without permissions on file is not limited at all; any update, even an empty one, puts it
   * under the default limits as well.
   */
  lemma UpdateImposesDefaults(perms: Perms, s: State, r: Request)
    requires ValidRequest(r) && r.agentId !in perms
    ensures Permitted(perms, s, r)
    ensures var updated := Updated(perms, r.agentId, Update(None, None, None, None, None, None));
            Permitted(updated, s, r) <==> r.quantity.value * r.price.value <= 50000.0 && Daily(s.books, r.agentId) < 100
  {
  }

  /** Two requests for the same order, the symbol in either case, that bring no key of their own. */
  predicate SameOrder(a: RawRequest, b: RawRequest) {
    && TrimmedOr(a.idempotencyKey, "") == "" && TrimmedOr(a.clientOrderId, "") == ""
    && TrimmedOr(b.idempotencyKey, "") == "" && TrimmedOr(b.clientOrderId, "") == ""
    && a.request.agentId == b.request.agentId && Upper(a.request.symbol) == Upper(b.request.symbol)
    && a.request.side == b.request.side && a.request.quantity == b.request.quantity && a.request.price == b.request.price
  }

  lemma SettleKeepsDedup(cfg: Config, s: State, op: Op, n: nat)
    requires op.RiskEvent?
    ensures SettleMatching(cfg, s, op, n).dedup == s.dedup
  {
    EventKeeps(cfg, s, op, n, (x: State) => x.dedup == s.dedup);
  }

  lemma {:induction false} DecisionsAreRemembered(cfg: Config, perms: Perms, ops: seq<Op>, more: seq<Op>)
    ensures Run(cfg, perms, ops).dedup.Keys <= Run(cfg, perms, ops + more).dedup.Keys
  {
    if more == [] {
      assert ops + more == ops;
    } else {
      var init, last := more[..|more| - 1], more[|more| - 1];
      DecisionsAreRemembered(cfg, perms, ops, init);
      assert (ops + more)[..|ops + more| - 1] == ops + init && (ops + more)[|ops + more| - 1] == last;
      var s := Run(cfg, perms, ops + init);
      if last.RiskEvent? { SettleKeepsDedup(cfg, s, last, s.desk.nextToken); }
    }
  }

  /**
   * Once a request without a key of its own has been decided and recorded, the same order is never
   * looked at again, whatever happens in between, daily resets included: it gets a remembered decision
   * and changes nothing.
   */
  lemma {:induction false} SameOrderIsNeverPlacedAgain(cfg: Config, perms: Perms, ops: seq<Op>, more: seq<Op>, a: RawRequest,
                                                       b: RawRequest, g: Given, h: Given)
    requires SameOrder(a, b) && g.show == h.show && Resolved(a, g).key in Run(cfg, perms, ops).dedup
    ensures var s, sub := Run(cfg, perms, ops + more), Resolved(b, h);
            && sub.key == Resolved(a, g).key && sub.key in s.dedup
            && ReplyTo(cfg, perms, s, sub) == Now(s.dedup[sub.key]) && Apply(cfg, perms, s, Submit(sub)) == s
  {
    DecisionsAreRemembered(cfg, perms, ops, more);
  }

  // ---------------------------------------------------------------------------------------------
  // The daily quota under overlap

  /** The requests of an agent that are still waiting. */
  function Outstanding(d: Desk, agent: string): set<nat> { set t | t in d.waiting && d.waiting[t].request.agentId == agent }

  /** The agent never has more than k requests outstanding at once. */
  ghost predicate OverlapWithin(cfg: Config, perms: Perms, ops: seq<Op>, agent: string, k: nat) {
    |Outstanding(Run(cfg, perms, ops).desk, agent)| <= k
    && (ops != [] ==> OverlapWithin(cfg, perms, ops[..|ops| - 1], agent, k))
  }

  lemma EndWaitOutstanding(d: Desk, token: nat, decision: Decision, agent: string)
    requires token in d.waiting
    ensures var mine := if d.waiting[token].request.agentId == agent then 1 else 0;
            |Outstanding(EndWait(d, token, decision), agent)| == |Outstanding(d, agent)| - mine
  {
    assert Outstanding(EndWait(d, token, decision), agent) == Outstanding(d, agent) - {token};
  }

  lemma OpenWaitOutstanding(d: Desk, sub: Submission, agent: string)
    requires d.nextToken !in d.waiting
    ensures var mine := if sub.request.agentId == agent then 1 else 0;
            |Outstanding(OpenWait(d, sub), agent)| == |Outstanding(d, agent)| + mine
  {
    assert Outstanding(OpenWait(d, sub), agent)
        == Outstanding(d, agent) + if sub.request.agentId == agent then {d.nextToken} else {};
  }

  /** Orders of the day plus outstanding requests: what deciding can only move or lower. */
  function Exposure(s: State, agent: string): nat { Daily(s.books, agent) + |Outstanding(s.desk, agent)| }

  lemma SettleExposure(cfg: Config, s: State, token: nat, verdict: Verdict, agent: string)
    requires token in s.desk.waiting
    ensures Exposure(Settle(cfg, s, token, verdict), agent) <= Exposure(s, agent)
  {
    EndWaitOutstanding(s.desk, token, DecisionFor(cfg, s.desk.waiting[token], verdict), agent);
  }

  lemma SettleMatchingExposure(cfg: Config, s: State, op: Op, n: nat, agent: string)
    requires op.RiskEvent?
    ensures Exposure(SettleMatching(cfg, s, op, n), agent) <= Exposure(s, agent)
  {
    forall s': State, t: nat
      ensures Exposure(AnswerIfHeard(cfg, s', op, t), agent) <= Exposure(s', agent)
    {
      if Hears(s'.desk, t, op) { SettleExposure(cfg, s', t, VerdictOf(op), agent); }
    }
    EventKeeps(cfg, s, op, n, (x: State) => Exposure(x, agent) <= Exposure(s, agent));
  }

  /** Only an admission raises the exposure, by one, and only while the agent is below its daily maximum. */
  lemma StepExposure(cfg: Config, perms: Perms, s: State, op: Op, agent: string)
    requires s.desk.nextToken !in s.desk.waiting && agent in perms && perms[agent].maxDailyOrders > 0
    ensures var s' := Apply(cfg, perms, s, op);
            || Exposure(s', agent) <= Exposure(s, agent)
            || (Daily(s'.books, agent) == Daily(s.books, agent) < perms[agent].maxDailyOrders)
  {
    match op
    case Submit(sub) => OpenWaitOutstanding(s.desk, sub, agent);
    case RiskEvent(_, _, _, _) => SettleMatchingExposure(cfg, s, op, s.desk.nextToken, agent);
    case Timeout(token) => if token in s.desk.waiting { SettleExposure(cfg, s, token, Expired, agent); }
    case Recorded(token) =>
    case ResetDailyCounts =>
  }

  /**
   * The quota is checked at submission and counted at decision. In every reachable state, orders of the
   * day plus outstanding requests stay within maxDailyOrders - 1 + k, where k bounds the overlap: so
   * without overlap (k = 1) the daily maximum itself is kept.
   */
  lemma {:induction false} QuotaUnderOverlap(cfg: Config, perms: Perms, ops: seq<Op>, agent: string, k: nat)
    requires agent in perms && perms[agent].maxDailyOrders > 0 && k >= 1
    requires OverlapWithin(cfg, perms, ops, agent, k)
    ensures Exposure(Run(cfg, perms, ops), agent) <= perms[agent].maxDailyOrders - 1 + k
  {
    if ops != [] {
      var init := ops[..|ops| - 1];
      QuotaUnderOverlap(cfg, perms, init, agent, k);
      EveryStateTracked(cfg, perms, init);
      StepExposure(cfg, perms, Run(cfg, perms, init), ops[|ops| - 1], agent);
    }
  }

  // ---------------------------------------------------------------------------------------------
  // The overlap is bounded by the pending limit when ids are distinct

  ghost predicate WaitsUnder(waiting: map<nat, Submission>, id: string) {
    exists t :: t in waiting && waiting[t].requestId == id
  }

  ghost predicate IdFree(d: Desk, id: string) { !WaitsUnder(d.waiting, id) }

  /** No request is admitted under the id of one that is still waiting. */
  ghost predicate DistinctIds(cfg: Config, perms: Perms, ops: seq<Op>) {
    ops != [] ==>
      var init, last := ops[..|ops| - 1], ops[|ops| - 1];
      && DistinctIds(cfg, perms, init)
      && (last.Submit? && Admits(cfg, perms, Run(cfg, perms, init), last.submission) ==>
            IdFree(Run(cfg, perms, init).desk, last.submission.requestId))
  }

  /** The pending table holds exactly the waiting requests, one entry each. */
  ghost predicate TableFits(waiting: map<nat, Submission>, pending: map<string, Request>) {
    && |pending| == |waiting|
    && (forall t :: t in waiting ==> waiting[t].requestId in pending)
    && (forall t, u :: t in waiting && u in waiting && t != u ==> waiting[t].requestId != waiting[u].requestId)
    && (forall id :: id in pending ==> WaitsUnder(waiting, id))
  }

  ghost predicate TableMatches(s: State) { TableFits(s.desk.waiting, s.pendingRequests) }

  lemma EntryGoes(waiting: map<nat, Submission>, pending: map<string, Request>, token: nat)
    requires TableFits(waiting, pending) && token in waiting
    ensures TableFits(waiting - {token}, pending - {waiting[token].requestId})
  {
    var id := waiting[token].requestId;
    var waiting', pending' := waiting - {token}, pending - {id};
    assert waiting'.Keys == waiting.Keys - {token} && pending'.Keys == pending.Keys - {id};
    forall other | other in pending'
      ensures WaitsUnder(waiting', other)
    {
      assert WaitsUnder(waiting, other);
      var t :| t in waiting && waiting[t].requestId == other;
      assert t in waiting';
    }
  }

  lemma EntryComes(waiting: map<nat, Submission>, pending: map<string, Request>, token: nat, sub: Submission)
    requires TableFits(waiting, pending) && token !in waiting && !WaitsUnder(waiting, sub.requestId)
    ensures TableFits(waiting[token := sub], pending[sub.requestId := sub.request])
  {
    var waiting', pending' := waiting[token := sub], pending[sub.requestId := sub.request];
    assert sub.requestId !in pending;
    forall other | other in pending'
      ensures WaitsUnder(waiting', other)
    {
      if other == sub.requestId {
        assert waiting'[token].requestId == other;
      } else {
        assert WaitsUnder(waiting, other);
        var t :| t in waiting && waiting[t].requestId == other;
        assert waiting'[t].requestId == other;
      }
    }
  }

  lemma SettleKeepsTable(cfg: Config, s: State, token: nat, verdict: Verdict)
    requires TableMatches(s) && token in s.desk.waiting
    ensures TableMatches(Settle(cfg, s, token, verdict))
  {
    EntryGoes(s.desk.waiting, s.pendingRequests, token);
  }

  lemma SettleMatchingKeepsTable(cfg: Config, s: State, op: Op, n: nat)
    requires op.RiskEvent? && TableMatches(s)
    ensures TableMatches(SettleMatching(cfg, s, op, n))
  {
    forall s': State, t: nat | TableMatches(s')
      ensures TableMatches(AnswerIfHeard(cfg, s', op, t))
    {
      if Hears(s'.desk, t, op) { SettleKeepsTable(cfg, s', t, VerdictOf(op)); }
    }
    EventKeeps(cfg, s, op, n, (x: State) => TableMatches(x));
  }

  lemma AdmitKeepsTable(s: State, sub: Submission)
    requires TableMatches(s) && IdFree(s.desk, sub.requestId) && s.desk.nextToken !in s.desk.waiting
    ensures TableMatches(Admit(s, sub))
  {
    EntryComes(s.desk.waiting, s.pendingRequests, s.desk.nextToken, sub);
  }

  lemma StepKeepsTable(cfg: Config, perms: Perms, s: State, op: Op)
    requires TableMatches(s) && s.desk.nextToken !in s.desk.waiting
    requires op.Submit? && Admits(cfg, perms, s, op.submission) ==> IdFree(s.desk, op.submission.requestId)
    ensures TableMatches(Apply(cfg, perms, s, op))
  {
    match op
    case Submit(sub) => if Admits(cfg, perms, s, sub) { AdmitKeepsTable(s, sub); }
    case RiskEvent(_, _, _, _) => SettleMatchingKeepsTable(cfg, s, op, s.desk.nextToken);
    case Timeout(token) => if token in s.desk.waiting { SettleKeepsTable(cfg, s, token, Expired); }
    case Recorded(token) =>
    case ResetDailyCounts =>
  }

  /** With distinct ids the pending count of the statistics is the number of requests still waiting. */
  lemma {:induction false} PendingCountsWaiting(cfg: Config, perms: Perms, ops: seq<Op>)
    requires DistinctIds(cfg, perms, ops)
    ensures TableMatches(Run(cfg, perms, ops))
  {
    if ops != [] {
      var init := ops[..|ops| - 1];
      PendingCountsWaiting(cfg, perms, init);
      EveryStateTracked(cfg, perms, init);
      StepKeepsTable(cfg, perms, Run(cfg, perms, init), ops[|ops| - 1]);
    }
  }

  lemma SettleShrinks(cfg: Config, s: State, token: nat, verdict: Verdict)
    requires token in s.desk.waiting
    ensures |Settle(cfg, s, token, verdict).pendingRequests| <= |s.pendingRequests|
  {
    var id := s.desk.waiting[token].requestId;
    assert (s.pendingRequests - {id}).Keys == s.pendingRequests.Keys - {id};
  }

  lemma SettleMatchingShrinks(cfg: Config, s: State, op: Op, n: nat)
    requires op.RiskEvent?
    ensures |SettleMatching(cfg, s, op, n).pendingRequests| <= |s.pendingRequests|
  {
    forall s': State, t: nat
      ensures |AnswerIfHeard(cfg, s', op, t).pendingRequests| <= |s'.pendingRequests|
    {
      if Hears(s'.desk, t, op) { SettleShrinks(cfg, s', t, VerdictOf(op)); }
    }
    EventKeeps(cfg, s, op, n, (x: State) => |x.pendingRequests| <= |s.pendingRequests|);
  }

  lemma StepWithinLimit(cfg: Config, perms: Perms, s: State, op: Op)
    requires |s.pendingRequests| <= cfg.maxPendingRequests
    ensures |Apply(cfg, perms, s, op).pendingRequests| <= cfg.maxPendingRequests
  {
    match op
    case Submit(sub) =>
      if Admits(cfg, perms, s, sub) { assert |Admit(s, sub).pendingRequests| <= |s.pendingRequests| + 1; }
    case RiskEvent(_, _, _, _) => SettleMatchingShrinks(cfg, s, op, s.desk.nextToken);
    case Timeout(token) => if token in s.desk.waiting { SettleShrinks(cfg, s, token, Expired); }
    case Recorded(token) =>
    case ResetDailyCounts =>
  }

  /** The pending table never outgrows its limit. */
  lemma {:induction false} PendingWithinLimit(cfg: Config, perms: Perms, ops: seq<Op>)
    requires cfg.maxPendingRequests >= 0
    ensures |Run(cfg, perms, ops).pendingRequests| <= cfg.maxPendingRequests
  {
    if ops != [] {
      PendingWithinLimit(cfg, perms, ops[..|ops| - 1]);
      StepWithinLimit(cfg, perms, Run(cfg, perms, ops[..|ops| - 1]), ops[|ops| - 1]);
    }
  }

  /** With distinct ids the pending limit bounds every agent's overlap. */
  lemma {:induction false} LimitBoundsOverlap(cfg: Config, perms: Perms, ops: seq<Op>, agent: string)
    requires DistinctIds(cfg, perms, ops) && cfg.maxPendingRequests >= 0
    ensures OverlapWithin(cfg, perms, ops, agent, cfg.maxPendingRequests)
  {
    var d := Run(cfg, perms, ops).desk;
    PendingCountsWaiting(cfg, perms, ops);
    PendingWithinLimit(cfg, perms, ops);
    assert Outstanding(d, agent) <= d.waiting.Keys;
    SubsetIsSmaller(Outstanding(d, agent), d.waiting.Keys);
    if ops != [] { LimitBoundsOverlap(cfg, perms, ops[..|ops| - 1], agent); }
  }

  /** So an agent's approvals of the day never exceed maxDailyOrders - 1 + maxPendingRequests. */
  lemma DailyOrdersBounded(cfg: Config, perms: Perms, ops: seq<Op>, agent: string)
    requires DistinctIds(cfg, perms, ops) && cfg.maxPendingRequests >= 1
    requires agent in perms && perms[agent].maxDailyOrders > 0
    ensures Exposure(Run(cfg, perms, ops), agent) <= perms[agent].maxDailyOrders - 1 + cfg.maxPendingRequests
  {
    LimitBoundsOverlap(cfg, perms, ops, agent);
    QuotaUnderOverlap(cfg, perms, ops, agent, cfg.maxPendingRequests);
  }

  // ---------------------------------------------------------------------------------------------
  // The gateway object

  class FinanceGateway {
    var config: Config
    var agentPermissions: Perms
    var books: Books
    var desk: Desk
    var pendingRequests: map<string, Request>
    var dedupByIdempotency: map<string, Decision>

    function View(): State
      reads this
    {
      State(books, desk, pendingRequests, dedupByIdempotency)
    }

    constructor (config: Config)
      ensures View() == INITIAL && this.config == config && agentPermissions == map[]
    {
      this.config, agentPermissions := config, map[];
      books, desk := INITIAL.books, INITIAL.desk;
      pendingRequests, dedupByIdempotency := map[], map[];
    }

    method SetAgentPermissions(agent: string, u: Update)
      modifies this`agentPermissions
      ensures agentPermissions == Updated(old(agentPermissions), agent, u)
    {
      var existing := if agent in agentPermissions then agentPermissions[agent] else DEFAULT_PERMISSIONS;
      agentPermissions := agentPermissions[agent := Merged(existing, u)];
    }

    /** The part of a submission that runs before anything is awaited. */
    method SubmitRequest(raw: RawRequest, g: Given) returns (reply: Reply)
      modifies this
      ensures config == old(config) && agentPermissions == old(agentPermissions)
      ensures View() == Apply(config, agentPermissions, old(View()), Submit(Resolved(raw, g)))
      ensures reply == ReplyTo(config, agentPermissions, old(View()), Resolved(raw, g))
    {
      var sub := Resolved(raw, g);
      reply := Process(sub);
    }

    method Process(sub: Submission) returns (reply: Reply)
      modifies this
      ensures config == old(config) && agentPermissions == old(agentPermissions)
      ensures View() == Apply(config, agentPermissions, old(View()), Submit(sub))
      ensures reply == ReplyTo(config, agentPermissions, old(View()), sub)
    {
      if sub.key in dedupByIdempotency { return Now(dedupByIdempotency[sub.key]); }
      if sub.correlationId in desk.pendingByCorrelation { return Later(desk.pendingByCorrelation[sub.correlationId]); }
      var refusal := Refusal(config, agentPermissions, View(), sub.request);
      books := books.(total := books.total + 1);
      if refusal.Some? {
        books := books.(rejected := books.rejected + 1);
        return Now(Decision(sub.requestId, sub.correlationId, false, refusal.value, false));
      }
      pendingRequests := pendingRequests[sub.requestId := sub.request];
      var token := desk.nextToken;
      desk := desk.(nextToken := token + 1, waiting := desk.waiting[token := sub],
                    unrecorded := desk.unrecorded[token := sub]);
      desk := desk.(pendingByCorrelation := desk.pendingByCorrelation[sub.correlationId := token]);
      return Later(token);
    }

    /** A subscription's decision: clean up first, then count and announce. */
    method Decide(token: nat, verdict: Verdict)
      requires token in desk.waiting
      modifies this`books, this`desk, this`pendingRequests
      ensures View() == Settle(config, old(View()), token, verdict)
    {
      var sub := desk.waiting[token];
      pendingRequests := pendingRequests - {sub.requestId};
      desk := desk.(waiting := desk.waiting - {token});
      var decision;
      if verdict.Rejected? {
        books := books.(rejected := books.rejected + 1);
        decision := Decision(sub.requestId, sub.correlationId, false, RiskRejected, false);
      } else if verdict.Expired? {
        books := books.(rejected := books.rejected + 1);
        decision := Decision(sub.requestId, sub.correlationId, false, TimedOut, false);
      } else if config.requireRiskTicket && !verdict.hasTicket {
        books := books.(rejected := books.rejected + 1);
        decision := Decision(sub.requestId, sub.correlationId, false, MissingTicket, false);
      } else {
        books := books.(approved := books.approved + 1);
        var agent := sub.request.agentId;
        var sofar := if agent in books.daily then books.daily[agent] else 0;
        books := books.(daily := books.daily[agent := sofar + 1]);
        books := books.(log := books.log + [OrderCreated(token, sub)]);
        decision := Decision(sub.requestId, sub.correlationId, true, Passed, true);
      }
      desk := desk.(decided := desk.decided[token := decision]);
    }

    method OnRiskEvent(op: Op)
      requires op.RiskEvent?
      modifies this
      ensures config == old(config) && agentPermissions == old(agentPermissions)
      ensures View() == Apply(config, agentPermissions, old(View()), op)
    {
      for token := 0 to desk.nextToken
        invariant config == old(config) && agentPermissions == old(agentPermissions)
        invariant View() == SettleMatching(config, old(View()), op, token)
      {
        if Hears(desk, token, op) { Decide(token, VerdictOf(op)); }
      }
    }

    /** A timer that was cleared with its subscription cannot fire. */
    method OnTimeout(token: nat)
      modifies this
      ensures config == old(config) && agentPermissions == old(agentPermissions)
      ensures View() == Apply(config, agentPermissions, old(View()), Timeout(token))
    {
      if token in desk.waiting { Decide(token, Expired); }
    }

    /** The follow-up of a settled promise. */
    method RecordDecision(token: nat)
      modifies this
      ensures config == old(config) && agentPermissions == old(agentPermissions)
      ensures View() == Apply(config, agentPermissions, old(View()), Recorded(token))
    {
      if token in desk.unrecorded && token in desk.decided {
        var sub := desk.unrecorded[token];
        dedupByIdempotency := dedupByIdempotency[sub.key := desk.decided[token]];
        desk := desk.(pendingByCorrelation := desk.pendingByCorrelation - {sub.correlationId});
        desk := desk.(unrecorded := desk.unrecorded - {token});
      }
    }

    method ResetCounts()
      modifies this
      ensures config == old(config) && agentPermissions == old(agentPermissions)
      ensures View() == Apply(config, agentPermissions, old(View()), ResetDailyCounts)
    {
      books := books.(daily := map[]);
      books := books.(log := books.log + [CountsReset]);
    }
  }
}
