/** What each step of the gateway does to a request, told by what the step is and nothing else. */
module GatewayOutcomes {
  import opened Common
  import opened Text
  import opened Gateway

  // ---------------------------------------------------------------------------------------------
  // Identifiers and permissions

  /** The first of these that is given and not blank, without the white space around it. */
  function FirstGiven(given: seq<Option<string>>, otherwise: string): string {
    if given == [] then otherwise
    else if given[0].Some? && Trim(given[0].value) != "" then Trim(given[0].value)
    else FirstGiven(given[1..], otherwise)
  }

  function ColonSeparated(parts: seq<string>): string {
    if parts == [] then "" else if |parts| == 1 then parts[0] else parts[0] + ":" + ColonSeparated(parts[1..])
  }

  lemma JoinOne(first: string, rest: seq<string>)
    requires rest != []
    ensures ColonSeparated([first] + rest) == first + ":" + ColonSeparated(rest)
  {
    assert ([first] + rest)[1..] == rest;
  }

  /** The key of a request that brings none: what makes it the same order as another. */
  lemma DefaultKeyNamesTheOrder(r: Request, show: Option<real> -> string)
    ensures DefaultKey(r, show)
         == ColonSeparated(["gw"] + ([r.agentId] + ([Upper(r.symbol)] + ([r.side] + ([show(r.quantity)] + [show(r.price)])))))
  {
    var last := [show(r.price)];
    JoinOne(show(r.quantity), last);
    JoinOne(r.side, [show(r.quantity)] + last);
    JoinOne(Upper(r.symbol), [r.side] + ([show(r.quantity)] + last));
    JoinOne(r.agentId, [Upper(r.symbol)] + ([r.side] + ([show(r.quantity)] + last)));
    JoinOne("gw", [r.agentId] + ([Upper(r.symbol)] + ([r.side] + ([show(r.quantity)] + last))));
    FiveColons("gw", r.agentId, Upper(r.symbol), r.side, show(r.quantity), show(r.price));
    assert "gw" + ":" == "gw:";
  }

  lemma FiveColons(a: string, b: string, c: string, d: string, e: string, f: string)
    ensures a + ":" + (b + ":" + (c + ":" + (d + ":" + (e + ":" + f))))
         == a + ":" + b + ":" + c + ":" + d + ":" + e + ":" + f
  {
  }

  lemma FirstOfTwo(a: Option<string>, b: Option<string>, otherwise: string)
    ensures FirstGiven([a], otherwise) == TrimmedOr(a, otherwise)
    ensures FirstGiven([a, b], otherwise) == TrimmedOr(a, TrimmedOr(b, otherwise))
  {
    assert [a, b][1..] == [b] && [b][1..] == [] && [a][1..] == [];
    assert FirstGiven([b], otherwise) == TrimmedOr(b, otherwise);
  }

  /** Where the three identifiers of a submission come from. */
  lemma IdentifiersAre(raw: RawRequest, g: Given)
    ensures var sub, clientId := Resolved(raw, g), raw.clientOrderId;
            && sub.request == raw.request
            && sub.requestId == FirstGiven([raw.id, clientId], g.requestId)
            && sub.correlationId == FirstGiven([raw.correlationId], g.correlationId)
            && sub.key == FirstGiven([raw.idempotencyKey, clientId], DefaultKey(raw.request, g.show))
  {
    FirstOfTwo(raw.id, raw.clientOrderId, g.requestId);
    FirstOfTwo(raw.correlationId, None, g.correlationId);
    FirstOfTwo(raw.idempotencyKey, raw.clientOrderId, DefaultKey(raw.request, g.show));
  }

  /** One field after an update: the new value if there is one, else the old one, else the default. */
  predicate Field<T(==)>(new_: Option<T>, old_: Option<T>, default: T, value: T) {
    value == if new_.Some? then new_.value else if old_.Some? then old_.value else default
  }

  /** A partial update changes the fields it names for the agent it names, over what was on file or the defaults. */
  lemma UpdateChangesWhatItNames(perms: Perms, agent: string, u: Update)
    ensures var perms' := Updated(perms, agent, u);
            var now, was := perms'[agent], if agent in perms then Some(perms[agent]) else None;
            && perms'.Keys == perms.Keys + {agent}
            && (forall other :: other in perms && other != agent ==> perms'[other] == perms[other])
            && Field(u.canTrade, if was.Some? then Some(was.value.canTrade) else None, true, now.canTrade)
            && Field(u.canSubmitOrders, if was.Some? then Some(was.value.canSubmitOrders) else None, true, now.canSubmitOrders)
            && Field(u.maxOrderSize, if was.Some? then Some(was.value.maxOrderSize) else None, 50000.0, now.maxOrderSize)
            && Field(u.maxDailyOrders, if was.Some? then Some(was.value.maxDailyOrders) else None, 100, now.maxDailyOrders)
            && Field(u.allowedSymbols, if was.Some? then Some(was.value.allowedSymbols) else None, [], now.allowedSymbols)
            && Field(u.allowedStrategies, if was.Some? then Some(was.value.allowedStrategies) else None, [],
                     now.allowedStrategies)
  {
  }

  // ---------------------------------------------------------------------------------------------
  // Admission

  /** The rules of admission, one by one. */
  ghost predicate MayEnter(cfg: Config, perms: Perms, s: State, r: Request) {
    && |r.symbol| > 0 && |r.agentId| > 0 && r.side in ["buy", "sell"] && r.kind in ["market", "limit"]
    && r.quantity.Some? && r.price.Some? && r.quantity.value > 0.0 && r.price.value > 0.0
    && (r.agentId in perms ==> FitsPermissions(perms[r.agentId], s, r, r.quantity.value * r.price.value))
    && |s.pendingRequests| < cfg.maxPendingRequests && !(cfg.live && !cfg.liveTradingEnabled)
  }

  ghost predicate FitsPermissions(p: Permissions, s: State, r: Request, value: real) {
    && p.canTrade && p.canSubmitOrders && !(p.maxOrderSize > 0.0 && value > p.maxOrderSize)
    && !(p.maxDailyOrders > 0 && CountOf(s.books.daily, r.agentId) >= p.maxDailyOrders)
    && (|p.allowedSymbols| > 0 ==> Upper(r.symbol) in p.allowedSymbols)
    && (|p.allowedStrategies| > 0 && r.strategy.Some? && |r.strategy.value| > 0 ==>
          r.strategy.value in p.allowedStrategies)
  }

  function CountOf(daily: map<string, nat>, agent: string): nat { if agent in daily then daily[agent] else 0 }

  /** Nobody has asked under this key, or is asking under this correlation. */
  predicate IsNew(s: State, sub: Submission) { sub.key !in s.dedup && sub.correlationId !in s.desk.pendingByCorrelation }

  /** A submission opens a wait, under the next token, if and only if it is new and every rule is kept. */
  lemma AdmittedExactlyWhen(cfg: Config, perms: Perms, s: State, sub: Submission)
    ensures var s' := Apply(cfg, perms, s, Submit(sub));
            && (s'.desk.nextToken != s.desk.nextToken <==> IsNew(s, sub) && MayEnter(cfg, perms, s, sub.request))
            && (IsNew(s, sub) && MayEnter(cfg, perms, s, sub.request) ==>
                  && s'.desk == Desk(s.desk.nextToken + 1, s.desk.waiting[s.desk.nextToken := sub], s.desk.decided,
                                     s.desk.unrecorded[s.desk.nextToken := sub],
                                     s.desk.pendingByCorrelation[sub.correlationId := s.desk.nextToken])
                  && s'.pendingRequests == s.pendingRequests[sub.requestId := sub.request] && s'.dedup == s.dedup
                  && s'.books == s.books.(total := s.books.total + 1)
                  && ReplyTo(cfg, perms, s, sub) == Later(s.desk.nextToken))
  {
    var r := sub.request;
    if r.quantity.Some? && r.price.Some? {
      assert MayEnter(cfg, perms, s, r) <==> Refusal(cfg, perms, s, r).None?;
    }
  }

  /** Why a new request is turned away: the first of these that is the case. */
  lemma TurnedAwayFor(cfg: Config, perms: Perms, s: State, sub: Submission)
    requires IsNew(s, sub) && !MayEnter(cfg, perms, s, sub.request)
    ensures var s', reply, r := Apply(cfg, perms, s, Submit(sub)), ReplyTo(cfg, perms, s, sub), sub.request;
            && s' == s.(books := s.books.(total := s.books.total + 1, rejected := s.books.rejected + 1))
            && reply.Now? && reply.decision.requestId == sub.requestId && reply.decision.correlationId == sub.correlationId
            && !reply.decision.approved && !reply.decision.riskApproved
            && reply.decision.reason
               == if r.symbol == "" || r.side !in ["buy", "sell"] || r.kind !in ["market", "limit"] || r.agentId == ""
                     || !(r.quantity.Some? && r.quantity.value > 0.0 && r.price.Some? && r.price.value > 0.0)
                  then Invalid
                  else if r.agentId in perms && !FitsPermissions(perms[r.agentId], s, r, r.quantity.value * r.price.value)
                  then NotPermitted
                  else if |s.pendingRequests| >= cfg.maxPendingRequests then TooManyPending
                  else LiveDisabled
  {
    var r := sub.request;
    if r.quantity.Some? && r.price.Some? {
      assert MayEnter(cfg, perms, s, r) <==> Refusal(cfg, perms, s, r).None?;
    }
  }

  /** A submission that is not new changes nothing: it gets the remembered decision, or waits with the other one. */
  lemma RepeatedChangesNothing(cfg: Config, perms: Perms, s: State, sub: Submission)
    requires !IsNew(s, sub)
    ensures Apply(cfg, perms, s, Submit(sub)) == s
    ensures ReplyTo(cfg, perms, s, sub)
         == if sub.key in s.dedup then Now(s.dedup[sub.key]) else Later(s.desk.pendingByCorrelation[sub.correlationId])
  {
  }

  // ---------------------------------------------------------------------------------------------
  // The end of a wait

  /** The event names the waiting request by its correlation id or by its own. */
  predicate Heard(s: State, op: Op, t: nat) {
    && op.RiskEvent? && t in s.desk.waiting
    && ((op.correlationId.Some? && op.correlationId.value == s.desk.waiting[t].correlationId)
        || (op.id.Some? && op.id.value == s.desk.waiting[t].requestId))
  }

  predicate Ends(s: State, op: Op, t: nat) { Heard(s, op, t) || (op.Timeout? && op.token == t && t in s.desk.waiting) }

  /** Risk says yes, and with a ticket where one is required. */
  predicate Grants(cfg: Config, op: Op) { op.RiskEvent? && op.approved && !(cfg.requireRiskTicket && !op.hasTicket) }

  /** The decision a request must get from what ended its wait. */
  predicate RightDecision(cfg: Config, op: Op, sub: Submission, d: Decision) {
    && d.requestId == sub.requestId && d.correlationId == sub.correlationId
    && (d.approved <==> Grants(cfg, op)) && (d.riskApproved <==> Grants(cfg, op))
    && (op.Timeout? ==> d.reason == TimedOut)
    && (op.RiskEvent? && !op.approved ==> d.reason == RiskRejected)
    && (op.RiskEvent? && op.approved && !Grants(cfg, op) ==> d.reason == MissingTicket)
    && (Grants(cfg, op) ==> d.reason == Passed)
  }

  /** The orders for the requests among the first n that hear the event, in the order they were admitted. */
  function Orders(s: State, op: Op, n: nat): seq<Event> {
    if n == 0 then []
    else Orders(s, op, n - 1) + if Heard(s, op, n - 1) then [OrderCreated(n - 1, s.desk.waiting[n - 1])] else []
  }

  /** How many of them there are, and how many of one agent's. */
  function HeardBy(s: State, op: Op, n: nat): nat {
    if n == 0 then 0 else HeardBy(s, op, n - 1) + if Heard(s, op, n - 1) then 1 else 0
  }

  function HeardByAgent(s: State, op: Op, n: nat, agent: string): nat {
    if n == 0 then 0
    else
      HeardByAgent(s, op, n - 1, agent)
      + if Heard(s, op, n - 1) && s.desk.waiting[n - 1].request.agentId == agent then 1 else 0
  }

  /** Where request t stands once those below n have answered. */
  ghost predicate Stands(cfg: Config, s: State, s': State, op: Op, n: nat, t: nat) {
    if t < n && Heard(s, op, t) then
      t !in s'.desk.waiting && t in s'.desk.decided && RightDecision(cfg, op, s.desk.waiting[t], s'.desk.decided[t])
    else
      && (t in s'.desk.waiting <==> t in s.desk.waiting)
      && (t in s.desk.waiting ==> s'.desk.waiting[t] == s.desk.waiting[t])
      && (t in s'.desk.decided <==> t in s.desk.decided)
      && (t in s.desk.decided ==> s'.desk.decided[t] == s.desk.decided[t])
  }

  ghost predicate BooksStand(cfg: Config, s: State, b: Books, op: Op, n: nat) {
    && b.total == s.books.total
    && if Grants(cfg, op) then
         && b.approved == s.books.approved + HeardBy(s, op, n) && b.rejected == s.books.rejected
         && b.log == s.books.log + Orders(s, op, n)
         && forall agent :: CountOf(b.daily, agent) == CountOf(s.books.daily, agent) + HeardByAgent(s, op, n, agent)
       else b == s.books.(rejected := s.books.rejected + HeardBy(s, op, n))
  }

  ghost predicate RestStands(s: State, s': State) {
    && s'.dedup == s.dedup && s'.desk.nextToken == s.desk.nextToken && s'.desk.unrecorded == s.desk.unrecorded
    && s'.desk.pendingByCorrelation == s.desk.pendingByCorrelation
  }

  /** The pending requests are those there were, but for the ones that the heard requests were known by. */
  ghost predicate PendingStands(s: State, s': State, op: Op, n: nat) {
    && (forall id :: id in s'.pendingRequests ==>
          id in s.pendingRequests && s'.pendingRequests[id] == s.pendingRequests[id] && !Named(s, op, n, id))
    && (forall id :: id in s.pendingRequests && id !in s'.pendingRequests ==> Named(s, op, n, id))
  }

  /** One of the requests below n that hear the event has this id. */
  predicate Named(s: State, op: Op, n: nat, id: string) {
    n > 0 && (Named(s, op, n - 1, id) || (Heard(s, op, n - 1) && s.desk.waiting[n - 1].requestId == id))
  }

  lemma {:induction false} PendingSoFar(cfg: Config, s: State, op: Op, n: nat)
    requires op.RiskEvent?
    ensures PendingStands(s, SettleMatching(cfg, s, op, n), op, n)
  {
    if n > 0 {
      PendingSoFar(cfg, s, op, n - 1);
      AnswersSoFar(cfg, s, op, n - 1);
      var before, after := SettleMatching(cfg, s, op, n - 1), SettleMatching(cfg, s, op, n);
      assert Stands(cfg, s, before, op, n - 1, n - 1);
      assert after.pendingRequests
          == if Heard(s, op, n - 1) then before.pendingRequests - {s.desk.waiting[n - 1].requestId} else before.pendingRequests;
    }
  }

  lemma {:induction false} AnswersSoFar(cfg: Config, s: State, op: Op, n: nat)
    requires op.RiskEvent?
    ensures var s' := SettleMatching(cfg, s, op, n); RestStands(s, s') && forall t :: Stands(cfg, s, s', op, n, t)
  {
    if n > 0 {
      AnswersSoFar(cfg, s, op, n - 1);
      var before, after := SettleMatching(cfg, s, op, n - 1), SettleMatching(cfg, s, op, n);
      assert Stands(cfg, s, before, op, n - 1, n - 1);
      forall t
        ensures Stands(cfg, s, after, op, n, t)
      {
        assert Stands(cfg, s, before, op, n - 1, t);
      }
    }
  }

  lemma {:induction false} BooksSoFar(cfg: Config, s: State, op: Op, n: nat)
    requires op.RiskEvent?
    ensures BooksStand(cfg, s, SettleMatching(cfg, s, op, n).books, op, n)
  {
    if n > 0 {
      BooksSoFar(cfg, s, op, n - 1);
      AnswersSoFar(cfg, s, op, n - 1);
      var before := SettleMatching(cfg, s, op, n - 1);
      assert Stands(cfg, s, before, op, n - 1, n - 1);
      OneAnswerBooked(cfg, s, before, op, n);
    } else {
      assert s.books.log + [] == s.books.log;
    }
  }

  lemma OneAnswerBooked(cfg: Config, s: State, before: State, op: Op, n: nat)
    requires op.RiskEvent? && n > 0 && BooksStand(cfg, s, before.books, op, n - 1)
    requires Stands(cfg, s, before, op, n - 1, n - 1)
    ensures BooksStand(cfg, s, AnswerIfHeard(cfg, before, op, n - 1).books, op, n)
  {
    var after := AnswerIfHeard(cfg, before, op, n - 1);
    if Grants(cfg, op) {
      ConcatAssociates(s.books.log, Orders(s, op, n - 1), Orders(s, op, n)[|Orders(s, op, n - 1)|..]);
      assert Orders(s, op, n)
          == Orders(s, op, n - 1) + if Heard(s, op, n - 1) then [OrderCreated(n - 1, s.desk.waiting[n - 1])] else [];
      assert after.books.log == s.books.log + Orders(s, op, n);
    }
  }

  /**
   * A risk event, in any state: exactly the waiting requests it names are decided, each rightly; when it
   * grants, each gets one order and one count, in the order of admission, and otherwise each counts as
   * rejected and neither the log nor the daily counts nor the approvals change.
   */
  lemma RiskEventDecides(cfg: Config, perms: Perms, s: State, op: Op)
    requires op.RiskEvent? && Tracked(s.desk)
    ensures var s' := Apply(cfg, perms, s, op);
            && RestStands(s, s') && BooksStand(cfg, s, s'.books, op, s.desk.nextToken)
            && PendingStands(s, s', op, s.desk.nextToken)
            && forall t :: Stands(cfg, s, s', op, s.desk.nextToken, t)
  {
    AnswersSoFar(cfg, s, op, s.desk.nextToken);
    BooksSoFar(cfg, s, op, s.desk.nextToken);
    PendingSoFar(cfg, s, op, s.desk.nextToken);
  }

  lemma TimeoutRejects(cfg: Config, perms: Perms, s: State, t: nat)
    ensures var s' := Apply(cfg, perms, s, Timeout(t));
            if t in s.desk.waiting then
              && s'.books == s.books.(rejected := s.books.rejected + 1) && RestStands(s, s')
              && s'.pendingRequests == s.pendingRequests - {s.desk.waiting[t].requestId}
              && s'.desk.waiting == s.desk.waiting - {t}
              && s'.desk.decided.Keys == s.desk.decided.Keys + {t}
              && s'.desk.decided[t]
                 == Decision(s.desk.waiting[t].requestId, s.desk.waiting[t].correlationId, false, TimedOut, false)
              && (forall u :: u in s.desk.decided && u != t ==> s'.desk.decided[u] == s.desk.decided[u])
            else s' == s
  {
  }

  /** The follow-up remembers exactly the decision that was made, under the request's key, and frees its correlation. */
  lemma FollowUpRemembers(cfg: Config, perms: Perms, s: State, t: nat)
    ensures var s' := Apply(cfg, perms, s, Recorded(t));
            if t in s.desk.unrecorded && t in s.desk.decided then
              var sub := s.desk.unrecorded[t];
              && s'.dedup == s.dedup[sub.key := s.desk.decided[t]] && s'.books == s.books
              && s'.pendingRequests == s.pendingRequests && s'.desk.unrecorded == s.desk.unrecorded - {t}
              && s'.desk.pendingByCorrelation == s.desk.pendingByCorrelation - {sub.correlationId}
              && s'.desk.waiting == s.desk.waiting && s'.desk.decided == s.desk.decided
            else s' == s
  {
  }

  lemma ResetForgetsOnlyCounts(cfg: Config, perms: Perms, s: State)
    ensures var s' := Apply(cfg, perms, s, ResetDailyCounts);
            && s' == s.(books := s'.books) && (forall agent :: CountOf(s'.books.daily, agent) == 0)
            && s'.books == s.books.(daily := s'.books.daily, log := s.books.log + [CountsReset])
  {
  }

  // ---------------------------------------------------------------------------------------------
  // Orders and decisions over whole runs

  ghost predicate OrderedIn(log: seq<Event>, t: nat, sub: Submission) {
    exists i :: 0 <= i < |log| && log[i] == OrderCreated(t, sub)
  }

  lemma {:induction false} OrdersAre(s: State, op: Op, n: nat, t: nat, sub: Submission)
    ensures OrderedIn(Orders(s, op, n), t, sub) <==> t < n && Heard(s, op, t) && s.desk.waiting[t] == sub
  {
    if n > 0 {
      OrdersAre(s, op, n - 1, t, sub);
      var init, all := Orders(s, op, n - 1), Orders(s, op, n);
      if OrderedIn(init, t, sub) {
        var i :| 0 <= i < |init| && init[i] == OrderCreated(t, sub);
        assert all[i] == init[i];
      }
      if OrderedIn(all, t, sub) {
        var i :| 0 <= i < |all| && all[i] == OrderCreated(t, sub);
        if i < |init| { assert init[i] == OrderCreated(t, sub); }
      }
      if Heard(s, op, n - 1) { assert all[|init|] == OrderCreated(n - 1, s.desk.waiting[n - 1]); }
    }
  }

  lemma OrderedInConcat(a: seq<Event>, b: seq<Event>, t: nat, sub: Submission)
    ensures OrderedIn(a + b, t, sub) <==> OrderedIn(a, t, sub) || OrderedIn(b, t, sub)
  {
    if OrderedIn(a, t, sub) {
      var i :| 0 <= i < |a| && a[i] == OrderCreated(t, sub);
      assert (a + b)[i] == a[i];
    }
    if OrderedIn(b, t, sub) {
      var i :| 0 <= i < |b| && b[i] == OrderCreated(t, sub);
      assert (a + b)[|a| + i] == b[i];
    }
    if OrderedIn(a + b, t, sub) {
      var i :| 0 <= i < |a + b| && (a + b)[i] == OrderCreated(t, sub);
      if i < |a| { assert a[i] == OrderCreated(t, sub); } else { assert b[i - |a|] == OrderCreated(t, sub); }
    }
  }

  /**
   * An order appears in a step if and only if the step is a risk event that names the waiting request,
   * approves it and brings a ticket where one is required. No other step creates one.
   */
  lemma OrderCreatedExactlyWhen(cfg: Config, perms: Perms, ops: seq<Op>, op: Op, t: nat, sub: Submission)
    ensures var s := Run(cfg, perms, ops);
            var s' := Apply(cfg, perms, s, op);
            OrderedIn(s'.books.log, t, sub)
            <==> OrderedIn(s.books.log, t, sub) || (Heard(s, op, t) && s.desk.waiting[t] == sub && Grants(cfg, op))
  {
    var s := Run(cfg, perms, ops);
    EveryStateTracked(cfg, perms, ops);
    match op
    case RiskEvent(_, _, _, _) =>
      RiskEventDecides(cfg, perms, s, op);
      OrdersAre(s, op, s.desk.nextToken, t, sub);
      OrderedInConcat(s.books.log, Orders(s, op, s.desk.nextToken), t, sub);
    case Timeout(u) => TimeoutRejects(cfg, perms, s, u);
    case Recorded(u) => FollowUpRemembers(cfg, perms, s, u);
    case ResetDailyCounts => OrderedInConcat(s.books.log, [CountsReset], t, sub);
    case Submit(_) =>
  }

  /** Operation k of the run ended the wait of request t, which was admitted as sub. */
  ghost predicate EndedBy(cfg: Config, perms: Perms, ops: seq<Op>, k: nat, t: nat, sub: Submission) {
    && k < |ops| && Ends(Run(cfg, perms, ops[..k]), ops[k], t) && Run(cfg, perms, ops[..k]).desk.waiting[t] == sub
  }

  lemma StepDecides(cfg: Config, perms: Perms, s: State, op: Op, t: nat)
    requires Tracked(s.desk) && t in Apply(cfg, perms, s, op).desk.decided
    ensures var d := Apply(cfg, perms, s, op).desk.decided[t];
            || (t in s.desk.decided && s.desk.decided[t] == d)
            || (Ends(s, op, t) && RightDecision(cfg, op, s.desk.waiting[t], d))
  {
    match op
    case RiskEvent(_, _, _, _) =>
      RiskEventDecides(cfg, perms, s, op);
      assert Stands(cfg, s, Apply(cfg, perms, s, op), op, s.desk.nextToken, t);
    case Timeout(u) => TimeoutRejects(cfg, perms, s, u);
    case Recorded(u) => FollowUpRemembers(cfg, perms, s, u);
    case _ =>
  }

  /** Every decision of every run was made by what ended the wait, and is the right one for it. */
  lemma {:induction false} EveryDecisionHasItsCause(cfg: Config, perms: Perms, ops: seq<Op>, t: nat)
    returns (k: nat, sub: Submission)
    requires t in Run(cfg, perms, ops).desk.decided
    ensures EndedBy(cfg, perms, ops, k, t, sub)
    ensures RightDecision(cfg, ops[k], sub, Run(cfg, perms, ops).desk.decided[t])
  {
    var n := |ops| - 1;
    var s := Run(cfg, perms, ops[..n]);
    EveryStateTracked(cfg, perms, ops[..n]);
    StepDecides(cfg, perms, s, ops[n], t);
    if t in s.desk.decided && s.desk.decided[t] == Run(cfg, perms, ops).desk.decided[t] {
      k, sub := EveryDecisionHasItsCause(cfg, perms, ops[..n], t);
      assert ops[..n][..k] == ops[..k];
    } else {
      k, sub := n, s.desk.waiting[t];
    }
  }
}
