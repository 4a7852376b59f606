/** Duplicate protection in the gateway: when one idempotency key means one order, and how far the quota can be stretched. */
module GatewayOrders {
  import opened Common
  import opened Text
  import opened Gateway

  // ---------------------------------------------------------------------------------------------
  // One order per idempotency key

  ghost predicate KeyInFlight(d: Desk, key: string) { exists t :: t in d.unrecorded && d.unrecorded[t].key == key }

  /** No request is admitted while another with its key is still in flight. */
  ghost predicate NoKeyOverlap(cfg: Config, perms: Perms, ops: seq<Op>) {
    ops != [] ==>
      var init, last := ops[..|ops| - 1], ops[|ops| - 1];
      && NoKeyOverlap(cfg, perms, init)
      && (last.Submit? && Admits(cfg, perms, Run(cfg, perms, init), last.submission) ==>
            !KeyInFlight(Run(cfg, perms, init).desk, last.submission.key))
  }

  ghost predicate OrdersHaveOwnKeys(log: seq<Event>) {
    forall i, j :: 0 <= i < j < |log| && log[i].OrderCreated? && log[j].OrderCreated? ==>
      log[i].submission.key != log[j].submission.key
  }

  /** In flight, keys are distinct. */
  ghost predicate KeysApart(d: Desk) {
    forall t, u :: t in d.unrecorded && u in d.unrecorded && t != u ==> d.unrecorded[t].key != d.unrecorded[u].key
  }

  ghost predicate KeysNew(s: State) { forall t :: t in s.desk.unrecorded ==> s.desk.unrecorded[t].key !in s.dedup }

  /** An order's key is in the duplicate table, or its request is decided and still in flight. */
  predicate OrderPlaced(s: State, e: Event) {
    e.OrderCreated? ==>
      e.submission.key in s.dedup
      || (e.token in s.desk.unrecorded && s.desk.unrecorded[e.token].key == e.submission.key && e.token in s.desk.decided)
  }

  ghost predicate OrdersPlaced(s: State) { forall i :: 0 <= i < |s.books.log| ==> OrderPlaced(s, s.books.log[i]) }

  ghost predicate KeysFit(s: State) {
    KeysApart(s.desk) && KeysNew(s) && OrdersPlaced(s) && OrdersHaveOwnKeys(s.books.log)
  }

  ghost predicate NoOrderUnder(log: seq<Event>, key: string) {
    forall i :: 0 <= i < |log| && log[i].OrderCreated? ==> log[i].submission.key != key
  }

  lemma OwnKeysWithOneMore(log: seq<Event>, token: nat, sub: Submission)
    ensures OrdersHaveOwnKeys(log + [OrderCreated(token, sub)]) <==> OrdersHaveOwnKeys(log) && NoOrderUnder(log, sub.key)
  {
    var longer := log + [OrderCreated(token, sub)];
    assert longer[|log|].submission.key == sub.key;
    assert forall i :: 0 <= i < |log| ==> longer[i] == log[i];
  }

  /** A request that waits has no order under its key. */
  lemma WaitingHasNoOrder(s: State, token: nat)
    requires KeysFit(s) && Tracked(s.desk) && token in s.desk.waiting
    ensures NoOrderUnder(s.books.log, s.desk.waiting[token].key)
  {
    forall i | 0 <= i < |s.books.log| && s.books.log[i].OrderCreated?
      ensures s.books.log[i].submission.key != s.desk.waiting[token].key
    {
      assert OrderPlaced(s, s.books.log[i]);
    }
  }

  lemma SettleKeepsKeys(cfg: Config, s: State, token: nat, verdict: Verdict)
    requires KeysFit(s) && Tracked(s.desk) && token in s.desk.waiting
    ensures KeysFit(Settle(cfg, s, token, verdict))
  {
    var s', sub := Settle(cfg, s, token, verdict), s.desk.waiting[token];
    WaitingHasNoOrder(s, token);
    OwnKeysWithOneMore(s.books.log, token, sub);
    assert s'.books.log
        == s.books.log + if DecisionFor(cfg, sub, verdict).approved then [OrderCreated(token, sub)] else [];
    forall i | 0 <= i < |s'.books.log|
      ensures OrderPlaced(s', s'.books.log[i])
    {
      if i < |s.books.log| { assert OrderPlaced(s, s.books.log[i]); }
    }
  }

  lemma SettleMatchingKeepsKeys(cfg: Config, s: State, op: Op, n: nat)
    requires op.RiskEvent? && KeysFit(s) && Tracked(s.desk)
    ensures KeysFit(SettleMatching(cfg, s, op, n))
  {
    forall s': State, t: nat | KeysFit(s') && Tracked(s'.desk)
      ensures KeysFit(AnswerIfHeard(cfg, s', op, t)) && Tracked(AnswerIfHeard(cfg, s', op, t).desk)
    {
      if Hears(s'.desk, t, op) {
        SettleKeepsKeys(cfg, s', t, VerdictOf(op));
        EndWaitKeeps(s'.desk, t, DecisionFor(cfg, s'.desk.waiting[t], VerdictOf(op)));
      }
    }
    EventKeeps(cfg, s, op, n, (x: State) => KeysFit(x) && Tracked(x.desk));
  }

  lemma AdmitKeepsKeys(cfg: Config, perms: Perms, s: State, sub: Submission)
    requires KeysFit(s) && Tracked(s.desk) && !KeyInFlight(s.desk, sub.key) && Admits(cfg, perms, s, sub)
    ensures KeysFit(Admit(s, sub))
  {
    var s' := Admit(s, sub);
    assert forall t :: t in s.desk.unrecorded ==> s.desk.unrecorded[t].key != sub.key;
    forall i | 0 <= i < |s'.books.log|
      ensures OrderPlaced(s', s'.books.log[i])
    {
      assert OrderPlaced(s, s.books.log[i]);
    }
  }

  lemma RecordKeepsKeys(s: State, token: nat)
    requires KeysFit(s) && Tracked(s.desk) && token in s.desk.unrecorded && token in s.desk.decided
    ensures KeysFit(Record(s, token))
  {
    var s' := Record(s, token);
    forall i | 0 <= i < |s'.books.log|
      ensures OrderPlaced(s', s'.books.log[i])
    {
      assert OrderPlaced(s, s.books.log[i]);
    }
  }

  lemma StepKeepsKeys(cfg: Config, perms: Perms, s: State, op: Op)
    requires KeysFit(s) && Tracked(s.desk)
    requires op.Submit? && Admits(cfg, perms, s, op.submission) ==> !KeyInFlight(s.desk, op.submission.key)
    ensures KeysFit(Apply(cfg, perms, s, op))
  {
    match op
    case Submit(sub) =>
      if Admits(cfg, perms, s, sub) { AdmitKeepsKeys(cfg, perms, s, sub); }
    case RiskEvent(_, _, _, _) => SettleMatchingKeepsKeys(cfg, s, op, s.desk.nextToken);
    case Timeout(token) => if token in s.desk.waiting { SettleKeepsKeys(cfg, s, token, Expired); }
    case Recorded(token) => if token in s.desk.unrecorded && token in s.desk.decided { RecordKeepsKeys(s, token); }
    case ResetDailyCounts => ResetKeepsKeys(s);
  }

  lemma ResetKeepsKeys(s: State)
    requires KeysFit(s)
    ensures KeysFit(s.(books := ResetDaily(s.books)))
  {
    forall i | 0 <= i < |s.books.log|
      ensures OrderPlaced(s.(books := ResetDaily(s.books)), s.books.log[i])
    {
      assert OrderPlaced(s, s.books.log[i]);
    }
  }

  /** When requests with one key never overlap, at most one order is ever created under each key. */
  lemma {:induction false} OneOrderPerKey(cfg: Config, perms: Perms, ops: seq<Op>)
    requires NoKeyOverlap(cfg, perms, ops)
    ensures KeysFit(Run(cfg, perms, ops))
  {
    if ops != [] {
      var init := ops[..|ops| - 1];
      OneOrderPerKey(cfg, perms, init);
      EveryStateTracked(cfg, perms, init);
      StepKeepsKeys(cfg, perms, Run(cfg, perms, init), ops[|ops| - 1]);
    }
  }

  /** A risk decision that carries only a correlation id settles its own request and no other. */
  lemma {:induction false} EventSettlesItsOwn(cfg: Config, s: State, token: nat, op: Op, n: nat)
    requires Tracked(s.desk) && token in s.desk.waiting
    requires op.RiskEvent? && op.id.None? && op.correlationId == Some(s.desk.waiting[token].correlationId)
    ensures SettleMatching(cfg, s, op, n) == if token < n then Settle(cfg, s, token, VerdictOf(op)) else s
  {
    if n > 0 { EventSettlesItsOwn(cfg, s, token, op, n - 1); }
  }

  function Approval(correlationId: string): Op { RiskEvent(Some(correlationId), None, true, true) }

  lemma ApprovalCreates(cfg: Config, perms: Perms, s: State, token: nat)
    requires Tracked(s.desk) && token in s.desk.waiting
    ensures var sub := s.desk.waiting[token]; var s' := Apply(cfg, perms, s, Approval(sub.correlationId));
            && s'.books.log == s.books.log + [OrderCreated(token, sub)] && Tracked(s'.desk)
            && s'.desk.waiting == s.desk.waiting - {token}
  {
    var sub := s.desk.waiting[token];
    EventSettlesItsOwn(cfg, s, token, Approval(sub.correlationId), s.desk.nextToken);
    EndWaitKeeps(s.desk, token, DecisionFor(cfg, sub, Approved(true)));
  }

  /** Two requests that wait under one key, both approved, make two orders. */
  lemma OverlapMakesTwoOrders(cfg: Config, perms: Perms, s: State, t: nat, u: nat)
    requires Tracked(s.desk) && t in s.desk.waiting && u in s.desk.waiting && t != u
    requires s.desk.waiting[t].key == s.desk.waiting[u].key
    ensures var s1 := Apply(cfg, perms, s, Approval(s.desk.waiting[t].correlationId));
            var s2 := Apply(cfg, perms, s1, Approval(s.desk.waiting[u].correlationId));
            && s2.books.log == s.books.log + [OrderCreated(t, s.desk.waiting[t]), OrderCreated(u, s.desk.waiting[u])]
            && !OrdersHaveOwnKeys(s2.books.log)
  {
    var s1 := Apply(cfg, perms, s, Approval(s.desk.waiting[t].correlationId));
    ApprovalCreates(cfg, perms, s, t);
    ApprovalCreates(cfg, perms, s1, u);
    var log, n := Apply(cfg, perms, s1, Approval(s.desk.waiting[u].correlationId)).books.log, |s.books.log|;
    assert log[n].submission.key == log[n + 1].submission.key;
  }

  // ---------------------------------------------------------------------------------------------
  // Beside a request that is decided but not yet recorded

  /** An order in the log is an approved decision's. */
  predicate OrderIsApproved(d: Desk, e: Event) {
    e.OrderCreated? ==> e.token in d.decided && d.decided[e.token].approved
  }

  /** An approved decision whose follow-up is due has its order in the log. */
  ghost predicate ApprovedIsLogged(s: State, t: nat) {
    t in s.desk.unrecorded && t in s.desk.decided && s.desk.decided[t].approved ==>
      exists i :: 0 <= i < |s.books.log| && s.books.log[i] == OrderCreated(t, s.desk.unrecorded[t])
  }

  ghost predicate Logged(s: State) {
    && (forall i :: 0 <= i < |s.books.log| ==> OrderIsApproved(s.desk, s.books.log[i]))
    && forall t :: ApprovedIsLogged(s, t)
  }

  lemma StillLogged(s: State, s': State, t: nat)
    requires ApprovedIsLogged(s, t) && s.books.log <= s'.books.log
    requires t in s'.desk.unrecorded ==> t in s.desk.unrecorded && s'.desk.unrecorded[t] == s.desk.unrecorded[t]
    requires t in s'.desk.decided ==> t in s.desk.decided && s'.desk.decided[t] == s.desk.decided[t]
    ensures ApprovedIsLogged(s', t)
  {
    if t in s'.desk.unrecorded && t in s'.desk.decided && s'.desk.decided[t].approved {
      var i :| 0 <= i < |s.books.log| && s.books.log[i] == OrderCreated(t, s.desk.unrecorded[t]);
      assert s'.books.log[i] == s.books.log[i];
    }
  }

  lemma SettleKeepsLogged(cfg: Config, s: State, token: nat, verdict: Verdict)
    requires Logged(s) && Tracked(s.desk) && token in s.desk.waiting
    ensures Logged(Settle(cfg, s, token, verdict))
  {
    var s', sub := Settle(cfg, s, token, verdict), s.desk.waiting[token];
    var d := DecisionFor(cfg, sub, verdict);
    assert s'.books.log == s.books.log + if d.approved then [OrderCreated(token, sub)] else [];
    forall i | 0 <= i < |s'.books.log|
      ensures OrderIsApproved(s'.desk, s'.books.log[i])
    {
      if i < |s.books.log| { assert OrderIsApproved(s.desk, s.books.log[i]); }
    }
    forall t
      ensures ApprovedIsLogged(s', t)
    {
      if t == token {
        if d.approved { assert s'.books.log[|s.books.log|] == OrderCreated(token, sub); }
      } else {
        assert ApprovedIsLogged(s, t);
        StillLogged(s, s', t);
      }
    }
  }

  lemma SettleMatchingKeepsLogged(cfg: Config, s: State, op: Op, n: nat)
    requires op.RiskEvent? && Logged(s) && Tracked(s.desk)
    ensures Logged(SettleMatching(cfg, s, op, n))
  {
    forall s': State, t: nat | Logged(s') && Tracked(s'.desk)
      ensures Logged(AnswerIfHeard(cfg, s', op, t)) && Tracked(AnswerIfHeard(cfg, s', op, t).desk)
    {
      if Hears(s'.desk, t, op) {
        SettleKeepsLogged(cfg, s', t, VerdictOf(op));
        EndWaitKeeps(s'.desk, t, DecisionFor(cfg, s'.desk.waiting[t], VerdictOf(op)));
      }
    }
    EventKeeps(cfg, s, op, n, (x: State) => Logged(x) && Tracked(x.desk));
  }

  /** Steps that decide nothing. */
  lemma QuietKeepsLogged(cfg: Config, perms: Perms, s: State, op: Op)
    requires Logged(s) && Tracked(s.desk) && (op.Submit? || op.Recorded? || op.ResetDailyCounts?)
    ensures Logged(Apply(cfg, perms, s, op))
  {
    var s' := Apply(cfg, perms, s, op);
    forall i | 0 <= i < |s'.books.log|
      ensures OrderIsApproved(s'.desk, s'.books.log[i])
    {
      if i < |s.books.log| { assert OrderIsApproved(s.desk, s.books.log[i]) && s'.books.log[i] == s.books.log[i]; }
    }
    forall t
      ensures ApprovedIsLogged(s', t)
    {
      assert ApprovedIsLogged(s, t);
      if t in s'.desk.decided { StillLogged(s, s', t); }
    }
  }

  lemma {:induction false} EveryStateLogged(cfg: Config, perms: Perms, ops: seq<Op>)
    ensures Logged(Run(cfg, perms, ops))
  {
    if ops != [] {
      var init, op := ops[..|ops| - 1], ops[|ops| - 1];
      EveryStateLogged(cfg, perms, init);
      EveryStateTracked(cfg, perms, init);
      var s := Run(cfg, perms, init);
      match op
      case RiskEvent(_, _, _, _) => SettleMatchingKeepsLogged(cfg, s, op, s.desk.nextToken);
      case Timeout(token) => if token in s.desk.waiting { SettleKeepsLogged(cfg, s, token, Expired); }
      case _ => QuietKeepsLogged(cfg, perms, s, op);
    }
  }

  lemma RejectedHasNoOrder(s: State, t: nat)
    requires KeysFit(s) && Logged(s) && t in s.desk.unrecorded && t in s.desk.decided && !s.desk.decided[t].approved
    ensures NoOrderUnder(s.books.log, s.desk.unrecorded[t].key)
  {
    forall i | 0 <= i < |s.books.log| && s.books.log[i].OrderCreated?
      ensures s.books.log[i].submission.key != s.desk.unrecorded[t].key
    {
      assert OrderIsApproved(s.desk, s.books.log[i]) && OrderPlaced(s, s.books.log[i]);
    }
  }

  lemma ApprovedHasOrder(s: State, t: nat)
    requires Logged(s) && t in s.desk.unrecorded && t in s.desk.decided && s.desk.decided[t].approved
    ensures !NoOrderUnder(s.books.log, s.desk.unrecorded[t].key)
  {
    assert ApprovedIsLogged(s, t);
  }

  /**
   * The other way to overlap: a request admitted while one with its key is decided but not yet
   * recorded. Its approval creates an order in any case; the key then has two orders if and only if the
   * decided request had been approved.
   */
  lemma AdmissionBesideDecided(cfg: Config, perms: Perms, s: State, t: nat, sub: Submission)
    requires Tracked(s.desk) && KeysFit(s) && Logged(s) && t in s.desk.unrecorded && t in s.desk.decided
    requires s.desk.unrecorded[t].key == sub.key && Admits(cfg, perms, s, sub)
    ensures var s2 := Apply(cfg, perms, Apply(cfg, perms, s, Submit(sub)), Approval(sub.correlationId));
            && s2.books.log == s.books.log + [OrderCreated(s.desk.nextToken, sub)]
            && (OrdersHaveOwnKeys(s2.books.log) <==> !s.desk.decided[t].approved)
  {
    var s1 := Apply(cfg, perms, s, Submit(sub));
    OpenWaitKeeps(s.desk, sub);
    ApprovalCreates(cfg, perms, s1, s.desk.nextToken);
    OwnKeysWithOneMore(s.books.log, s.desk.nextToken, sub);
    if s.desk.decided[t].approved { ApprovedHasOrder(s, t); } else { RejectedHasNoOrder(s, t); }
  }

  // ---------------------------------------------------------------------------------------------
  // The quota bound is attained

  function Name(i: nat): string { Decimal(i) }

  /** The i-th of a stream of valid requests of one agent, all identifiers its own. */
  function Numbered(i: nat): Submission {
    Submission(Name(i), Name(i), Name(i), Request("BTC", "buy", "market", Some(1.0), Some(1.0), "a", None))
  }

  function SubmitNumbered(i: nat): Op { Submit(Numbered(i)) }

  const LIMITS: Permissions := Permissions(true, true, 0.0, 1, [], [])

  function Limits(m: nat): Perms { map["a" := LIMITS.(maxDailyOrders := m)] }

  function Window(k: nat): Config { Config(false, false, k, false) }

  /** After n numbered submissions the first `done` are decided and the rest wait; no later number has been used. */
  ghost predicate DeskAt(d: Desk, n: nat, done: nat) {
    Tracked(d) && d.nextToken == n && done <= n && WaitingAre(d.waiting, n, done) && NamesNew(d.pendingByCorrelation, n)
  }

  ghost predicate WaitingAre(waiting: map<nat, Submission>, n: nat, done: nat) {
    && (forall t :: t in waiting <==> done <= t < n)
    && (forall t :: t in waiting ==> waiting[t] == Numbered(t))
  }

  ghost predicate NamesNew(pending: map<string, nat>, n: nat) { forall i: nat :: i >= n ==> Name(i) !in pending }

  ghost predicate TableAt(pending: map<string, Request>, n: nat, done: nat) {
    && done <= n && |pending| == n - done
    && (forall i: nat :: done <= i < n ==> Name(i) in pending)
    && (forall i: nat :: i >= n ==> Name(i) !in pending)
  }

  /** All that is decided is approved. */
  ghost predicate Numbers(s: State, n: nat, done: nat) {
    DeskAt(s.desk, n, done) && TableAt(s.pendingRequests, n, done) && s.dedup == map[] && Daily(s.books, "a") == done
  }

  lemma NumberedIsAdmitted(m: nat, k: nat, s: State, n: nat, done: nat)
    requires Numbers(s, n, done) && done < m && n < done + k
    ensures Apply(Window(k), Limits(m), s, SubmitNumbered(n)) == Admit(s, Numbered(n))
  {
    var r := Numbered(n).request;
    assert ValidRequest(r) && Permitted(Limits(m), s, r);
    assert Refusal(Window(k), Limits(m), s, r).None?;
  }

  lemma NamesStayNew(pending: map<string, nat>, n: nat, token: nat)
    requires NamesNew(pending, n)
    ensures NamesNew(pending[Name(n) := token], n + 1)
  {
    forall i: nat | i >= n + 1
      ensures Name(i) !in pending[Name(n) := token]
    {
      PrintedNumbersDiffer(i, n);
    }
  }

  lemma OneMoreNumber(waiting: map<nat, Submission>, n: nat, done: nat)
    requires WaitingAre(waiting, n, done) && done <= n
    ensures WaitingAre(waiting[n := Numbered(n)], n + 1, done)
  {
  }

  lemma DeskAfterSubmit(d: Desk, n: nat, done: nat)
    requires DeskAt(d, n, done)
    ensures DeskAt(OpenWait(d, Numbered(n)), n + 1, done)
  {
    assert Name(n) !in d.pendingByCorrelation;
    OpenWaitKeeps(d, Numbered(n));
    OneMoreNumber(d.waiting, n, done);
    NamesStayNew(d.pendingByCorrelation, n, n);
  }

  lemma TableAfterSubmit(pending: map<string, Request>, n: nat, done: nat, r: Request)
    requires TableAt(pending, n, done)
    ensures TableAt(pending[Name(n) := r], n + 1, done)
  {
    forall i: nat | i >= n + 1
      ensures Name(i) !in pending[Name(n) := r]
    {
      PrintedNumbersDiffer(i, n);
    }
  }

  lemma TableAfterApproval(pending: map<string, Request>, n: nat, done: nat)
    requires TableAt(pending, n, done) && done < n
    ensures TableAt(pending - {Name(done)}, n, done + 1)
  {
    assert (pending - {Name(done)}).Keys == pending.Keys - {Name(done)};
    forall i: nat | done + 1 <= i < n
      ensures Name(i) in pending - {Name(done)}
    {
      PrintedNumbersDiffer(i, done);
    }
  }

  lemma SubmitNext(m: nat, k: nat, s: State, n: nat, done: nat)
    requires Numbers(s, n, done) && done < m && n < done + k
    ensures Numbers(Apply(Window(k), Limits(m), s, SubmitNumbered(n)), n + 1, done)
  {
    NumberedIsAdmitted(m, k, s, n, done);
    DeskAfterSubmit(s.desk, n, done);
    TableAfterSubmit(s.pendingRequests, n, done, Numbered(n).request);
  }

  lemma DeskAfterApproval(d: Desk, n: nat, done: nat, decision: Decision)
    requires DeskAt(d, n, done) && done < n
    ensures DeskAt(EndWait(d, done, decision), n, done + 1)
  {
    EndWaitKeeps(d, done, decision);
  }

  lemma ApprovalSettles(m: nat, k: nat, s: State, n: nat, done: nat)
    requires Numbers(s, n, done) && done < n
    ensures done in s.desk.waiting && s.desk.waiting[done] == Numbered(done)
    ensures Apply(Window(k), Limits(m), s, Approval(Name(done))) == Settle(Window(k), s, done, Approved(true))
  {
    EventSettlesItsOwn(Window(k), s, done, Approval(Name(done)), n);
  }

  lemma ApproveNext(m: nat, k: nat, s: State, n: nat, done: nat)
    requires Numbers(s, n, done) && done < n
    ensures Numbers(Apply(Window(k), Limits(m), s, Approval(Name(done))), n, done + 1)
  {
    ApprovalSettles(m, k, s, n, done);
    DeskAfterApproval(s.desk, n, done, DecisionFor(Window(k), Numbered(done), Approved(true)));
    TableAfterApproval(s.pendingRequests, n, done);
  }

  lemma RunSnoc(cfg: Config, perms: Perms, ops: seq<Op>, op: Op)
    ensures Run(cfg, perms, ops + [op]) == Apply(cfg, perms, Run(cfg, perms, ops), op)
  {
    assert (ops + [op])[..|ops|] == ops;
  }

  /** A run that reaches a state; the state is an out-parameter, so that nothing about the run itself is needed later. */
  ghost predicate Leads(m: nat, k: nat, ops: seq<Op>, s: State) { Run(Window(k), Limits(m), ops) == s }

  lemma OneMore(m: nat, k: nat, ops: seq<Op>, s: State, op: Op) returns (longer: seq<Op>, s': State)
    requires Leads(m, k, ops, s)
    ensures Leads(m, k, longer, s') && s' == Apply(Window(k), Limits(m), s, op)
  {
    RunSnoc(Window(k), Limits(m), ops, op);
    longer, s' := ops + [op], Apply(Window(k), Limits(m), s, op);
  }

  lemma OneMoreApproved(m: nat, k: nat, ops: seq<Op>, s: State, n: nat, done: nat) returns (longer: seq<Op>, s': State)
    requires Leads(m, k, ops, s) && Numbers(s, n, done) && done < n
    ensures Leads(m, k, longer, s') && Numbers(s', n, done + 1)
  {
    ApproveNext(m, k, s, n, done);
    longer, s' := OneMore(m, k, ops, s, Approval(Name(done)));
  }

  lemma OneMoreSubmitted(m: nat, k: nat, ops: seq<Op>, s: State, n: nat, done: nat) returns (longer: seq<Op>, s': State)
    requires Leads(m, k, ops, s) && Numbers(s, n, done) && done < m && n < done + k
    ensures Leads(m, k, longer, s') && Numbers(s', n + 1, done)
  {
    SubmitNext(m, k, s, n, done);
    longer, s' := OneMore(m, k, ops, s, SubmitNumbered(n));
  }

  /**
   * Every count of submissions and approvals is reached that keeps within the pending limit, and below
   * the daily maximum at the last submission: first one at a time, then all that may wait at once.
   */
  lemma {:induction false} Reach(m: nat, k: nat, n: nat, done: nat) returns (ops: seq<Op>, s: State)
    requires m >= 1 && k >= 1 && done <= n && n < m + k && (done < m || n == m + k - 1) && n <= done + k
    requires done < m - 1 ==> n <= done + 1
    ensures Leads(m, k, ops, s) && Numbers(s, n, done)
    decreases n + done
  {
    if n == 0 {
      ops, s := [], Run(Window(k), Limits(m), []);
    } else if done == n || done >= m {
      ops, s := Reach(m, k, n, done - 1);
      ops, s := OneMoreApproved(m, k, ops, s, n, done - 1);
    } else {
      ops, s := Reach(m, k, n - 1, done);
      ops, s := OneMoreSubmitted(m, k, ops, s, n - 1, done);
    }
  }

  /**
   * The bound cannot be improved: for every daily maximum m and every pending limit k there is a run,
   * with every request valid and every check passed, in which the agent gets m - 1 + k orders approved.
   */
  lemma QuotaBoundIsAttained(m: nat, k: nat)
    requires m >= 1 && k >= 1
    ensures exists ops :: Daily(Run(Window(k), Limits(m), ops).books, "a") == Limits(m)["a"].maxDailyOrders - 1 + k
  {
    var ops, s := Reach(m, k, m + k - 1, m + k - 1);
  }
}
