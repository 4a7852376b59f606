/** Executions side by side: duplicate protection, daily counts and the audit log, over every interleaving. */
module Pipeline {
  import opened Common
  import opened Text
  import opened Validation
  import opened Gates

  /** Where an execution's promise stands; Escaped means it was rejected by an exception. */
  datatype Phase = AwaitingBroker | Resolved(result: Result) | Escaped

  /** The ids an execution runs under, given or generated. */
  datatype Owner = Owner(correlationId: string, signalId: string)

  datatype Exec = Exec(owner: Owner, key: string, verdict: Verdict, phase: Phase, followedUp: bool)

  /** `inflight` and `completed` are the two duplicate tables; `execs` every execution ever started. */
  datatype Table = Table(inflight: map<string, nat>, completed: map<string, Result>, execs: seq<Exec>)

  datatype Event = Executed(agent: string, exec: nat) | CountsReset

  datatype Counts = Counts(daily: map<string, nat>, events: seq<Event>)

  datatype Entry = Entry(id: nat, exec: nat, owner: Owner, mark: Mark)

  /** Every entry ever published, the bounded store, and each execution's own list of entry ids. */
  datatype Audit = Audit(published: seq<Entry>, stored: seq<Entry>, idsOf: seq<seq<nat>>)

  const MAX_ENTRIES: nat := 5000

  datatype Pipe = Pipe(table: Table, counts: Counts, audit: Audit)

  const EMPTY := Pipe(Table(map[], map[], []), Counts(map[], []), Audit([], [], []))

  /** A call of execute; `uuid` and `fallbackId` are what it would generate for a signal that brings no identifiers. */
  datatype Call = Call(world: World, raw: RawSignal, uuid: string, fallbackId: string)

  datatype Op =
    | Execute(call: Call)
    | BrokerAnswers(exec: nat, answer: BrokerAnswer)
    | FollowUp(exec: nat)
    | ResetDailyCounts

  /** What a call of execute returns: a remembered result, or the promise of this execution. */
  datatype Handle = Remembered(result: Result) | Promised(exec: nat)

  // ---------------------------------------------------------------------------------------------
  // Keys

  /** A trimmed identifier, or what replaces a blank one. */
  function OrElse(id: string, otherwise: string): string { if Trim(id) != "" then Trim(id) else otherwise }

  function Joined(correlationId: string, idempotencyKey: string): string { correlationId + ":" + idempotencyKey }

  /** An identifier field; trimming something that is neither absent nor text throws. */
  function Identifier(field: Js, otherwise: string): Option<string> {
    match field
    case Undefined => Some(otherwise)
    case Null => Some(otherwise)
    case Str(s) => Some(OrElse(s, otherwise))
    case _ => None
  }

  /** The owner and the idempotency key of a call; None is an exception. */
  function IdentityOf(call: Call): Option<(Owner, string)> {
    if call.raw.NotAnObject? then
      Some((Owner(call.uuid, call.fallbackId), if call.fallbackId != "" then call.fallbackId else call.uuid))
    else
      var correlationId := Identifier(call.raw.correlationId, call.uuid);
      var signalId := Identifier(call.raw.id, call.fallbackId);
      if correlationId.None? || signalId.None? then None
      else
        var idempotencyKey :=
          Identifier(call.raw.idempotencyKey, if signalId.value != "" then signalId.value else correlationId.value);
        if idempotencyKey.None? then None
        else Some((Owner(correlationId.value, signalId.value), idempotencyKey.value))
  }

  /** The key an execution is protected under. */
  function KeyOf(call: Call): Option<string> {
    match IdentityOf(call)
    case Some((owner, idempotencyKey)) => Some(Joined(owner.correlationId, idempotencyKey))
    case None => None
  }

  // ---------------------------------------------------------------------------------------------
  // Steps

  function Daily(c: Counts, agent: string): nat { if agent in c.daily then c.daily[agent] else 0 }

  function Push(a: Audit, exec: nat, owner: Owner, mark: Mark): Audit
    requires exec < |a.idsOf|
  {
    var e := Entry(|a.published|, exec, owner, mark);
    Audit(a.published + [e], Suffix(a.stored + [e], MAX_ENTRIES), a.idsOf[exec := a.idsOf[exec] + [e.id]])
  }

  function PushAll(a: Audit, exec: nat, owner: Owner, marks: seq<Mark>): (r: Audit)
    requires exec < |a.idsOf|
    ensures |r.idsOf| == |a.idsOf|
  {
    if marks == [] then a else Push(PushAll(a, exec, owner, marks[..|marks| - 1]), exec, owner, marks[|marks| - 1])
  }

  function PhaseAfter(v: Verdict): Phase {
    match v
    case Stopped(stage, _) => Resolved(Result(false, stage))
    case ToBroker(_, _) => AwaitingBroker
    case Threw(_) => Escaped
  }

  predicate Known(t: Table, key: string) { key in t.completed || key in t.inflight }

  function Starts(t: Table, owner: Owner, key: string, v: Verdict): Table {
    t.(inflight := t.inflight[key := |t.execs|], execs := t.execs + [Exec(owner, key, v, PhaseAfter(v), false)])
  }

  predicate Awaits(t: Table, exec: nat) { exec < |t.execs| && t.execs[exec].phase.AwaitingBroker? }

  function Answered(t: Table, exec: nat, answer: BrokerAnswer): Table
    requires exec < |t.execs|
  {
    t.(execs := t.execs[exec := t.execs[exec].(phase := Resolved(Conclude(answer)))])
  }

  predicate CanFollowUp(t: Table, exec: nat) {
    exec < |t.execs| && !t.execs[exec].phase.AwaitingBroker? && !t.execs[exec].followedUp
  }

  /** The follow-up of a settled promise: a result is remembered, an exception is not. */
  function Followed(t: Table, exec: nat): Table
    requires exec < |t.execs|
  {
    var e := t.execs[exec];
    Table(t.inflight - {e.key}, if e.phase.Resolved? then t.completed[e.key := e.phase.result] else t.completed,
          t.execs[exec := e.(followedUp := true)])
  }

  function CountSuccess(c: Counts, agent: string, exec: nat): Counts {
    Counts(c.daily[agent := Daily(c, agent) + 1], c.events + [Executed(agent, exec)])
  }

  function AgentOf(v: Verdict): string { if v.ToBroker? then v.signal.agentId else "" }

  function DailyOf(c: Counts): string -> nat { agent => Daily(c, agent) }

  function GatesOf(c: Counts, w: World, raw: RawSignal): Verdict { RunGates(w, raw, DailyOf(c)) }

  function HandleFor(p: Pipe, key: string): Handle {
    if key in p.table.completed then Remembered(p.table.completed[key])
    else if key in p.table.inflight then Promised(p.table.inflight[key])
    else Promised(|p.table.execs|)
  }

  /** Each execution has its own list of audit ids. */
  predicate Aligned(p: Pipe) { |p.audit.idsOf| == |p.table.execs| }

  function Opened(a: Audit): Audit { a.(idsOf := a.idsOf + [[]]) }

  /** A new execution, up to the point where it first waits. */
  function Begin(p: Pipe, call: Call): (r: Pipe)
    requires Aligned(p) && IdentityOf(call).Some?
    ensures Aligned(r)
  {
    var v, owner := GatesOf(p.counts, call.world, call.raw), IdentityOf(call).value.0;
    Pipe(Starts(p.table, owner, KeyOf(call).value, v), p.counts, PushAll(Opened(p.audit), |p.table.execs|, owner, v.trail))
  }

  function Apply(p: Pipe, op: Op): (r: Pipe)
    requires Aligned(p)
    ensures Aligned(r)
  {
    match op
    case Execute(call) =>
      if KeyOf(call).None? || Known(p.table, KeyOf(call).value) then p else Begin(p, call)
    case BrokerAnswers(exec, answer) =>
      if !Awaits(p.table, exec) then p
      else
        Pipe(Answered(p.table, exec, answer),
             if answer.Accepted? then CountSuccess(p.counts, AgentOf(p.table.execs[exec].verdict), exec) else p.counts,
             Push(p.audit, exec, p.table.execs[exec].owner, BrokerMark(answer)))
    case FollowUp(exec) => if CanFollowUp(p.table, exec) then p.(table := Followed(p.table, exec)) else p
    case ResetDailyCounts =>
      Pipe(Table(map[], map[], p.table.execs), Counts(map[], p.counts.events + [CountsReset]), p.audit)
  }

  function Run(ops: seq<Op>): (p: Pipe)
    ensures Aligned(p)
  {
    if |ops| == 0 then EMPTY else Apply(Run(ops[..|ops| - 1]), ops[|ops| - 1])
  }

  lemma RunSnoc(ops: seq<Op>, op: Op)
    ensures Run(ops + [op]) == Apply(Run(ops), op)
  {
    assert (ops + [op])[..|ops|] == ops;
  }

  // ---------------------------------------------------------------------------------------------
  // Where executions stand, in every run, resets included

  /** The phase of an execution is one its verdict leads to. */
  predicate PhaseFits(e: Exec) {
    match e.verdict
    case Stopped(stage, _) => e.phase == Resolved(Result(false, stage))
    case Threw(_) => e.phase.Escaped?
    case ToBroker(_, _) =>
      e.phase.AwaitingBroker? || e.phase == Resolved(Conclude(Accepted)) || e.phase == Resolved(Conclude(BrokerRejected))
  }

  /** A key in flight leads to an execution of that key whose follow-up is still due. */
  predicate FiledUnder(t: Table, key: string) {
    key in t.inflight ==>
      t.inflight[key] < |t.execs| && t.execs[t.inflight[key]].key == key && !t.execs[t.inflight[key]].followedUp
  }

  ghost predicate Filed(t: Table) {
    (forall i :: 0 <= i < |t.execs| ==> PhaseFits(t.execs[i])) && forall key :: FiledUnder(t, key)
  }

  lemma StepKeepsFiled(p: Pipe, op: Op)
    requires Aligned(p) && Filed(p.table)
    ensures Filed(Apply(p, op).table)
  {
    var t' := Apply(p, op).table;
    forall key
      ensures FiledUnder(t', key)
    {
      assert FiledUnder(p.table, key);
    }
  }

  lemma {:induction false} EveryRunFiled(ops: seq<Op>)
    ensures Filed(Run(ops).table)
  {
    if |ops| > 0 {
      EveryRunFiled(ops[..|ops| - 1]);
      StepKeepsFiled(Run(ops[..|ops| - 1]), ops[|ops| - 1]);
    }
  }

  /** Executions are only ever added to, and keep their key, their verdict and a result once they have one. */
  ghost predicate Grown(t: Table, t': Table) {
    |t.execs| <= |t'.execs| && forall i :: 0 <= i < |t.execs| ==> Later(t.execs[i], t'.execs[i])
  }

  predicate Later(e: Exec, e': Exec) {
    && e'.key == e.key && e'.owner == e.owner && e'.verdict == e.verdict
    && (e.followedUp ==> e'.followedUp) && (e.phase.AwaitingBroker? || e'.phase == e.phase)
  }

  lemma StepGrows(p: Pipe, op: Op)
    requires Aligned(p)
    ensures Grown(p.table, Apply(p, op).table)
  {
  }

  // ---------------------------------------------------------------------------------------------
  // Daily counts

  /** Successes of an agent since the counts were last reset. */
  function SuccessesSinceReset(events: seq<Event>, agent: string): nat {
    if events == [] || events[|events| - 1].CountsReset? then 0
    else SuccessesSinceReset(events[..|events| - 1], agent) + if events[|events| - 1].agent == agent then 1 else 0
  }

  ghost predicate CountsTrue(c: Counts) { forall agent :: Daily(c, agent) == SuccessesSinceReset(c.events, agent) }

  lemma EventCounts(events: seq<Event>, e: Event)
    ensures forall agent :: SuccessesSinceReset(events + [e], agent)
              == if e.CountsReset? then 0 else SuccessesSinceReset(events, agent) + if e.agent == agent then 1 else 0
  {
    assert (events + [e])[..|events|] == events;
  }

  lemma StepKeepsCounts(p: Pipe, op: Op)
    requires Aligned(p) && CountsTrue(p.counts)
    ensures CountsTrue(Apply(p, op).counts)
  {
    if op.BrokerAnswers? && Awaits(p.table, op.exec) {
      EventCounts(p.counts.events, Executed(AgentOf(p.table.execs[op.exec].verdict), op.exec));
    }
    EventCounts(p.counts.events, CountsReset);
  }

  /** In every run an agent's daily count is its successful executions since the last reset. */
  lemma {:induction false} DailyCountsSuccesses(ops: seq<Op>)
    ensures CountsTrue(Run(ops).counts)
  {
    if |ops| > 0 {
      DailyCountsSuccesses(ops[..|ops| - 1]);
      StepKeepsCounts(Run(ops[..|ops| - 1]), ops[|ops| - 1]);
    }
  }

  // ---------------------------------------------------------------------------------------------
  // The audit log

  /** The entries an execution recorded, in the order it recorded them. */
  function EntriesOf(published: seq<Entry>, exec: nat): seq<Entry> {
    if published == [] then []
    else
      var earlier, last := EntriesOf(published[..|published| - 1], exec), published[|published| - 1];
      if last.exec == exec then earlier + [last] else earlier
  }

  function Ids(entries: seq<Entry>): seq<nat> { seq(|entries|, k requires 0 <= k < |entries| => entries[k].id) }

  function Marks(entries: seq<Entry>): seq<Mark> { seq(|entries|, k requires 0 <= k < |entries| => entries[k].mark) }

  /** The trail an execution must have left by now. */
  function TrailSoFar(e: Exec): seq<Mark> {
    if e.verdict.ToBroker? && e.phase.Resolved?
    then e.verdict.trail + [if e.phase.result.success then Granted(Paper) else Refused(Paper)]
    else e.verdict.trail
  }

  ghost predicate LogBounded(a: Audit) { a.stored == Suffix(a.published, MAX_ENTRIES) }

  /** Each list of ids is the ids of exactly the execution's own entries; nobody else's marks are among them. */
  ghost predicate IdsTrue(a: Audit) {
    && (forall k :: 0 <= k < |a.published| ==> a.published[k].id == k && a.published[k].exec < |a.idsOf|)
    && forall i :: 0 <= i < |a.idsOf| ==> a.idsOf[i] == Ids(EntriesOf(a.published, i))
  }

  lemma EntriesSnoc(published: seq<Entry>, e: Entry, exec: nat)
    ensures EntriesOf(published + [e], exec) == EntriesOf(published, exec) + if e.exec == exec then [e] else []
  {
    assert (published + [e])[..|published|] == published;
  }

  lemma PushKeeps(a: Audit, exec: nat, owner: Owner, mark: Mark)
    requires exec < |a.idsOf| && LogBounded(a) && IdsTrue(a)
    ensures LogBounded(Push(a, exec, owner, mark)) && IdsTrue(Push(a, exec, owner, mark))
    ensures forall i :: 0 <= i < |a.idsOf| ==>
              Marks(EntriesOf(Push(a, exec, owner, mark).published, i))
              == Marks(EntriesOf(a.published, i)) + if i == exec then [mark] else []
  {
    var e, a' := Entry(|a.published|, exec, owner, mark), Push(a, exec, owner, mark);
    SuffixAbsorbs(a.published, [e], MAX_ENTRIES);
    forall i | 0 <= i < |a.idsOf|
      ensures a'.idsOf[i] == Ids(EntriesOf(a'.published, i))
      ensures Marks(EntriesOf(a'.published, i)) == Marks(EntriesOf(a.published, i)) + if i == exec then [mark] else []
    {
      EntriesSnoc(a.published, e, i);
    }
  }

  lemma {:induction false} PushAllKeeps(a: Audit, exec: nat, owner: Owner, marks: seq<Mark>)
    requires exec < |a.idsOf| && LogBounded(a) && IdsTrue(a)
    ensures LogBounded(PushAll(a, exec, owner, marks)) && IdsTrue(PushAll(a, exec, owner, marks))
    ensures forall i :: 0 <= i < |a.idsOf| ==>
              Marks(EntriesOf(PushAll(a, exec, owner, marks).published, i))
              == Marks(EntriesOf(a.published, i)) + if i == exec then marks else []
  {
    if marks != [] {
      var init, last := marks[..|marks| - 1], marks[|marks| - 1];
      PushAllKeeps(a, exec, owner, init);
      PushKeeps(PushAll(a, exec, owner, init), exec, owner, last);
      assert init + [last] == marks;
    }
  }

  lemma {:induction false} NoEntriesYet(published: seq<Entry>, exec: nat)
    requires forall k :: 0 <= k < |published| ==> published[k].exec < exec
    ensures EntriesOf(published, exec) == []
  {
    if published != [] { NoEntriesYet(published[..|published| - 1], exec); }
  }

  /** The marks of every execution's own entries are its trail so far. */
  ghost predicate TrailsTrue(p: Pipe) {
    forall i :: 0 <= i < |p.table.execs| ==> Marks(EntriesOf(p.audit.published, i)) == TrailSoFar(p.table.execs[i])
  }

  ghost predicate Faithful(p: Pipe) { Aligned(p) && LogBounded(p.audit) && IdsTrue(p.audit) && TrailsTrue(p) }

  lemma BeginKeepsFaithful(p: Pipe, call: Call)
    requires Faithful(p) && IdentityOf(call).Some?
    ensures Faithful(Begin(p, call))
  {
    var v, n := GatesOf(p.counts, call.world, call.raw), |p.table.execs|;
    NoEntriesYet(p.audit.published, n);
    assert IdsTrue(Opened(p.audit));
    PushAllKeeps(Opened(p.audit), n, IdentityOf(call).value.0, v.trail);
    var p' := Begin(p, call);
    forall i | 0 <= i < |p'.table.execs|
      ensures Marks(EntriesOf(p'.audit.published, i)) == TrailSoFar(p'.table.execs[i])
    {
    }
  }

  lemma AnswerKeepsFaithful(p: Pipe, exec: nat, answer: BrokerAnswer)
    requires Faithful(p) && Awaits(p.table, exec) && p.table.execs[exec].verdict.ToBroker?
    ensures Faithful(Apply(p, BrokerAnswers(exec, answer)))
  {
    PushKeeps(p.audit, exec, p.table.execs[exec].owner, BrokerMark(answer));
  }

  lemma StepKeepsFaithful(p: Pipe, op: Op)
    requires Faithful(p) && Filed(p.table)
    ensures Faithful(Apply(p, op))
  {
    match op
    case Execute(call) => if KeyOf(call).Some? { BeginKeepsFaithful(p, call); }
    case BrokerAnswers(exec, answer) =>
      if Awaits(p.table, exec) {
        assert PhaseFits(p.table.execs[exec]);
        AnswerKeepsFaithful(p, exec, answer);
      }
    case FollowUp(exec) =>
    case ResetDailyCounts =>
  }

  /**
   * In every run, resets included: the store holds the latest MAX_ENTRIES of all entries; an
   * execution's list of audit ids is exactly the ids of the entries it recorded, in order, whatever
   * was recorded in between; and their marks are its trail.
   */
  lemma {:induction false} AuditIsFaithful(ops: seq<Op>)
    ensures Faithful(Run(ops))
  {
    if |ops| > 0 {
      AuditIsFaithful(ops[..|ops| - 1]);
      EveryRunFiled(ops[..|ops| - 1]);
      StepKeepsFaithful(Run(ops[..|ops| - 1]), ops[|ops| - 1]);
    }
  }

  // ---------------------------------------------------------------------------------------------
  // Listing the audit log

  /** Empty ids and a zero limit do not filter; a negative limit drops entries from the front. */
  datatype Filter = Filter(correlationId: string, signalId: string, stage: Option<Stage>, limit: int)

  function Where(entries: seq<Entry>, keep: Entry -> bool): seq<Entry> {
    if entries == [] then []
    else
      var init, last := Where(entries[..|entries| - 1], keep), entries[|entries| - 1];
      if keep(last) then init + [last] else init
  }

  function ByCorrelation(f: Filter): Entry -> bool {
    (e: Entry) => f.correlationId != "" ==> e.owner.correlationId == f.correlationId
  }

  function BySignal(f: Filter): Entry -> bool { (e: Entry) => f.signalId != "" ==> e.owner.signalId == f.signalId }

  function ByStage(f: Filter): Entry -> bool { (e: Entry) => f.stage.Some? ==> e.mark.stage == f.stage.value }

  function ByAll(f: Filter): Entry -> bool { (e: Entry) => ByCorrelation(f)(e) && BySignal(f)(e) && ByStage(f)(e) }

  function Cut(entries: seq<Entry>, limit: int): seq<Entry> {
    if limit > 0 then Suffix(entries, limit) else if -limit <= |entries| then entries[-limit..] else []
  }

  function Listing(entries: seq<Entry>, f: Filter): seq<Entry> { Cut(Where(entries, ByAll(f)), f.limit) }

  lemma {:induction false} WhereTwice(entries: seq<Entry>, p: Entry -> bool, q: Entry -> bool, both: Entry -> bool)
    requires forall e :: both(e) <==> p(e) && q(e)
    ensures Where(Where(entries, p), q) == Where(entries, both)
  {
    if entries != [] {
      var init, last := entries[..|entries| - 1], entries[|entries| - 1];
      WhereTwice(init, p, q, both);
      if p(last) { assert (Where(init, p) + [last])[..|Where(init, p)|] == Where(init, p); }
    }
  }

  lemma {:induction false} WhereAll(entries: seq<Entry>, p: Entry -> bool)
    requires forall e :: p(e)
    ensures Where(entries, p) == entries
  {
    if entries != [] { WhereAll(entries[..|entries| - 1], p); }
  }

  /** Filtering by one thing after the other is filtering by all of them. */
  lemma {:induction false} FiltersCompose(entries: seq<Entry>, f: Filter)
    ensures Where(Where(Where(entries, ByCorrelation(f)), BySignal(f)), ByStage(f)) == Where(entries, ByAll(f))
  {
    var ids := (e: Entry) => ByCorrelation(f)(e) && BySignal(f)(e);
    WhereTwice(entries, ByCorrelation(f), BySignal(f), ids);
    WhereTwice(entries, ids, ByStage(f), ByAll(f));
  }

  ghost predicate OwnersTrue(p: Pipe) {
    forall k :: 0 <= k < |p.audit.published| ==>
      && p.audit.published[k].exec < |p.table.execs|
      && p.audit.published[k].owner == p.table.execs[p.audit.published[k].exec].owner
  }

  lemma {:induction false} PushAllOwned(a: Audit, exec: nat, owner: Owner, marks: seq<Mark>)
    requires exec < |a.idsOf|
    ensures var published := PushAll(a, exec, owner, marks).published;
            && |a.published| <= |published| && published[..|a.published|] == a.published
            && forall k :: |a.published| <= k < |published| ==> published[k].exec == exec && published[k].owner == owner
  {
    if marks != [] { PushAllOwned(a, exec, owner, marks[..|marks| - 1]); }
  }

  lemma StepKeepsOwners(p: Pipe, op: Op)
    requires Aligned(p) && OwnersTrue(p)
    ensures OwnersTrue(Apply(p, op))
  {
    if op.Execute? && IdentityOf(op.call).Some? {
      var before, owner := Opened(p.audit), IdentityOf(op.call).value.0;
      var after := PushAll(before, |p.table.execs|, owner, GatesOf(p.counts, op.call.world, op.call.raw).trail).published;
      PushAllOwned(before, |p.table.execs|, owner, GatesOf(p.counts, op.call.world, op.call.raw).trail);
      assert forall k :: 0 <= k < |p.audit.published| ==> after[k] == p.audit.published[k];
    }
  }

  lemma {:induction false} EveryRunOwned(ops: seq<Op>)
    ensures OwnersTrue(Run(ops))
  {
    if |ops| > 0 {
      EveryRunOwned(ops[..|ops| - 1]);
      StepKeepsOwners(Run(ops[..|ops| - 1]), ops[|ops| - 1]);
    }
  }

  lemma {:induction false} WhereIsEntriesOf(published: seq<Entry>, exec: nat, keep: Entry -> bool)
    requires forall k :: 0 <= k < |published| ==> (keep(published[k]) <==> published[k].exec == exec)
    ensures Where(published, keep) == EntriesOf(published, exec)
  {
    if published != [] { WhereIsEntriesOf(published[..|published| - 1], exec, keep); }
  }

  function FilterFor(o: Owner): Filter { Filter(o.correlationId, o.signalId, None, 0) }

  lemma OwnerMatches(e: Entry, o: Owner)
    requires o.correlationId != "" && o.signalId != ""
    ensures ByAll(FilterFor(o))(e) <==> e.owner == o
  {
    var f := FilterFor(o);
    assert ByCorrelation(f)(e) <==> e.owner.correlationId == o.correlationId;
    assert BySignal(f)(e) <==> e.owner.signalId == o.signalId;
    assert ByStage(f)(e);
    assert ByAll(f)(e) <==> ByCorrelation(f)(e) && BySignal(f)(e) && ByStage(f)(e);
  }

  lemma OwnEntries(p: Pipe, exec: nat, o: Owner)
    requires OwnersTrue(p) && exec < |p.table.execs| && o == p.table.execs[exec].owner
    requires o.correlationId != "" && o.signalId != ""
    requires forall i :: 0 <= i < |p.table.execs| && i != exec ==> p.table.execs[i].owner != o
    ensures Where(p.audit.published, ByAll(FilterFor(o))) == EntriesOf(p.audit.published, exec)
  {
    forall k | 0 <= k < |p.audit.published|
      ensures ByAll(FilterFor(o))(p.audit.published[k]) <==> p.audit.published[k].exec == exec
    {
      OwnerMatches(p.audit.published[k], o);
    }
    WhereIsEntriesOf(p.audit.published, exec, ByAll(FilterFor(o)));
  }

  /**
   * Asked for the ids of an execution that shares them with no other, a log that has dropped nothing
   * lists exactly the trail that execution has left so far, in order.
   */
  lemma ListingTellsTheTrail(ops: seq<Op>, exec: nat)
    requires exec < |Run(ops).table.execs| && |Run(ops).audit.published| <= MAX_ENTRIES
    requires var o := Run(ops).table.execs[exec].owner; o.correlationId != "" && o.signalId != ""
    requires forall i :: 0 <= i < |Run(ops).table.execs| && i != exec ==>
               Run(ops).table.execs[i].owner != Run(ops).table.execs[exec].owner
    ensures var e := Run(ops).table.execs[exec];
            Marks(Listing(Run(ops).audit.stored, FilterFor(e.owner))) == TrailSoFar(e)
  {
    AuditIsFaithful(ops);
    EveryRunOwned(ops);
    OwnEntries(Run(ops), exec, Run(ops).table.execs[exec].owner);
    assert Run(ops).audit.stored == Run(ops).audit.published;
  }

  // ---------------------------------------------------------------------------------------------
  // The pipeline object

  class PipelineAuditLog {
    var entries: seq<Entry>

    constructor ()
      ensures entries == []
    {
      entries := [];
    }

    method Record(entry: Entry)
      modifies this
      ensures entries == Suffix(old(entries) + [entry], MAX_ENTRIES)
    {
      entries := entries + [entry];
      if |entries| > MAX_ENTRIES {
        entries := entries[|entries| - MAX_ENTRIES..];
      }
    }

    method Narrow(f: Filter) returns (out: seq<Entry>)
      ensures out == Where(entries, ByAll(f))
    {
      out := entries;
      if f.correlationId != "" { out := Where(out, ByCorrelation(f)); } else { WhereAll(out, ByCorrelation(f)); }
      if f.signalId != "" { out := Where(out, BySignal(f)); } else { WhereAll(out, BySignal(f)); }
      if f.stage.Some? { out := Where(out, ByStage(f)); } else { WhereAll(out, ByStage(f)); }
      FiltersCompose(entries, f);
    }

    /** One filter after the other, then the limit. */
    method List(f: Filter) returns (out: seq<Entry>)
      ensures out == Listing(entries, f)
    {
      out := Narrow(f);
      if f.limit > 0 {
        if |out| > f.limit { out := out[|out| - f.limit..]; }
      } else if f.limit < 0 {
        out := if -f.limit <= |out| then out[-f.limit..] else [];
      }
    }

    method Clear()
      modifies this
      ensures entries == []
    {
      entries := [];
    }
  }

  class ExecutionPipeline {
    const log: PipelineAuditLog
    var inflight: map<string, nat>
    var completedByCorrelation: map<string, Result>
    var dailyCounts: map<string, nat>
    var execs: seq<Exec>
    var auditIds: seq<seq<nat>>
    var nextEntry: nat
    ghost var published: seq<Entry>
    ghost var events: seq<Event>

    ghost function TableView(): Table
      reads this
    {
      Table(inflight, completedByCorrelation, execs)
    }

    ghost function AuditView(): Audit
      reads this, log
    {
      Audit(published, log.entries, auditIds)
    }

    ghost function View(): Pipe
      reads this, log
    {
      Pipe(TableView(), Counts(dailyCounts, events), AuditView())
    }

    ghost predicate Valid()
      reads this, log
    {
      nextEntry == |published| && Aligned(View())
    }

    constructor ()
      ensures Valid() && View() == EMPTY && fresh(log)
    {
      log := new PipelineAuditLog();
      inflight, completedByCorrelation, dailyCounts, execs, auditIds, nextEntry := map[], map[], map[], [], [], 0;
      published, events := [], [];
    }

    method PushAudit(exec: nat, owner: Owner, mark: Mark)
      requires exec < |auditIds| && nextEntry == |published|
      modifies this`auditIds, this`nextEntry, this`published, log
      ensures nextEntry == |published| && AuditView() == Push(old(AuditView()), exec, owner, mark)
    {
      var entry := Entry(nextEntry, exec, owner, mark);
      log.Record(entry);
      auditIds := auditIds[exec := auditIds[exec] + [entry.id]];
      nextEntry, published := nextEntry + 1, published + [entry];
    }

    method DailyCount(agent: string) returns (n: nat)
      ensures n == Daily(Counts(dailyCounts, events), agent)
    {
      n := if agent in dailyCounts then dailyCounts[agent] else 0;
    }

    /** The gates before risk: where one of them stops the execution, or the signal that gets past them all. */
    method CheckSignal(ghost before: Audit, w: World, raw: RawSignal, exec: nat, owner: Owner)
      returns (stopped: Option<Verdict>, signal: Option<Signal>, trail: seq<Mark>)
      requires exec < |auditIds| == |before.idsOf| && nextEntry == |published| && AuditView() == before
      modifies this`auditIds, this`nextEntry, this`published, log
      ensures nextEntry == |published| && |auditIds| == |before.idsOf|
      ensures stopped.Some? ==> stopped.value == GatesOf(Counts(dailyCounts, events), w, raw) && stopped.value.trail == trail
      ensures stopped.None? ==>
                && signal.Some?
                && GatesOf(Counts(dailyCounts, events), w, raw)
                   == Assess(w, signal.value, Daily(Counts(dailyCounts, events), signal.value.agentId), trail)
      ensures AuditView() == PushAll(before, exec, owner, trail)
    {
      signal, trail := None, [];
      if w.killSwitch.SwitchBroken? {
        stopped := Some(Threw([]));
        return;
      }
      if w.killSwitch.Halted? || (w.liveTradingEnabled && !w.liveEnvAllowed) {
        var v := Stop(before, [], if w.killSwitch.Halted? then KillSwitch else LiveDisabled, exec, owner);
        return Some(v), None, v.trail;
      }
      trail := Leave(before, trail, Mark(Received, None), exec, owner);
      var outcome := ValidateSignal(raw, w.now);
      if outcome.Invalid? || !WithinNotional(outcome.signal, w.maxOrderValue) {
        var v := Stop(before, trail, Validating, exec, owner);
        return Some(v), None, v.trail;
      }
      var s := outcome.signal;
      var daily := DailyCount(s.agentId);
      var limits := if w.hardLimits.Some? then w.hardLimits.value(s, daily) else WithinLimits;
      if limits.LimitsBroken? { return Some(Threw(trail)), None, trail; }
      if limits.Breached? {
        var v := Stop(before, trail, HardLimits, exec, owner);
        return Some(v), None, v.trail;
      }
      trail := Leave(before, trail, Granted(Validating), exec, owner);
      stopped, signal := None, Some(s);
    }

    /** Risk and permission. */
    method AssessSignal(ghost before: Audit, w: World, s: Signal, validated: seq<Mark>, exec: nat, owner: Owner)
      returns (v: Verdict)
      requires exec < |auditIds| == |before.idsOf| && nextEntry == |published|
      requires AuditView() == PushAll(before, exec, owner, validated)
      modifies this`auditIds, this`nextEntry, this`published, log
      ensures v == Assess(w, s, Daily(Counts(dailyCounts, events), s.agentId), validated)
      ensures nextEntry == |published| && AuditView() == PushAll(before, exec, owner, v.trail)
    {
      var risk := w.risk(s);
      if risk.RiskThrew? || (w.requireRiskApproval && (!risk.approved || !risk.hasTicket)) {
        v := Stop(before, validated, Risk, exec, owner);
        return;
      }
      var trail := Leave(before, validated, Granted(Risk), exec, owner);
      var daily := DailyCount(s.agentId);
      if CheckPermission(s, w.permissionOf(s.agentId), daily).Some? {
        v := Stop(before, trail, Permitting, exec, owner);
        return;
      }
      trail := Leave(before, trail, Granted(Permitting), exec, owner);
      v := ToBroker(s, trail);
    }

    /** The gates one after the other, each leaving its mark as it is passed or refuses. */
    method ExecuteInternal(w: World, raw: RawSignal, exec: nat, owner: Owner) returns (v: Verdict)
      requires exec < |auditIds| && nextEntry == |published|
      modifies this`auditIds, this`nextEntry, this`published, log
      ensures v == GatesOf(Counts(dailyCounts, events), w, raw)
      ensures nextEntry == |published| && AuditView() == PushAll(old(AuditView()), exec, owner, v.trail)
    {
      ghost var before := AuditView();
      var stopped, signal, trail := CheckSignal(before, w, raw, exec, owner);
      if stopped.Some? { return stopped.value; }
      v := AssessSignal(before, w, signal.value, trail, exec, owner);
    }

    method Leave(ghost before: Audit, trail: seq<Mark>, mark: Mark, exec: nat, owner: Owner) returns (longer: seq<Mark>)
      requires exec < |before.idsOf| == |auditIds| && nextEntry == |published|
      requires AuditView() == PushAll(before, exec, owner, trail)
      modifies this`auditIds, this`nextEntry, this`published, log
      ensures longer == trail + [mark] && nextEntry == |published| && AuditView() == PushAll(before, exec, owner, longer)
    {
      PushAudit(exec, owner, mark);
      longer := trail + [mark];
      assert longer[..|longer| - 1] == trail;
    }

    method Stop(ghost before: Audit, trail: seq<Mark>, stage: Stage, exec: nat, owner: Owner) returns (v: Verdict)
      requires exec < |before.idsOf| == |auditIds| && nextEntry == |published|
      requires AuditView() == PushAll(before, exec, owner, trail)
      modifies this`auditIds, this`nextEntry, this`published, log
      ensures v == Stopped(stage, trail + [Refused(stage)])
      ensures nextEntry == |published| && AuditView() == PushAll(before, exec, owner, v.trail)
    {
      var whole := Leave(before, trail, Refused(stage), exec, owner);
      v := Stopped(stage, whole);
    }

    /** None is an exception; otherwise a remembered result, or the promise to wait for. */
    method Execute(call: Call) returns (h: Option<Handle>)
      requires Valid()
      modifies this, log
      ensures Valid() && View() == Apply(old(View()), Op.Execute(call))
      ensures h == if KeyOf(call).Some? then Some(HandleFor(old(View()), KeyOf(call).value)) else None
    {
      var identity := IdentityOf(call);
      if identity.None? { return None; }
      var (owner, idempotencyKey) := identity.value;
      var key := Joined(owner.correlationId, idempotencyKey);
      if key in completedByCorrelation { return Some(Remembered(completedByCorrelation[key])); }
      if key in inflight { return Some(Promised(inflight[key])); }
      var exec := |execs|;
      auditIds := auditIds + [[]];
      assert AuditView() == Opened(old(AuditView()));
      var v := ExecuteInternal(call.world, call.raw, exec, owner);
      inflight := inflight[key := exec];
      execs := execs + [Exec(owner, key, v, PhaseAfter(v), false)];
      h := Some(Promised(exec));
    }

    /** The rest of executeInternal, once the broker has answered. */
    method OnBrokerAnswer(exec: nat, answer: BrokerAnswer)
      requires Valid()
      modifies this, log
      ensures Valid() && View() == Apply(old(View()), BrokerAnswers(exec, answer))
    {
      if exec >= |execs| || !execs[exec].phase.AwaitingBroker? { return; }
      var agent := AgentOf(execs[exec].verdict);
      if answer.Accepted? {
        var count := DailyCount(agent);
        dailyCounts, events := dailyCounts[agent := count + 1], events + [Executed(agent, exec)];
      }
      PushAudit(exec, execs[exec].owner, BrokerMark(answer));
      execs := execs[exec := execs[exec].(phase := Resolved(Conclude(answer)))];
    }

    /** The callbacks on the promise of an execution. */
    method OnSettled(exec: nat)
      requires Valid()
      modifies this
      ensures Valid() && View() == Apply(old(View()), FollowUp(exec))
    {
      if exec >= |execs| || execs[exec].phase.AwaitingBroker? || execs[exec].followedUp { return; }
      var e := execs[exec];
      if e.phase.Resolved? {
        completedByCorrelation := completedByCorrelation[e.key := e.phase.result];
      }
      inflight := inflight - {e.key};
      execs := execs[exec := e.(followedUp := true)];
    }

    method ResetDailyCounts()
      requires Valid()
      modifies this
      ensures Valid() && View() == Apply(old(View()), Op.ResetDailyCounts)
    {
      dailyCounts, completedByCorrelation, inflight := map[], map[], map[];
      events := events + [CountsReset];
    }
  }
}
