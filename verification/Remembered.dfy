/** What the two duplicate tables of the pipeline know, told from the history of a run alone. */
module Remembered {
  import opened Common
  import opened Gates
  import opened Pipeline

  /** Between these two lists of executions one was started under the key. */
  predicate Started(before: seq<Exec>, after: seq<Exec>, key: string) {
    |after| == |before| + 1 && after[|before|].key == key
  }

  /** This is the follow-up, due and not yet done, of an execution under the key. */
  predicate FollowsUp(execs: seq<Exec>, op: Op, key: string) {
    && op.FollowUp? && op.exec < |execs| && execs[op.exec].key == key
    && !execs[op.exec].phase.AwaitingBroker? && !execs[op.exec].followedUp
  }

  function NowRunning(before: seq<Exec>, after: seq<Exec>, op: Op, key: string, running: Option<nat>): Option<nat> {
    if op.ResetDailyCounts? || FollowsUp(before, op, key) then None
    else if Started(before, after, key) then Some(|before|)
    else running
  }

  function NowRemembered(before: seq<Exec>, op: Op, key: string, memory: Option<nat>): Option<nat> {
    if op.ResetDailyCounts? then None
    else if FollowsUp(before, op, key) && before[op.exec].phase.Resolved? then Some(op.exec)
    else memory
  }

  /** The execution under the key that was started since the last reset and since the last follow-up under the key. */
  function Running(ops: seq<Op>, key: string): Option<nat> {
    if ops == [] then None
    else
      var init := ops[..|ops| - 1];
      NowRunning(Run(init).table.execs, Run(ops).table.execs, ops[|ops| - 1], key, Running(init, key))
  }

  /** The execution under the key that was the last since the reset to be followed up with a result. */
  function Memory(ops: seq<Op>, key: string): Option<nat> {
    if ops == [] then None
    else
      var init := ops[..|ops| - 1];
      NowRemembered(Run(init).table.execs, ops[|ops| - 1], key, Memory(init, key))
  }

  /** The tables know just this of the key. */
  ghost predicate Knows(t: Table, key: string, running: Option<nat>, memory: Option<nat>) {
    && (key in t.inflight <==> running.Some?)
    && (running.Some? ==> t.inflight[key] == running.value)
    && (key in t.completed <==> memory.Some?)
    && (memory.Some? ==> memory.value < |t.execs| && Yields(t.execs[memory.value], key, t.completed[key]))
  }

  /** An execution under the key that ended in this result. */
  predicate Yields(e: Exec, key: string, r: Result) { e.key == key && e.phase == Resolved(r) }

  lemma MemorySurvives(t: Table, t': Table, key: string, i: nat)
    requires Grown(t, t') && i < |t.execs| && t.execs[i].phase.Resolved?
    ensures i < |t'.execs| && t'.execs[i].phase == t.execs[i].phase && t'.execs[i].key == t.execs[i].key
  {
    assert Later(t.execs[i], t'.execs[i]);
  }

  lemma StepKnows(p: Pipe, op: Op, key: string, running: Option<nat>, memory: Option<nat>)
    requires Aligned(p) && Knows(p.table, key, running, memory)
    ensures var t' := Apply(p, op).table;
            Knows(t', key, NowRunning(p.table.execs, t'.execs, op, key, running),
                  NowRemembered(p.table.execs, op, key, memory))
  {
    StepGrows(p, op);
    if memory.Some? { MemorySurvives(p.table, Apply(p, op).table, key, memory.value); }
  }

  /**
   * In every run, resets included: a key is in flight exactly when an execution under it was started
   * since the last reset and none under it followed up since, and leads to that execution; a key has a
   * remembered result exactly when some execution under it was followed up with a result since the last
   * reset, and then it is the result of the last one that was.
   */
  lemma {:induction false} TablesTellTheHistory(ops: seq<Op>, key: string)
    ensures Knows(Run(ops).table, key, Running(ops, key), Memory(ops, key))
  {
    if ops != [] {
      TablesTellTheHistory(ops[..|ops| - 1], key);
      var init := ops[..|ops| - 1];
      StepKnows(Run(init), ops[|ops| - 1], key, Running(init, key), Memory(init, key));
    }
  }

  /** What a caller of execute gets: a result that was reached under its key, the execution under way, or a new one. */
  lemma CallerGets(ops: seq<Op>, key: string)
    ensures var t, h := Run(ops).table, HandleFor(Run(ops), key);
            match (Memory(ops, key), Running(ops, key))
            case (Some(i), _) => i < |t.execs| && h.Remembered? && Yields(t.execs[i], key, h.result)
            case (None, Some(i)) => h == Promised(i)
            case (None, None) => h == Promised(|t.execs|)
  {
    TablesTellTheHistory(ops, key);
  }

  /** A call starts an execution if and only if its identifiers are text and nothing under its key is known. */
  lemma StartsExactlyWhen(ops: seq<Op>, call: Call)
    ensures var before, after := Run(ops).table.execs, Run(ops + [Execute(call)]).table.execs;
            if KeyOf(call).Some? && Running(ops, KeyOf(call).value).None? && Memory(ops, KeyOf(call).value).None?
            then |after| == |before| + 1 && after[..|before|] == before && after[|before|].key == KeyOf(call).value
                 && after[|before|].verdict == GatesOf(Run(ops).counts, call.world, call.raw)
            else after == before
  {
    RunSnoc(ops, Execute(call));
    if KeyOf(call).Some? { TablesTellTheHistory(ops, KeyOf(call).value); }
  }

  // ---------------------------------------------------------------------------------------------
  // Daily counts

  /** The broker accepts an execution of this agent's that waits for it. */
  predicate Succeeds(execs: seq<Exec>, op: Op, agent: string) {
    && op.BrokerAnswers? && op.answer == Accepted && op.exec < |execs| && execs[op.exec].phase.AwaitingBroker?
    && execs[op.exec].verdict.ToBroker? && execs[op.exec].verdict.signal.agentId == agent
  }

  /** How often that happened since the counts were last reset. */
  function Successes(ops: seq<Op>, agent: string): nat {
    if ops == [] || ops[|ops| - 1].ResetDailyCounts? then 0
    else
      var init := ops[..|ops| - 1];
      Successes(init, agent) + if Succeeds(Run(init).table.execs, ops[|ops| - 1], agent) then 1 else 0
  }

  lemma StepCountsSuccess(p: Pipe, op: Op, agent: string)
    requires Aligned(p) && Filed(p.table)
    ensures Daily(Apply(p, op).counts, agent)
         == if op.ResetDailyCounts? then 0
            else Daily(p.counts, agent) + if Succeeds(p.table.execs, op, agent) then 1 else 0
  {
    if op.BrokerAnswers? && Awaits(p.table, op.exec) { assert PhaseFits(p.table.execs[op.exec]); }
  }

  /** In every run an agent's daily count is how often the broker accepted an execution of it since the last reset. */
  lemma {:induction false} CountsTellTheHistory(ops: seq<Op>, agent: string)
    ensures Daily(Run(ops).counts, agent) == Successes(ops, agent)
  {
    if ops != [] {
      CountsTellTheHistory(ops[..|ops| - 1], agent);
      EveryRunFiled(ops[..|ops| - 1]);
      StepCountsSuccess(Run(ops[..|ops| - 1]), ops[|ops| - 1], agent);
    }
  }
}
