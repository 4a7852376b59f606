/** The run lock told from the history of a run: one holder at most, and who aborted whom. */
module LockHistory {
  import opened Common
  import opened RunLock

  /** The agents whose runs were started, in order; a run is known by its place here. */
  function Agents(ops: seq<Op>): seq<string> {
    if ops == [] then []
    else
      var earlier, last := Agents(ops[..|ops| - 1]), ops[|ops| - 1];
      if last.Start? then earlier + [last.agent] else earlier
  }

  /** This operation cancels the run of whoever holds the lock, if it is this agent. */
  predicate Reaches(op: Op, agent: string) {
    match op
    case Cancel(a) => agent == a
    case CancelOthers(a) => agent != a
    case CancelAll => true
    case Start(a, _) => agent != a
    case _ => false
  }

  /** The run is over: it gave up at once, finished, or threw before its guarded block. */
  predicate Over(ops: seq<Op>, run: nat) {
    if ops == [] then false
    else
      var init, last := ops[..|ops| - 1], ops[|ops| - 1];
      || Over(init, run)
      || (last.Start? && last.callerAborted && run == |Agents(init)|)
      || ((last == Finish(run) || last == Escape(run)) && run < |Agents(init)|)
  }

  /** The one run that holds the lock, if any. */
  function Holder(ops: seq<Op>): Option<nat> {
    if ops == [] then None
    else
      var init, last := ops[..|ops| - 1], ops[|ops| - 1];
      var before := Holder(init);
      if last.Start? then if last.callerAborted then None else Some(|Agents(init)|)
      else if before.Some? && before.value < |Agents(init)| && Reaches(last, Agents(init)[before.value]) then None
      else if before.Some? && last == Finish(before.value) && !Over(init, before.value) then None
      else before
  }

  /** The run was cancelled while it held the lock, or its caller aborted it while it went on. */
  predicate Stopped(ops: seq<Op>, run: nat) {
    if ops == [] then false
    else
      var init, last := ops[..|ops| - 1], ops[|ops| - 1];
      || Stopped(init, run)
      || (run < |Agents(init)| && Holder(init) == Some(run) && Reaches(last, Agents(init)[run]))
      || (run < |Agents(init)| && last == CallerAborts(run) && !Over(init, run))
  }

  /** The runs are those started, each as far over and as far stopped as its history says. */
  predicate RunTells(s: State, run: nat, agent: string, over: bool, stopped: bool) {
    && run < |s.runs| && s.runs[run].agent == agent && (s.runs[run].phase.Live? <==> !over)
    && (s.runs[run].aborted <==> stopped)
  }

  ghost predicate RunsTell(s: State, ops: seq<Op>) {
    && |s.runs| == |Agents(ops)|
    && forall run: nat :: run < |Agents(ops)| ==> RunTells(s, run, Agents(ops)[run], Over(ops, run), Stopped(ops, run))
  }

  /** The table of locks has the holder's agent in it, and nobody else. */
  ghost predicate LockTells(s: State, agents: seq<string>, holder: Option<nat>) {
    match holder
    case None => s.active == map[]
    case Some(run) => run < |agents| && s.active == map[agents[run] := run]
  }

  lemma {:induction false} NothingBeforeItsStart(ops: seq<Op>, run: nat)
    requires run >= |Agents(ops)|
    ensures !Over(ops, run) && !Stopped(ops, run)
  {
    if ops != [] { NothingBeforeItsStart(ops[..|ops| - 1], run); }
  }

  lemma CancelledHolder(s: State, gone: set<string>, agents: seq<string>, holder: Option<nat>)
    requires LockTells(s, agents, holder)
    ensures var s' := Cancelled(s, gone);
            && LockTells(s', agents, if holder.Some? && agents[holder.value] in gone then None else holder)
            && |s'.runs| == |s.runs|
            && forall i :: 0 <= i < |s.runs| ==>
                 s'.runs[i] == if holder == Some(i) && agents[i] in gone then s.runs[i].(aborted := true) else s.runs[i]
  {
    forall i: nat
      ensures LosesTo(s, gone, i) <==> holder == Some(i) && agents[i] in gone
    {
      if holder == Some(i) && agents[i] in gone { assert agents[i] in s.active && s.active[agents[i]] == i; }
    }
    if holder.Some? && agents[holder.value] in gone {
      assert s.active - gone == map[];
    } else {
      assert s.active - gone == s.active;
    }
  }

  /** The agents whose locks an operation takes away. */
  function Gone(s: State, op: Op): set<string> {
    match op
    case Cancel(a) => {a}
    case CancelOthers(a) => s.active.Keys - {a}
    case CancelAll => s.active.Keys
    case Start(a, _) => s.active.Keys - {a}
    case _ => {}
  }

  lemma GoneReaches(s: State, op: Op, agents: seq<string>, holder: Option<nat>)
    requires LockTells(s, agents, holder)
    ensures holder.Some? ==> (agents[holder.value] in Gone(s, op) <==> Reaches(op, agents[holder.value]))
  {
  }

  /** What one operation makes of the lock. */
  function NextHolder(agents: seq<string>, holder: Option<nat>, op: Op, live: bool): Option<nat> {
    if op.Start? then if op.callerAborted then None else Some(|agents|)
    else if holder.Some? && holder.value < |agents| && Reaches(op, agents[holder.value]) then None
    else if holder.Some? && op == Finish(holder.value) && live then None
    else holder
  }

  ghost predicate AgentsTell(s: State, agents: seq<string>) {
    |s.runs| == |agents| && forall i :: 0 <= i < |agents| ==> s.runs[i].agent == agents[i]
  }

  lemma StepHolder(s: State, op: Op, agents: seq<string>, holder: Option<nat>)
    requires LockTells(s, agents, holder) && AgentsTell(s, agents)
    ensures var live := holder.Some? && IsLive(s, holder.value);
            LockTells(Apply(s, op), if op.Start? then agents + [op.agent] else agents, NextHolder(agents, holder, op, live))
  {
    CancelledHolder(s, Gone(s, op), agents, holder);
    GoneReaches(s, op, agents, holder);
    if op.Start? {
      var others := Cancelled(s, Gone(s, op));
      assert others.active.Keys <= {op.agent};
      assert op.callerAborted ==> others.active - {op.agent} == map[];
      assert others.active[op.agent := |s.runs|] == map[op.agent := |s.runs|];
      assert (agents + [op.agent])[|agents|] == op.agent;
    }
    if op.Finish? && IsLive(s, op.run) && holder == Some(op.run) { assert s.active - {agents[op.run]} == map[]; }
  }

  /** What one operation makes of one run that is there. */
  lemma StepRun(s: State, op: Op, agents: seq<string>, holder: Option<nat>, run: nat, over: bool, stopped: bool)
    requires LockTells(s, agents, holder) && AgentsTell(s, agents) && run < |agents|
    requires RunTells(s, run, agents[run], over, stopped)
    ensures RunTells(Apply(s, op), run, agents[run], over || op == Finish(run) || op == Escape(run),
                     stopped || (holder == Some(run) && Reaches(op, agents[run])) || (op == CallerAborts(run) && !over))
  {
    CancelledHolder(s, Gone(s, op), agents, holder);
    GoneReaches(s, op, agents, holder);
  }

  lemma StepNewRun(s: State, op: Op)
    requires op.Start?
    ensures RunTells(Apply(s, op), |s.runs|, op.agent, op.callerAborted, false)
    ensures |Apply(s, op).runs| == |s.runs| + 1
  {
  }

  lemma StepCountsRuns(s: State, op: Op)
    ensures |Apply(s, op).runs| == |s.runs| + if op.Start? then 1 else 0
  {
  }

  lemma HistoryStep(s: State, ops: seq<Op>)
    requires ops != []
    requires var init := ops[..|ops| - 1]; RunsTell(s, init) && LockTells(s, Agents(init), Holder(init))
    ensures var s' := Apply(s, ops[|ops| - 1]); RunsTell(s', ops) && LockTells(s', Agents(ops), Holder(ops))
  {
    var init, op := ops[..|ops| - 1], ops[|ops| - 1];
    AgentsAgree(s, init);
    StepHolder(s, op, Agents(init), Holder(init));
    if Holder(init).Some? {
      var h := Holder(init).value;
      assert RunTells(s, h, Agents(init)[h], Over(init, h), Stopped(init, h));
    }
    StepCountsRuns(s, op);
    forall run: nat | run < |Agents(ops)|
      ensures RunTells(Apply(s, op), run, Agents(ops)[run], Over(ops, run), Stopped(ops, run))
    {
      if run < |Agents(init)| {
        assert RunTells(s, run, Agents(init)[run], Over(init, run), Stopped(init, run));
        StepRun(s, op, Agents(init), Holder(init), run, Over(init, run), Stopped(init, run));
      } else {
        NothingBeforeItsStart(init, run);
        StepNewRun(s, op);
      }
    }
  }

  lemma AgentsAgree(s: State, ops: seq<Op>)
    requires RunsTell(s, ops)
    ensures AgentsTell(s, Agents(ops))
  {
    forall run | 0 <= run < |Agents(ops)|
      ensures s.runs[run].agent == Agents(ops)[run]
    {
      assert RunTells(s, run, Agents(ops)[run], Over(ops, run), Stopped(ops, run));
    }
  }

  /**
   * In every reachable state the table of locks is one lock: the last run to have been started, unless it
   * was given up, cancelled or has finished since. A run is aborted exactly when it was cancelled while it
   * held that lock, or its caller aborted it while it went on.
   */
  lemma {:induction false} OneLockTellsAll(ops: seq<Op>)
    ensures RunsTell(RunAll(ops), ops) && LockTells(RunAll(ops), Agents(ops), Holder(ops))
  {
    if ops != [] {
      OneLockTellsAll(ops[..|ops| - 1]);
      HistoryStep(RunAll(ops[..|ops| - 1]), ops);
    }
  }

  /**
   * A cancellation that reaches the holder aborts its run and frees its lock: of this agent, of everybody
   * but this agent, or of everybody. One that does not reach it changes nothing.
   */
  lemma CancellationExactlyWhen(ops: seq<Op>, op: Op)
    requires op.Cancel? || op.CancelOthers? || op.CancelAll?
    ensures var s, s', holder := RunAll(ops), RunAll(ops + [op]), Holder(ops);
            if holder.Some? && holder.value < |Agents(ops)| && Reaches(op, Agents(ops)[holder.value])
            then && s'.active == map[] && |s'.runs| == |s.runs|
                 && forall i :: 0 <= i < |s.runs| ==>
                      s'.runs[i] == if i == holder.value then s.runs[i].(aborted := true) else s.runs[i]
            else s' == s
  {
    assert (ops + [op])[..|ops|] == ops;
    OneLockTellsAll(ops);
    var s := RunAll(ops);
    CancelledHolder(s, Gone(s, op), Agents(ops), Holder(ops));
    GoneReaches(s, op, Agents(ops), Holder(ops));
    if Holder(ops).None? || !Reaches(op, Agents(ops)[Holder(ops).value]) {
      assert Apply(s, op).runs == s.runs;
      assert Holder(ops).None? ==> Apply(s, op).active == map[];
    }
  }

  /** A copy goes by its own name, is not archived whatever its source is, and dates from now. */
  lemma CopyStartsAnew(source: Agent, now: string)
    ensures var copy := CopyOf(source, now);
            && copy.name == source.name + " (Copy)" && copy.engine == source.engine && !copy.archived
            && copy.createdAt == now && copy.updatedAt == now
  {
  }
}
