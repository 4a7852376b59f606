/** The exclusive run lock of the agent runtime, and the search for an unused agent id. */
module RunLock {
  import opened Common
  import opened Text

  /** Escaped is a run that threw before it reached the block that gives the lock back. */
  datatype Phase = Live | Finished | Escaped

  /** One run with its abort controller. */
  datatype Run = Run(agent: string, aborted: bool, phase: Phase)

  datatype State = State(runs: seq<Run>, active: map<string, nat>)

  const INITIAL := State([], map[])

  datatype Op =
    | Start(agent: string, callerAborted: bool)
    | Finish(run: nat)
    | Escape(run: nat)
    | CallerAborts(run: nat)
    | Cancel(agent: string)
    | CancelOthers(agent: string)
    | CancelAll

  predicate IsLive(s: State, run: nat) { run < |s.runs| && s.runs[run].phase.Live? }

  predicate Holds(s: State, run: nat)
    requires run < |s.runs|
  {
    s.runs[run].agent in s.active && s.active[s.runs[run].agent] == run
  }

  /** Abort the holders among these agents and take their locks away. */
  function Cancelled(s: State, gone: set<string>): State {
    State(seq(|s.runs|, i requires 0 <= i < |s.runs| =>
                if LosesTo(s, gone, i) then s.runs[i].(aborted := true) else s.runs[i]),
          s.active - gone)
  }

  predicate LosesTo(s: State, gone: set<string>, run: nat) { exists a :: a in s.active && a in gone && s.active[a] == run }

  function Started(s: State, agent: string, callerAborted: bool): State {
    var others := Cancelled(s, s.active.Keys - {agent});
    if callerAborted then State(others.runs + [Run(agent, false, Finished)], others.active - {agent})
    else State(others.runs + [Run(agent, false, Live)], others.active[agent := |s.runs|])
  }

  function Ended(s: State, run: nat): State
    requires run < |s.runs|
  {
    State(s.runs[run := s.runs[run].(phase := Finished)], if Holds(s, run) then s.active - {s.runs[run].agent} else s.active)
  }

  function Apply(s: State, op: Op): State {
    match op
    case Start(agent, callerAborted) => Started(s, agent, callerAborted)
    case Finish(run) => if IsLive(s, run) then Ended(s, run) else s
    case Escape(run) => if IsLive(s, run) then s.(runs := s.runs[run := s.runs[run].(phase := Escaped)]) else s
    case CallerAborts(run) => if IsLive(s, run) then s.(runs := s.runs[run := s.runs[run].(aborted := true)]) else s
    case Cancel(agent) => Cancelled(s, {agent})
    case CancelOthers(agent) => Cancelled(s, s.active.Keys - {agent})
    case CancelAll => Cancelled(s, s.active.Keys)
  }

  function RunAll(ops: seq<Op>): State {
    if ops == [] then INITIAL else Apply(RunAll(ops[..|ops| - 1]), ops[|ops| - 1])
  }

  // ---------------------------------------------------------------------------------------------
  // Exclusion

  /** Able to take its next step: live, and its controller not aborted. */
  predicate Acting(s: State, run: nat) { IsLive(s, run) && !s.runs[run].aborted }

  /** At most one lock is taken, by the latest run, which has not given it back. */
  ghost predicate Exclusive(s: State) {
    && (forall a :: a in s.active ==> s.active[a] == |s.runs| - 1)
    && (forall a :: a in s.active ==> s.runs[|s.runs| - 1].agent == a && !s.runs[|s.runs| - 1].phase.Finished?)
  }

  predicate Superseded(s: State, run: nat) {
    run + 1 < |s.runs| && s.runs[run + 1].agent == s.runs[run].agent
  }

  /** A run that acts without the lock was superseded by its own agent's very next run. */
  ghost predicate OnlySuperseded(s: State) {
    forall i :: 0 <= i < |s.runs| && Acting(s, i) ==> Holds(s, i) || Superseded(s, i)
  }

  lemma CancellingKeeps(s: State, gone: set<string>)
    requires Exclusive(s)
    ensures Exclusive(Cancelled(s, gone))
    ensures OnlySuperseded(s) ==> OnlySuperseded(Cancelled(s, gone))
  {
    var s' := Cancelled(s, gone);
    if OnlySuperseded(s) {
      forall i | 0 <= i < |s'.runs| && Acting(s', i)
        ensures Holds(s', i) || Superseded(s', i)
      {
        assert Acting(s, i) && !LosesTo(s, gone, i);
      }
    }
  }

  lemma StartKeeps(s: State, agent: string, callerAborted: bool)
    requires Exclusive(s) && OnlySuperseded(s)
    ensures Exclusive(Started(s, agent, callerAborted)) && OnlySuperseded(Started(s, agent, callerAborted))
  {
    var others, s' := Cancelled(s, s.active.Keys - {agent}), Started(s, agent, callerAborted);
    CancellingKeeps(s, s.active.Keys - {agent});
    forall i | 0 <= i < |others.runs| && Acting(s', i)
      ensures Superseded(s', i)
    {
      assert Acting(others, i);
      if Holds(others, i) { assert others.runs[i].agent == agent && i == |others.runs| - 1; }
    }
  }

  /** One run changes its phase or is aborted; locks may be given back, by a run that no longer acts. */
  lemma EndingKeeps(s: State, run: nat, r: Run, active: map<string, nat>)
    requires Exclusive(s) && OnlySuperseded(s) && IsLive(s, run) && r.agent == s.runs[run].agent
    requires active == if r.phase.Finished? then Ended(s, run).active else s.active
    ensures var s' := State(s.runs[run := r], active); Exclusive(s') && (!Acting(s', run) ==> OnlySuperseded(s'))
  {
    var s' := State(s.runs[run := r], active);
    if !Acting(s', run) {
      forall i | 0 <= i < |s'.runs| && Acting(s', i)
        ensures Holds(s', i) || Superseded(s', i)
      {
        assert i != run && Acting(s, i);
      }
    }
  }

  lemma StepKeepsExclusive(s: State, op: Op)
    requires Exclusive(s) && OnlySuperseded(s)
    ensures Exclusive(Apply(s, op)) && OnlySuperseded(Apply(s, op))
  {
    match op
    case Start(agent, callerAborted) => StartKeeps(s, agent, callerAborted);
    case Finish(run) => if IsLive(s, run) { EndingKeeps(s, run, s.runs[run].(phase := Finished), Ended(s, run).active); }
    case Escape(run) => if IsLive(s, run) { EndingKeeps(s, run, s.runs[run].(phase := Escaped), s.active); }
    case CallerAborts(run) => if IsLive(s, run) { EndingKeeps(s, run, s.runs[run].(aborted := true), s.active); }
    case Cancel(agent) => CancellingKeeps(s, {agent});
    case CancelOthers(agent) => CancellingKeeps(s, s.active.Keys - {agent});
    case CancelAll => CancellingKeeps(s, s.active.Keys);
  }

  lemma {:induction false} EveryRunExclusive(ops: seq<Op>)
    ensures Exclusive(RunAll(ops)) && OnlySuperseded(RunAll(ops))
  {
    if ops != [] {
      EveryRunExclusive(ops[..|ops| - 1]);
      StepKeepsExclusive(RunAll(ops[..|ops| - 1]), ops[|ops| - 1]);
    }
  }

  /** In every reachable state at most one agent holds a lock, and its run has not finished. */
  lemma {:induction false} AtMostOneAgentActive(ops: seq<Op>, a: string, b: string)
    requires a in RunAll(ops).active && b in RunAll(ops).active
    ensures a == b && RunAll(ops).active[a] < |RunAll(ops).runs|
    ensures RunAll(ops).runs[RunAll(ops).active[a]].agent == a && !RunAll(ops).runs[RunAll(ops).active[a]].phase.Finished?
  {
    EveryRunExclusive(ops);
  }

  /** A run that ends gives back its own lock and no other: a newer run, of any agent, keeps it. */
  lemma {:induction false} FinishingReleasesOnlyItsOwn(ops: seq<Op>, run: nat)
    requires IsLive(RunAll(ops), run)
    ensures var s, s' := RunAll(ops), Apply(RunAll(ops), Finish(run));
            && (forall a :: a in s.active && s.active[a] != run ==> a in s'.active && s'.active[a] == s.active[a])
            && (forall a :: a in s'.active ==> a in s.active && s'.active[a] == s.active[a] != run)
  {
    EveryRunExclusive(ops);
  }

  /** Nothing acts but the holder of the lock. */
  ghost predicate OnlyHolderActs(s: State) { forall i :: 0 <= i < |s.runs| && Acting(s, i) ==> Holds(s, i) }

  /**
   * Exclusion of the acting survives a step exactly when the step does not start a run of the agent
   * whose run is acting: that one is neither aborted nor left its lock.
   */
  lemma ExclusionLostExactlyBySelfRestart(s: State, op: Op)
    requires Exclusive(s) && OnlyHolderActs(s)
    ensures OnlyHolderActs(Apply(s, op)) <==> !(op.Start? && op.agent in s.active && Acting(s, s.active[op.agent]))
  {
    var s' := Apply(s, op);
    if op.Start? && op.agent in s.active && Acting(s, s.active[op.agent]) {
      var i := s.active[op.agent];
      assert s'.runs[i] == s.runs[i];
      assert Acting(s', i) && !Holds(s', i);
    } else {
      forall i | 0 <= i < |s'.runs| && Acting(s', i)
        ensures Holds(s', i)
      {
        if i < |s.runs| { assert Acting(s, i); }
      }
    }
  }

  /** Once superseded that way, no cancellation reaches the run: only its caller, or its own end, stops it. */
  lemma {:induction false} SupersededRunIsOutOfReach(ops: seq<Op>, op: Op, run: nat)
    requires Acting(RunAll(ops), run) && !Holds(RunAll(ops), run)
    requires op != Finish(run) && op != Escape(run) && op != CallerAborts(run)
    ensures Acting(Apply(RunAll(ops), op), run) && !Holds(Apply(RunAll(ops), op), run)
  {
    EveryRunExclusive(ops);
  }

  /** After any start, every other agent's run that held the lock is aborted. */
  lemma {:induction false} StartSilencesOthers(ops: seq<Op>, agent: string, callerAborted: bool, run: nat)
    requires run < |RunAll(ops).runs| && Holds(RunAll(ops), run) && RunAll(ops).runs[run].agent != agent
    ensures !Acting(Apply(RunAll(ops), Start(agent, callerAborted)), run)
  {
    var s := RunAll(ops);
    assert LosesTo(s, s.active.Keys - {agent}, run);
  }

  /** A run that throws before its guarded block keeps the lock until somebody cancels or starts another. */
  lemma EscapedRunKeepsLock(ops: seq<Op>, run: nat)
    requires IsLive(RunAll(ops), run) && Holds(RunAll(ops), run)
    ensures var s' := Apply(RunAll(ops), Escape(run));
            Holds(s', run) && Apply(s', Finish(run)) == s' && Holds(Apply(s', CallerAborts(run)), run)
  {
  }

  // ---------------------------------------------------------------------------------------------
  // Copies of agents

  datatype Agent = Agent(name: string, engine: string, archived: bool, createdAt: string, updatedAt: string)

  function CopyOf(source: Agent, now: string): Agent { Agent(source.name + " (Copy)", source.engine, false, now, now) }

  /** The ids tried for a copy, in order: id-copy, id-copy-2, id-copy-3, ... */
  function Candidate(id: string, n: nat): string {
    if n == 0 then id + "-copy" else id + "-copy-" + Decimal(n + 1)
  }

  lemma CandidateTail(id: string, n: nat)
    ensures n > 0 ==> Candidate(id, n)[|id| + 6..] == Decimal(n + 1)
    ensures n == 0 <==> |Candidate(id, n)| == |id| + 5
  {
    if n > 0 { assert id + "-copy-" + Decimal(n + 1) == (id + "-copy-") + Decimal(n + 1); }
  }

  lemma CandidatesDiffer(id: string, m: nat, n: nat)
    ensures Candidate(id, m) == Candidate(id, n) <==> m == n
  {
    CandidateTail(id, m);
    CandidateTail(id, n);
    PrintedNumbersDiffer(m + 1, n + 1);
  }

  ghost function Tried(id: string, n: nat): set<string> {
    if n == 0 then {} else Tried(id, n - 1) + {Candidate(id, n - 1)}
  }

  lemma {:induction false} NotTriedYet(id: string, n: nat, later: nat)
    requires n <= later
    ensures Candidate(id, later) !in Tried(id, n)
  {
    if n > 0 {
      NotTriedYet(id, n - 1, later);
      CandidatesDiffer(id, n - 1, later);
    }
  }

  lemma {:induction false} TriedAll(id: string, n: nat)
    ensures |Tried(id, n)| == n
  {
    if n > 0 {
      TriedAll(id, n - 1);
      NotTriedYet(id, n - 1, n - 1);
    }
  }

  /** As the tries are all different, no more of them can be in use than there are ids in use. */
  lemma FewTries(id: string, n: nat, used: set<string>)
    requires forall k :: 0 <= k < n ==> Candidate(id, k) in used
    ensures n <= |used|
  {
    TriedAll(id, n);
    TriedInUse(id, n, used);
    SubsetIsSmaller(Tried(id, n), used);
  }

  lemma {:induction false} TriedInUse(id: string, n: nat, used: set<string>)
    requires forall k :: 0 <= k < n ==> Candidate(id, k) in used
    ensures Tried(id, n) <= used
  {
    if n > 0 { TriedInUse(id, n - 1, used); }
  }

  /** The first candidate not in use, found after at most as many tries as there are ids in use. */
  method FindUnusedId(id: string, used: set<string>) returns (candidate: string, ghost tries: nat)
    ensures candidate == Candidate(id, tries) && candidate !in used && tries <= |used|
    ensures forall k :: 0 <= k < tries ==> Candidate(id, k) in used
  {
    tries, candidate := 0, id + "-copy";
    var suffix := 2;
    while candidate in used
      invariant suffix == tries + 2 && candidate == Candidate(id, tries)
      invariant forall k :: 0 <= k < tries ==> Candidate(id, k) in used
      decreases |used| - tries
    {
      candidate := id + "-copy-" + Decimal(suffix);
      suffix, tries := suffix + 1, tries + 1;
      FewTries(id, tries, used);
    }
    FewTries(id, tries, used);
  }

  // ---------------------------------------------------------------------------------------------
  // The runtime object

  lemma CancelOneMore(s: State, gone: set<string>, agent: string)
    requires agent !in gone
    ensures Cancelled(Cancelled(s, gone), {agent}) == Cancelled(s, gone + {agent})
  {
    var mid, end := Cancelled(s, gone), Cancelled(s, gone + {agent});
    forall i | 0 <= i < |s.runs|
      ensures Cancelled(mid, {agent}).runs[i] == end.runs[i]
    {
      if LosesTo(mid, {agent}, i) { assert s.active[agent] == i; }
      if LosesTo(s, gone + {agent}, i) && !LosesTo(s, gone, i) {
        assert agent in s.active && s.active[agent] == i;
        assert agent in mid.active && mid.active[agent] == i;
      }
    }
    assert Cancelled(mid, {agent}).runs == end.runs;
    assert (s.active - gone) - {agent} == s.active - (gone + {agent});
  }

  class AgentRuntime {
    var agentConfigs: map<string, Agent>
    var activeRuns: map<string, nat>
    var runs: seq<Run>

    ghost function View(): State
      reads this
    {
      State(runs, activeRuns)
    }

    ghost predicate Valid()
      reads this
    {
      forall a :: a in activeRuns ==> activeRuns[a] < |runs|
    }

    constructor (agents: map<string, Agent>)
      ensures Valid() && View() == INITIAL && agentConfigs == agents
    {
      agentConfigs, activeRuns, runs := agents, map[], [];
    }

    /** Abort the controller of an agent's run and take its lock; false when there is none. */
    method StopAgent(agent: string) returns (stopped: bool)
      requires Valid()
      modifies this`runs, this`activeRuns
      ensures Valid() && View() == Cancelled(old(View()), {agent})
      ensures stopped == (agent in old(activeRuns))
    {
      stopped := agent in activeRuns;
      if stopped {
        var run := activeRuns[agent];
        assert forall i :: 0 <= i < |runs| ==> (LosesTo(View(), {agent}, i) <==> i == run);
        runs := runs[run := runs[run].(aborted := true)];
        activeRuns := activeRuns - {agent};
      } else {
        assert forall i :: 0 <= i < |runs| ==> !LosesTo(View(), {agent}, i);
        assert activeRuns - {agent} == activeRuns;
      }
    }

    method CancelEach(agents: set<string>)
      requires Valid()
      modifies this`runs, this`activeRuns
      ensures Valid() && View() == Cancelled(old(View()), agents)
    {
      var left := agents;
      assert View().runs == Cancelled(View(), agents - left).runs;
      while left != {}
        invariant left <= agents && Valid()
        invariant View() == Cancelled(old(View()), agents - left)
        decreases |left|
      {
        var agent :| agent in left;
        CancelOneMore(old(View()), agents - left, agent);
        assert (agents - left) + {agent} == agents - (left - {agent});
        var _ := StopAgent(agent);
        left := left - {agent};
      }
      assert agents - left == agents;
    }

    method CancelOtherAgents(except: string)
      requires Valid()
      modifies this`runs, this`activeRuns
      ensures Valid() && View() == Apply(old(View()), CancelOthers(except))
    {
      CancelEach(activeRuns.Keys - {except});
    }

    method CancelAllAgents()
      requires Valid()
      modifies this`runs, this`activeRuns
      ensures Valid() && View() == Apply(old(View()), CancelAll)
    {
      CancelEach(activeRuns.Keys);
    }

    /** The beginning of a run, before it first waits; it does not go on when its caller has already aborted. */
    method BeginRun(agent: string, callerAborted: bool) returns (run: nat, goesOn: bool)
      requires Valid()
      modifies this`runs, this`activeRuns
      ensures Valid() && View() == Apply(old(View()), Start(agent, callerAborted))
      ensures run == |old(runs)| && goesOn == !callerAborted
    {
      CancelOtherAgents(agent);
      run := |runs|;
      activeRuns := activeRuns[agent := run];
      if callerAborted {
        runs := runs + [Run(agent, false, Finished)];
        assert activeRuns - {agent} == Cancelled(old(View()), old(activeRuns).Keys - {agent}).active - {agent};
        activeRuns := activeRuns - {agent};
        return run, false;
      }
      runs := runs + [Run(agent, false, Live)];
      goesOn := true;
    }

    /** What a run does last, however it ends once inside its guarded block. */
    method EndRun(run: nat)
      requires Valid() && IsLive(View(), run)
      modifies this`runs, this`activeRuns
      ensures Valid() && View() == Apply(old(View()), Finish(run))
    {
      var agent := runs[run].agent;
      if agent in activeRuns && activeRuns[agent] == run {
        activeRuns := activeRuns - {agent};
      }
      runs := runs[run := runs[run].(phase := Finished)];
    }

    method OnCallerAbort(run: nat)
      requires Valid() && IsLive(View(), run)
      modifies this`runs
      ensures Valid() && View() == Apply(old(View()), CallerAborts(run))
    {
      runs := runs[run := runs[run].(aborted := true)];
    }

    /** The copy is stored under the first candidate not in use; nothing else changes. */
    method DuplicateAgent(id: string, now: string) returns (newId: Option<string>)
      modifies this`agentConfigs
      ensures newId.None? <==> id !in old(agentConfigs)
      ensures newId.None? ==> agentConfigs == old(agentConfigs)
      ensures newId.Some? ==> newId.value !in old(agentConfigs)
      ensures newId.Some? ==>
                exists n: nat :: newId.value == Candidate(id, n)
                                 && forall k :: 0 <= k < n ==> Candidate(id, k) in old(agentConfigs)
      ensures newId.Some? ==> agentConfigs == old(agentConfigs)[newId.value := CopyOf(old(agentConfigs)[id], now)]
    {
      if id !in agentConfigs { return None; }
      var candidate, tries := FindUnusedId(id, agentConfigs.Keys);
      newId := Some(candidate);
      agentConfigs := agentConfigs[candidate := CopyOf(agentConfigs[id], now)];
    }
  }
}
