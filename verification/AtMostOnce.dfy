/** How often an execution can start under one key: at most once between resets, and exactly when not. */
module AtMostOnce {
  import opened Common
  import opened Text
  import opened Validation
  import opened Gates
  import opened Pipeline

  ghost predicate NoReset(ops: seq<Op>) { forall k :: 0 <= k < |ops| ==> !ops[k].ResetDailyCounts? }

  predicate HasKey(t: Table, i: nat, key: string) { i < |t.execs| && t.execs[i].key == key }

  /** Rejected by an exception, and its follow-up has run: of no further consequence. */
  predicate Spent(t: Table, i: nat) { i < |t.execs| && t.execs[i].verdict.Threw? && t.execs[i].followedUp }

  /** No earlier execution under the key was rejected by an exception and still has its follow-up due. */
  ghost predicate Quiet(t: Table, from: nat, key: string) {
    forall i :: 0 <= i < from && HasKey(t, i, key) && t.execs[i].verdict.Threw? ==> Spent(t, i)
  }

  /**
   * What a period that began when there were `from` executions keeps: a later execution under the key
   * means the earlier ones are spent, and one that is not spent makes the key known.
   */
  ghost predicate Period(t: Table, from: nat, key: string) {
    && from <= |t.execs| && Quiet(t, from, key)
    && (forall i, j :: from <= i < j && HasKey(t, i, key) && HasKey(t, j, key) ==> Spent(t, i))
    && (forall i :: from <= i && HasKey(t, i, key) && !Spent(t, i) ==> Known(t, key))
  }

  lemma StartKeepsPeriod(t: Table, owner: Owner, started: string, v: Verdict, from: nat, key: string)
    requires Period(t, from, key) && !Known(t, started)
    ensures Period(Starts(t, owner, started, v), from, key)
  {
    var t' := Starts(t, owner, started, v);
    forall i | 0 <= i < |t.execs|
      ensures HasKey(t', i, key) == HasKey(t, i, key) && Spent(t', i) == Spent(t, i)
    {
    }
  }

  lemma AnswerKeepsPeriod(t: Table, exec: nat, answer: BrokerAnswer, from: nat, key: string)
    requires Period(t, from, key) && Awaits(t, exec)
    ensures Period(Answered(t, exec, answer), from, key)
  {
    var t' := Answered(t, exec, answer);
    forall i: nat
      ensures HasKey(t', i, key) == HasKey(t, i, key) && Spent(t', i) == Spent(t, i)
    {
    }
  }

  /** An exception whose follow-up is due is the last execution of the period under its key. */
  lemma OthersSpent(t: Table, exec: nat, from: nat, key: string)
    requires Period(t, from, key) && HasKey(t, exec, key) && t.execs[exec].verdict.Threw? && !t.execs[exec].followedUp
    ensures from <= exec && forall i :: from <= i && i != exec && HasKey(t, i, key) ==> Spent(t, i)
  {
    assert !Spent(t, exec);
  }

  lemma FollowUpKeepsPeriod(t: Table, exec: nat, from: nat, key: string)
    requires Period(t, from, key) && Filed(t) && CanFollowUp(t, exec)
    ensures Period(Followed(t, exec), from, key)
  {
    var t', e := Followed(t, exec), t.execs[exec];
    assert PhaseFits(e);
    forall i: nat
      ensures HasKey(t', i, key) == HasKey(t, i, key)
      ensures Spent(t, i) ==> Spent(t', i)
      ensures i != exec ==> Spent(t', i) == Spent(t, i)
    {
    }
    forall i: nat | from <= i && HasKey(t', i, key) && !Spent(t', i)
      ensures Known(t', key)
    {
      assert Known(t, key);
      if e.key == key && e.verdict.Threw? { OthersSpent(t, exec, from, key); }
    }
  }

  lemma StepKeepsPeriod(p: Pipe, op: Op, from: nat, key: string)
    requires Aligned(p) && Filed(p.table) && Period(p.table, from, key) && !op.ResetDailyCounts?
    ensures Period(Apply(p, op).table, from, key)
  {
    match op
    case Execute(call) =>
      if KeyOf(call).Some? && !Known(p.table, KeyOf(call).value) {
        var v := GatesOf(p.counts, call.world, call.raw);
        StartKeepsPeriod(p.table, IdentityOf(call).value.0, KeyOf(call).value, v, from, key);
      }
    case BrokerAnswers(exec, answer) =>
      if Awaits(p.table, exec) { AnswerKeepsPeriod(p.table, exec, answer, from, key); }
    case FollowUp(exec) => if CanFollowUp(p.table, exec) { FollowUpKeepsPeriod(p.table, exec, from, key); }
  }

  /** From any state of any run on, for as long as nothing is reset. */
  lemma {:induction false} PeriodHolds(before: seq<Op>, after: seq<Op>, key: string)
    requires NoReset(after) && Quiet(Run(before).table, |Run(before).table.execs|, key)
    ensures Period(Run(before + after).table, |Run(before).table.execs|, key)
  {
    if after == [] {
      assert before + after == before;
    } else {
      var init, last := after[..|after| - 1], after[|after| - 1];
      PeriodHolds(before, init, key);
      EveryRunFiled(before + init);
      StepKeepsPeriod(Run(before + init), last, |Run(before).table.execs|, key);
      RunSnoc(before + init, last);
      assert (before + init) + [last] == before + after;
    }
  }

  /**
   * At most once, between resets. Cut any run anywhere; after the cut let calls, broker answers and
   * follow-ups, of old and new executions alike, interleave in any way without a reset. Of the
   * executions then started under a key at most one reaches the broker, and at most one starts if none
   * throws, provided no older one under the key has thrown with its follow-up still due.
   */
  lemma {:induction false} OncePerPeriod(before: seq<Op>, after: seq<Op>, key: string, i: nat, j: nat)
    requires NoReset(after) && Quiet(Run(before).table, |Run(before).table.execs|, key)
    requires |Run(before).table.execs| <= i && |Run(before).table.execs| <= j
    requires HasKey(Run(before + after).table, i, key) && HasKey(Run(before + after).table, j, key)
    ensures var execs := Run(before + after).table.execs;
            && (execs[i].verdict.ToBroker? && execs[j].verdict.ToBroker? ==> i == j)
            && (!execs[i].verdict.Threw? && !execs[j].verdict.Threw? ==> i == j)
  {
    PeriodHolds(before, after, key);
    var t := Run(before + after).table;
    if i < j { assert Spent(t, i); }
    if j < i { assert Spent(t, j); }
  }

  /** In particular from the beginning, where nothing is older. */
  lemma BrokerAtMostOncePerKey(ops: seq<Op>, i: nat, j: nat)
    requires NoReset(ops) && i < |Run(ops).table.execs| && j < |Run(ops).table.execs|
    requires Run(ops).table.execs[i].key == Run(ops).table.execs[j].key
    ensures var execs := Run(ops).table.execs;
            && (execs[i].verdict.ToBroker? && execs[j].verdict.ToBroker? ==> i == j)
            && (!execs[i].verdict.Threw? && !execs[j].verdict.Threw? ==> i == j)
  {
    assert [] + ops == ops;
    OncePerPeriod([], ops, Run(ops).table.execs[i].key, i, j);
  }

  // ---------------------------------------------------------------------------------------------
  // The condition is exact, and resets do make a difference

  ghost predicate EndsWithReset(ops: seq<Op>) { ops != [] && ops[|ops| - 1].ResetDailyCounts? }

  lemma ResetForgets(ops: seq<Op>)
    requires EndsWithReset(ops)
    ensures var t := Run(ops).table; t.inflight == map[] && t.completed == map[]
  {
  }

  lemma UnknownStarts(ops: seq<Op>, call: Call)
    requires KeyOf(call).Some? && !Known(Run(ops).table, KeyOf(call).value)
    ensures Run(ops + [Execute(call)]) == Begin(Run(ops), call)
  {
    RunSnoc(ops, Execute(call));
  }

  /** An old rejection whose follow-up is late takes the new execution's key out of flight, and a second one starts. */
  lemma LateFollowUpFreesTheKey(before: seq<Op>, late: nat, call: Call) returns (after: seq<Op>, t: Table)
    requires EndsWithReset(before) && late < |Run(before).table.execs|
    requires KeyOf(call) == Some(Run(before).table.execs[late].key)
    requires Run(before).table.execs[late].verdict.Threw? && !Run(before).table.execs[late].followedUp
    ensures NoReset(after) && after == [Execute(call), FollowUp(late), Execute(call)] && t == Run(before + after).table
    ensures var p, n := Run(before), |Run(before).table.execs|;
            && |t.execs| == n + 2 && t.execs[n].key == t.execs[n + 1].key == KeyOf(call).value
            && t.execs[n].verdict == t.execs[n + 1].verdict == GatesOf(p.counts, call.world, call.raw)
  {
    var p, key := Run(before), KeyOf(call).value;
    ResetForgets(before);
    EveryRunFiled(before);
    assert PhaseFits(p.table.execs[late]);
    UnknownStarts(before, call);
    var one := before + [Execute(call)];
    RunSnoc(one, FollowUp(late));
    var two := one + [FollowUp(late)];
    assert Run(two).table == Followed(Run(one).table, late);
    assert !Known(Run(two).table, key);
    UnknownStarts(two, call);
    after, t := [Execute(call), FollowUp(late), Execute(call)], Run(two + [Execute(call)]).table;
    assert two + [Execute(call)] == before + after;
  }

  /** Of the executions numbered from `from`, at most one under the key reaches the broker. */
  ghost predicate OneBrokerCall(t: Table, from: nat, key: string) {
    forall i, j :: from <= i < j && HasKey(t, i, key) && HasKey(t, j, key) ==>
      !(t.execs[i].verdict.ToBroker? && t.execs[j].verdict.ToBroker?)
  }

  lemma CalledTwice(t: Table, n: nat, key: string)
    requires HasKey(t, n, key) && HasKey(t, n + 1, key)
    requires t.execs[n].verdict.ToBroker? && t.execs[n + 1].verdict.ToBroker?
    ensures !OneBrokerCall(t, n, key)
  {
  }

  lemma PeriodMeansOne(t: Table, from: nat, key: string)
    requires Period(t, from, key)
    ensures OneBrokerCall(t, from, key)
  {
    forall i, j | from <= i < j && HasKey(t, i, key) && HasKey(t, j, key)
      ensures !(t.execs[i].verdict.ToBroker? && t.execs[j].verdict.ToBroker?)
    {
      assert Spent(t, i);
    }
  }

  lemma QuietMeansOne(before: seq<Op>, after: seq<Op>, key: string)
    requires NoReset(after) && Quiet(Run(before).table, |Run(before).table.execs|, key)
    ensures OneBrokerCall(Run(before + after).table, |Run(before).table.execs|, key)
  {
    PeriodHolds(before, after, key);
    PeriodMeansOne(Run(before + after).table, |Run(before).table.execs|, key);
  }

  /**
   * After a reset, a key reaches the broker at most once until the next if and only if no execution
   * under it from before the reset has thrown with its follow-up still due. (`call` is any call under
   * the key that the gates would let pass.)
   */
  lemma OneBrokerCallExactlyWhenQuiet(before: seq<Op>, call: Call)
    requires EndsWithReset(before) && KeyOf(call).Some?
    requires GatesOf(Run(before).counts, call.world, call.raw).ToBroker?
    ensures var n, key := |Run(before).table.execs|, KeyOf(call).value;
            (forall after :: NoReset(after) ==> OneBrokerCall(Run(before + after).table, n, key))
            <==> Quiet(Run(before).table, n, key)
  {
    var n, key := |Run(before).table.execs|, KeyOf(call).value;
    if Quiet(Run(before).table, n, key) {
      forall after | NoReset(after)
        ensures OneBrokerCall(Run(before + after).table, n, key)
      {
        QuietMeansOne(before, after, key);
      }
    } else {
      var late: nat :| late < n && HasKey(Run(before).table, late, key) && Run(before).table.execs[late].verdict.Threw?
                       && !Spent(Run(before).table, late);
      var after, t := LateFollowUpFreesTheKey(before, late, call);
      CalledTwice(t, n, key);
    }
  }

  /** A reset between two calls under one key makes two executions, in every state in which the key is new. */
  lemma ResetAllowsAnother(ops: seq<Op>, call: Call)
    requires KeyOf(call).Some? && !Known(Run(ops).table, KeyOf(call).value)
    ensures var execs, n := Run(ops + [Execute(call), ResetDailyCounts, Execute(call)]).table.execs, |Run(ops).table.execs|;
            && |execs| == n + 2 && execs[n].key == execs[n + 1].key == KeyOf(call).value
            && execs[n].verdict == GatesOf(Run(ops).counts, call.world, call.raw)
            && execs[n + 1].verdict == GatesOf(EMPTY.counts, call.world, call.raw)
  {
    UnknownStarts(ops, call);
    var one := ops + [Execute(call)];
    RunSnoc(one, ResetDailyCounts);
    var two := one + [ResetDailyCounts];
    UnknownStarts(two, call);
    assert two + [Execute(call)] == ops + [Execute(call), ResetDailyCounts, Execute(call)];
    SameCounts(Run(two).counts, EMPTY.counts, call.world, call.raw);
  }

  lemma SameCounts(c: Counts, d: Counts, w: World, raw: RawSignal)
    requires c.daily == d.daily
    ensures GatesOf(c, w, raw) == GatesOf(d, w, raw)
  {
  }

  /** For instance: the same signal before and after the daily reset, while the first order is still at the broker. */
  lemma SameSignalTwiceAroundReset(uuid: string, fallbackId: string)
    ensures var call := Call(UNGUARDED, SAMPLE, uuid, fallbackId);
            var execs := Run([Execute(call), ResetDailyCounts, Execute(call)]).table.execs;
            && |execs| == 2 && execs[0].key == execs[1].key
            && execs[0].verdict.ToBroker? && execs[1].verdict.ToBroker?
  {
    var call := Call(UNGUARDED, SAMPLE, uuid, fallbackId);
    ResetAllowsAnother([], call);
    assert [] + [Execute(call), ResetDailyCounts, Execute(call)] == [Execute(call), ResetDailyCounts, Execute(call)];
    RefusedSignalReachesBroker(DailyOf(EMPTY.counts));
  }

  // ---------------------------------------------------------------------------------------------
  // Which identities share a key

  lemma ShiftedColon(a: string, k: string, b: string, l: string)
    requires Joined(a, k) == Joined(b, l) && |a| < |b|
    ensures b == a + ":" + b[|a| + 1..] && k == b[|a| + 1..] + ":" + l
  {
    var s := Joined(a, k);
    assert s[..|a|] == a && s[..|b|] == b;
    assert b == s[..|b|] && b[..|a|] == a && b[|a|] == s[|a|] == ':';
    assert k == s[|a| + 1..];
    assert s[|a| + 1..] == s[|a| + 1..|b|] + s[|b|..] && s[|b|..] == ":" + l;
  }

  /** One identity is the other with a piece that ends in a colon moved across. */
  ghost predicate Shifted(a: string, k: string, b: string, l: string) {
    exists piece :: b == a + ":" + piece && k == piece + ":" + l
  }

  /** Two identities share a key exactly when they are equal or one is the other with a piece moved across the colon. */
  lemma SharedKeyExactlyWhen(a: string, k: string, b: string, l: string)
    ensures Joined(a, k) == Joined(b, l) <==> (a == b && k == l) || Shifted(a, k, b, l) || Shifted(b, l, a, k)
  {
    if Joined(a, k) == Joined(b, l) {
      if |a| < |b| {
        ShiftedColon(a, k, b, l);
      } else if |b| < |a| {
        ShiftedColon(b, l, a, k);
      } else {
        assert Joined(a, k)[..|a|] == a && Joined(b, l)[..|b|] == b;
        assert Joined(a, k)[|a| + 1..] == k && Joined(b, l)[|b| + 1..] == l;
      }
    }
    if Shifted(a, k, b, l) { MovedAcross(a, k, b, l); }
    if Shifted(b, l, a, k) { MovedAcross(b, l, a, k); }
  }

  lemma MovedAcross(a: string, k: string, b: string, l: string)
    requires Shifted(a, k, b, l)
    ensures Joined(a, k) == Joined(b, l)
  {
    var piece :| b == a + ":" + piece && k == piece + ":" + l;
    assert a + ":" + (piece + ":" + l) == (a + ":" + piece) + ":" + l;
  }

  /** So correlation ids without a colon never merge distinct identities. */
  lemma KeysWithoutColonsDiffer(a: string, k: string, b: string, l: string)
    requires ':' !in a && ':' !in b && Joined(a, k) == Joined(b, l)
    ensures a == b && k == l
  {
    SharedKeyExactlyWhen(a, k, b, l);
    if Shifted(a, k, b, l) { ColonInside(a, k, b, l); }
    if Shifted(b, l, a, k) { ColonInside(b, l, a, k); }
  }

  lemma ColonInside(a: string, k: string, b: string, l: string)
    requires Shifted(a, k, b, l)
    ensures ':' in b
  {
    var piece :| b == a + ":" + piece && k == piece + ":" + l;
    assert b[|a|] == ':';
  }
}
