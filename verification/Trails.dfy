/** What an execution's marks say, what the audit log keeps and lists, and under which names executions run. */
module Trails {
  import opened Common
  import opened Text
  import opened Validation
  import opened Gates
  import opened Pipeline

  // ---------------------------------------------------------------------------------------------
  // Marks

  /** The stages an execution passes before the one it may be refused at, in order. */
  const PASSED := [Received, Validating, Risk, Permitting]

  /** How many of them are behind an execution that ends at this stage. */
  predicate EndsAfter(stage: Stage, n: nat) {
    match stage
    case KillSwitch => n == 0
    case LiveDisabled => n == 0
    case Validating => n == 1
    case HardLimits => n == 1
    case Risk => n == 2
    case Permitting => n == 3
    case _ => n == 4
  }

  /** A first mark that neither approves nor refuses, then approvals in order, then the last word. */
  ghost predicate TellsItsWay(trail: seq<Mark>, last: Stage, approved: bool) {
    && trail != [] && EndsAfter(last, |trail| - 1)
    && (forall i :: 0 <= i < |trail| - 1 && i < |PASSED| ==>
          trail[i].stage == PASSED[i] && trail[i].approved == if i == 0 then None else Some(true))
    && trail[|trail| - 1].stage == last && trail[|trail| - 1].approved == Some(approved)
  }

  /** Mark by mark, what an execution writes into the log: it ends with an approval if and only if it succeeds. */
  lemma TrailTellsTheWay(w: World, raw: RawSignal, daily: string -> nat, answer: BrokerAnswer)
    requires !RunGates(w, raw, daily).Threw?
    ensures var (r, trail) := Execution(w, raw, daily, answer);
            && TellsItsWay(trail, if r.success then Paper else r.stage, r.success)
            && (r.success ==> r.stage == Completed)
  {
    GatesLeaveTrail(w, raw, daily);
    var v := RunGates(w, raw, daily);
    if v.Stopped? { RankBefore(v.stage); }
  }

  // ---------------------------------------------------------------------------------------------
  // The store and its listings

  /** In every run the log keeps the latest five thousand entries, or all when there are no more. */
  lemma {:induction false} StoreKeepsTheLatest(ops: seq<Op>)
    ensures var a := Run(ops).audit;
            && |a.stored| == (if |a.published| <= 5000 then |a.published| else 5000)
            && a.stored == a.published[|a.published| - |a.stored|..]
  {
    AuditIsFaithful(ops);
  }

  predicate Matches(e: Entry, f: Filter) {
    && (|f.correlationId| == 0 || e.owner.correlationId == f.correlationId)
    && (|f.signalId| == 0 || e.owner.signalId == f.signalId)
    && (f.stage.None? || e.mark.stage == f.stage.value)
  }

  function Matching(entries: seq<Entry>, f: Filter): seq<Entry> {
    if entries == [] then [] else (if Matches(entries[0], f) then [entries[0]] else []) + Matching(entries[1..], f)
  }

  lemma {:induction false} MatchingSnoc(entries: seq<Entry>, e: Entry, f: Filter)
    ensures Matching(entries + [e], f) == Matching(entries, f) + if Matches(e, f) then [e] else []
  {
    if entries == [] {
      assert ([] + [e])[1..] == [];
    } else {
      MatchingSnoc(entries[1..], e, f);
      assert (entries + [e])[1..] == entries[1..] + [e];
    }
  }

  lemma AllMeansMatches(e: Entry, f: Filter)
    ensures ByAll(f)(e) <==> Matches(e, f)
  {
    assert ByCorrelation(f)(e) <==> (f.correlationId != "" ==> e.owner.correlationId == f.correlationId);
    assert BySignal(f)(e) <==> (f.signalId != "" ==> e.owner.signalId == f.signalId);
    assert ByStage(f)(e) <==> (f.stage.Some? ==> e.mark.stage == f.stage.value);
    assert ByAll(f)(e) <==> ByCorrelation(f)(e) && BySignal(f)(e) && ByStage(f)(e);
  }

  lemma {:induction false} WhereIsMatching(entries: seq<Entry>, f: Filter)
    ensures Where(entries, ByAll(f)) == Matching(entries, f)
  {
    if entries != [] {
      var init, last := entries[..|entries| - 1], entries[|entries| - 1];
      WhereIsMatching(init, f);
      MatchingSnoc(init, last, f);
      assert entries == init + [last];
      AllMeansMatches(last, f);
    }
  }

  /**
   * A listing is the matching entries in order: all of them without a limit, the last ones up to a
   * positive limit, and with a negative one those behind as many as it says.
   */
  lemma ListingExactlyWhen(entries: seq<Entry>, f: Filter)
    ensures var all, listed := Matching(entries, f), Listing(entries, f);
            && |listed| == (if f.limit == 0 || f.limit > |all| then |all|
                            else if f.limit > 0 then f.limit else if -f.limit <= |all| then |all| + f.limit else 0)
            && listed == all[|all| - |listed|..]
  {
    WhereIsMatching(entries, f);
  }

  // ---------------------------------------------------------------------------------------------
  // Names

  /** A field that can be trimmed: text, or nothing at all. */
  predicate Trimmable(f: Js) { f.Undefined? || f.Null? || f.Str? }

  /** The trimmed text of the first field that has any. */
  function FirstText(fields: seq<Js>, otherwise: string): string {
    if fields == [] then otherwise
    else if fields[0].Str? && Trim(fields[0].s) != "" then Trim(fields[0].s)
    else FirstText(fields[1..], otherwise)
  }

  /** The ids a call runs under: what it brings, trimmed, and generated ones for what it does not. */
  ghost predicate RunsUnder(call: Call, owner: Owner, key: string) {
    if call.raw.NotAnObject? then
      && owner == Owner(call.uuid, call.fallbackId)
      && key == call.uuid + ":" + (if |call.fallbackId| > 0 then call.fallbackId else call.uuid)
    else
      && owner.correlationId == FirstText([call.raw.correlationId], call.uuid)
      && owner.signalId == FirstText([call.raw.id], call.fallbackId)
      && key == owner.correlationId + ":"
                + FirstText([call.raw.idempotencyKey],
                            if |owner.signalId| > 0 then owner.signalId else owner.correlationId)
  }

  lemma FirstTextOfOne(f: Js, otherwise: string)
    ensures Trimmable(f) ==> Identifier(f, otherwise) == Some(FirstText([f], otherwise))
    ensures !Trimmable(f) ==> Identifier(f, otherwise) == None
  {
    assert [f][1..] == [];
  }

  /** A call has a key unless one of its three identifiers is neither text nor absent; and this is the key. */
  lemma KeyExactlyWhen(call: Call)
    ensures KeyOf(call).Some? <==>
              call.raw.NotAnObject?
              || (Trimmable(call.raw.correlationId) && Trimmable(call.raw.id) && Trimmable(call.raw.idempotencyKey))
    ensures KeyOf(call).Some? ==> RunsUnder(call, IdentityOf(call).value.0, KeyOf(call).value)
  {
    if call.raw.Fields? {
      FirstTextOfOne(call.raw.correlationId, call.uuid);
      FirstTextOfOne(call.raw.id, call.fallbackId);
      var c, s := FirstText([call.raw.correlationId], call.uuid), FirstText([call.raw.id], call.fallbackId);
      FirstTextOfOne(call.raw.idempotencyKey, if |s| > 0 then s else c);
      assert s != "" <==> |s| > 0;
    }
  }
}
