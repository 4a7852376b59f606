/** Saving to files one write at a time per path, in every interleaving of writers. */
module WriteQueue {
  import opened Common

  /** A link of a write chain: it runs once the link before it is done, however that ended. */
  datatype Write = Write(path: string, payload: string, after: Option<nat>, done: bool, succeeded: bool, cleaned: bool)

  /** `queues` holds the last link per path; `ran` the writes in the order in which they ran. */
  datatype State = State(writes: seq<Write>, queues: map<string, nat>, ran: seq<nat>, files: map<string, string>)

  const INITIAL := State([], map[], [], map[])

  datatype Op =
    | Enqueue(path: string, payload: string)
    | RunWrite(write: nat, succeeds: bool)
    | CleanUp(write: nat)

  function TailOf(s: State, path: string): Option<nat> { if path in s.queues then Some(s.queues[path]) else None }

  predicate IsDone(s: State, write: nat) { write < |s.writes| && s.writes[write].done }

  /** The promise before it has settled, so the callback is due. */
  predicate Due(s: State, write: nat) {
    write < |s.writes| && !s.writes[write].done && (s.writes[write].after.Some? ==> IsDone(s, s.writes[write].after.value))
  }

  predicate CleanUpDue(s: State, write: nat) { IsDone(s, write) && !s.writes[write].cleaned }

  function Chained(s: State, path: string, payload: string): State {
    s.(writes := s.writes + [Write(path, payload, TailOf(s, path), false, false, false)],
       queues := s.queues[path := |s.writes|])
  }

  function Ran(s: State, write: nat, succeeds: bool): State
    requires write < |s.writes|
  {
    var w := s.writes[write];
    s.(writes := s.writes[write := w.(done := true, succeeded := succeeds)], ran := s.ran + [write],
       files := if succeeds then s.files[w.path := w.payload] else s.files)
  }

  function Cleaned(s: State, write: nat): State
    requires write < |s.writes|
  {
    var w := s.writes[write];
    s.(writes := s.writes[write := w.(cleaned := true)],
       queues := if w.path in s.queues && s.queues[w.path] == write then s.queues - {w.path} else s.queues)
  }

  function Apply(s: State, op: Op): State {
    match op
    case Enqueue(path, payload) => Chained(s, path, payload)
    case RunWrite(write, succeeds) => if Due(s, write) then Ran(s, write, succeeds) else s
    case CleanUp(write) => if CleanUpDue(s, write) then Cleaned(s, write) else s
  }

  function Run(ops: seq<Op>): State {
    if ops == [] then INITIAL else Apply(Run(ops[..|ops| - 1]), ops[|ops| - 1])
  }

  // ---------------------------------------------------------------------------------------------
  // Chains

  /** No write to the path between the two. */
  ghost predicate Adjacent(ws: seq<Write>, i: nat, j: nat)
    requires j <= |ws|
  {
    i < j && forall k :: i < k < j ==> ws[k].path != ws[i].path
  }

  ghost predicate AllDoneBefore(ws: seq<Write>, path: string, end: nat)
    requires end <= |ws|
  {
    forall k :: 0 <= k < end && ws[k].path == path ==> ws[k].done
  }

  /** Each link follows the previous write to its path, or starts anew when every earlier one is done. */
  ghost predicate Linked(ws: seq<Write>) {
    forall j :: 0 <= j < |ws| ==>
      match ws[j].after
      case Some(i) => i < j && ws[i].path == ws[j].path && Adjacent(ws, i, j)
      case None => AllDoneBefore(ws, ws[j].path, j)
  }

  /** A write that is done has every earlier write to its path done. */
  ghost predicate InOrder(ws: seq<Write>) {
    forall i, j :: 0 <= i < j < |ws| && ws[i].path == ws[j].path && ws[j].done ==> ws[i].done
  }

  /** The queue entry of a path is its last write; a path without one has nothing outstanding. */
  ghost predicate QueuesTrue(s: State) {
    && (forall p :: p in s.queues ==>
          && s.queues[p] < |s.writes| && s.writes[s.queues[p]].path == p
          && Adjacent(s.writes, s.queues[p], |s.writes|))
    && (forall p :: p !in s.queues ==> AllDoneBefore(s.writes, p, |s.writes|))
  }

  ghost predicate Serial(s: State) { Linked(s.writes) && InOrder(s.writes) && QueuesTrue(s) }

  lemma ChainKeepsSerial(s: State, path: string, payload: string)
    requires Serial(s)
    ensures Serial(Chained(s, path, payload))
  {
    var ws, s' := s.writes, Chained(s, path, payload);
    var ws' := s'.writes;
    forall j | 0 <= j < |ws|
      ensures match ws'[j].after
              case Some(i) => i < j && ws'[i].path == ws'[j].path && Adjacent(ws', i, j)
              case None => AllDoneBefore(ws', ws'[j].path, j)
    {
      if ws[j].after.Some? { assert Adjacent(ws, ws[j].after.value, j); } else { assert AllDoneBefore(ws, ws[j].path, j); }
    }
    if path in s.queues { assert Adjacent(ws, s.queues[path], |ws|); } else { assert AllDoneBefore(ws, path, |ws|); }
    forall p | p in s'.queues
      ensures s'.queues[p] < |ws'| && ws'[s'.queues[p]].path == p && Adjacent(ws', s'.queues[p], |ws'|)
    {
      if p != path { assert Adjacent(ws, s.queues[p], |ws|); }
    }
    forall p | p !in s'.queues
      ensures AllDoneBefore(ws', p, |ws'|)
    {
      assert AllDoneBefore(ws, p, |ws|);
    }
  }

  /** When a write is due, every earlier write to its path is done. */
  lemma DueMeansNext(s: State, write: nat)
    requires Serial(s) && Due(s, write)
    ensures AllDoneBefore(s.writes, s.writes[write].path, write)
  {
    var ws := s.writes;
    if ws[write].after.Some? {
      var i := ws[write].after.value;
      assert ws[i].path == ws[write].path && ws[i].done && Adjacent(ws, i, write);
      forall k | 0 <= k < write && ws[k].path == ws[write].path
        ensures ws[k].done
      {
        if k < i { assert InOrder(ws); }
      }
    }
  }

  /** Writes may come to be done or cleaned; nothing else about them changes. */
  ghost predicate OnlyProgress(ws: seq<Write>, ws': seq<Write>) {
    |ws'| == |ws| && forall k :: 0 <= k < |ws| ==>
      ws'[k].path == ws[k].path && ws'[k].after == ws[k].after && (ws[k].done ==> ws'[k].done)
  }

  lemma ProgressKeepsLinks(s: State, ws': seq<Write>)
    requires Serial(s) && OnlyProgress(s.writes, ws')
    ensures Linked(ws') && QueuesTrue(s.(writes := ws'))
  {
    var ws := s.writes;
    forall j | 0 <= j < |ws|
      ensures match ws'[j].after
              case Some(i) => i < j && ws'[i].path == ws'[j].path && Adjacent(ws', i, j)
              case None => AllDoneBefore(ws', ws'[j].path, j)
    {
      if ws[j].after.Some? { assert Adjacent(ws, ws[j].after.value, j); } else { assert AllDoneBefore(ws, ws[j].path, j); }
    }
    forall p | p in s.queues
      ensures ws'[s.queues[p]].path == p && Adjacent(ws', s.queues[p], |ws'|)
    {
      assert Adjacent(ws, s.queues[p], |ws|);
    }
    forall p | p !in s.queues
      ensures AllDoneBefore(ws', p, |ws'|)
    {
      assert AllDoneBefore(ws, p, |ws|);
    }
  }

  lemma RunKeepsSerial(s: State, write: nat, succeeds: bool)
    requires Serial(s) && Due(s, write)
    ensures Serial(Ran(s, write, succeeds))
  {
    DueMeansNext(s, write);
    ProgressKeepsLinks(s, Ran(s, write, succeeds).writes);
  }

  lemma CleanUpKeepsSerial(s: State, write: nat)
    requires Serial(s) && CleanUpDue(s, write)
    ensures Serial(Cleaned(s, write))
  {
    var s', path := Cleaned(s, write), s.writes[write].path;
    ProgressKeepsLinks(s, s'.writes);
    if path in s.queues && s.queues[path] == write {
      assert Adjacent(s.writes, write, |s.writes|);
      assert AllDoneBefore(s'.writes, path, |s'.writes|);
    }
  }

  lemma StepKeepsSerial(s: State, op: Op)
    requires Serial(s)
    ensures Serial(Apply(s, op))
  {
    match op
    case Enqueue(path, payload) => ChainKeepsSerial(s, path, payload);
    case RunWrite(write, succeeds) => if Due(s, write) { RunKeepsSerial(s, write, succeeds); }
    case CleanUp(write) => if CleanUpDue(s, write) { CleanUpKeepsSerial(s, write); }
  }

  // ---------------------------------------------------------------------------------------------
  // What has run, and what the files hold

  /** The first n writes to a path, in the order they were enqueued. */
  function Enqueued(ws: seq<Write>, path: string, end: nat): seq<nat>
    requires end <= |ws|
  {
    if end == 0 then []
    else Enqueued(ws, path, end - 1) + if ws[end - 1].path == path then [end - 1] else []
  }

  /** The writes to a path that have run, in the order they ran. */
  function RanOn(ws: seq<Write>, ran: seq<nat>, path: string): seq<nat>
    requires forall k :: 0 <= k < |ran| ==> ran[k] < |ws|
  {
    if ran == [] then []
    else RanOn(ws, ran[..|ran| - 1], path) + if ws[ran[|ran| - 1]].path == path then [ran[|ran| - 1]] else []
  }

  ghost predicate Recorded(s: State) { forall k :: 0 <= k < |s.ran| ==> s.ran[k] < |s.writes| }

  /** The writes that are done, among those enqueued. */
  function DoneOn(ws: seq<Write>, path: string, end: nat): seq<nat>
    requires end <= |ws|
  {
    if end == 0 then []
    else DoneOn(ws, path, end - 1) + if ws[end - 1].path == path && ws[end - 1].done then [end - 1] else []
  }

  /** The payload of the last write to the path that succeeded. */
  function Latest(ws: seq<Write>, path: string, end: nat): Option<string>
    requires end <= |ws|
  {
    if end == 0 then None
    else if ws[end - 1].path == path && ws[end - 1].done && ws[end - 1].succeeded then Some(ws[end - 1].payload)
    else Latest(ws, path, end - 1)
  }

  function Content(files: map<string, string>, path: string): Option<string> {
    if path in files then Some(files[path]) else None
  }

  /** What ran on a path is what is done, in enqueue order, each once; the file holds the latest of it. */
  ghost predicate PathTrue(s: State, path: string)
    requires Recorded(s)
  {
    && RanOn(s.writes, s.ran, path) == DoneOn(s.writes, path, |s.writes|)
    && Content(s.files, path) == Latest(s.writes, path, |s.writes|)
  }

  ghost predicate Faithful(s: State) { Recorded(s) && forall p :: PathTrue(s, p) }

  /** Up to `end`, only marks of cleaning differ. */
  ghost predicate SameUpTo(ws: seq<Write>, ws': seq<Write>, end: nat)
    requires end <= |ws| && end <= |ws'|
  {
    forall k :: 0 <= k < end ==>
      && ws'[k].path == ws[k].path && ws'[k].payload == ws[k].payload && ws'[k].done == ws[k].done
      && ws'[k].succeeded == ws[k].succeeded
  }

  lemma {:induction false} SameHistory(ws: seq<Write>, ws': seq<Write>, path: string, end: nat)
    requires end <= |ws| && end <= |ws'| && SameUpTo(ws, ws', end)
    ensures DoneOn(ws', path, end) == DoneOn(ws, path, end) && Latest(ws', path, end) == Latest(ws, path, end)
  {
    if end > 0 { SameHistory(ws, ws', path, end - 1); }
  }

  lemma {:induction false} SameRan(ws: seq<Write>, ws': seq<Write>, ran: seq<nat>, path: string)
    requires |ws| <= |ws'| && forall k :: 0 <= k < |ran| ==> ran[k] < |ws|
    requires forall k :: 0 <= k < |ws| ==> ws'[k].path == ws[k].path
    ensures RanOn(ws', ran, path) == RanOn(ws, ran, path)
  {
    if ran != [] { SameRan(ws, ws', ran[..|ran| - 1], path); }
  }

  /** Past the last write that is done nothing is added. */
  lemma {:induction false} NothingPast(ws: seq<Write>, path: string, from: nat, end: nat)
    requires from <= end <= |ws| && forall k :: from <= k < end && ws[k].path == path ==> !ws[k].done
    ensures DoneOn(ws, path, end) == DoneOn(ws, path, from) && Latest(ws, path, end) == Latest(ws, path, from)
  {
    if from < end { NothingPast(ws, path, from, end - 1); }
  }

  lemma {:induction false} ElsewhereUnchanged(ws: seq<Write>, write: nat, w: Write, path: string, end: nat)
    requires write < |ws| && end <= |ws| && w.path == ws[write].path != path
    ensures var ws' := ws[write := w];
            DoneOn(ws', path, end) == DoneOn(ws, path, end) && Latest(ws', path, end) == Latest(ws, path, end)
  {
    if end > 0 { ElsewhereUnchanged(ws, write, w, path, end - 1); }
  }

  lemma NoneDoneAfter(s: State, write: nat)
    requires Serial(s) && Due(s, write)
    ensures forall k :: write <= k < |s.writes| && s.writes[k].path == s.writes[write].path ==> !s.writes[k].done
  {
  }

  lemma DoneHere(ws: seq<Write>, write: nat)
    requires write < |ws| && ws[write].done
    ensures DoneOn(ws, ws[write].path, write + 1) == DoneOn(ws, ws[write].path, write) + [write]
    ensures Latest(ws, ws[write].path, write + 1)
         == if ws[write].succeeded then Some(ws[write].payload) else Latest(ws, ws[write].path, write)
  {
  }

  /** Marking the next write of a path done adds exactly it at the end of what is done. */
  lemma DoneNext(ws: seq<Write>, write: nat, w: Write)
    requires write < |ws| && w.path == ws[write].path && w.done
    requires forall k :: write <= k < |ws| && ws[k].path == w.path ==> !ws[k].done
    ensures var ws' := ws[write := w];
            && DoneOn(ws', w.path, |ws|) == DoneOn(ws, w.path, |ws|) + [write]
            && Latest(ws', w.path, |ws|) == if w.succeeded then Some(w.payload) else Latest(ws, w.path, |ws|)
  {
    var ws', path := ws[write := w], w.path;
    assert DoneOn(ws, path, |ws|) == DoneOn(ws, path, write) && Latest(ws, path, |ws|) == Latest(ws, path, write) by {
      NothingPast(ws, path, write, |ws|);
    }
    assert DoneOn(ws', path, |ws|) == DoneOn(ws', path, write + 1)
           && Latest(ws', path, |ws|) == Latest(ws', path, write + 1) by {
      NothingPast(ws', path, write + 1, |ws|);
    }
    DoneHere(ws', write);
    SameHistory(ws, ws', path, write);
  }

  lemma RunKeepsPath(s: State, write: nat, succeeds: bool, path: string)
    requires Serial(s) && Due(s, write) && Recorded(s) && PathTrue(s, path)
    ensures PathTrue(Ran(s, write, succeeds), path)
  {
    var s' := Ran(s, write, succeeds);
    var w := s'.writes[write];
    assert s'.ran[..|s'.ran| - 1] == s.ran;
    SameRan(s.writes, s'.writes, s.ran, path);
    if path == w.path {
      NoneDoneAfter(s, write);
      DoneNext(s.writes, write, w);
    } else {
      ElsewhereUnchanged(s.writes, write, w, path, |s.writes|);
    }
  }

  /** What neither runs nor reorders a write leaves every path as it was. */
  lemma QuietKeepsPath(s: State, op: Op, path: string)
    requires !op.RunWrite? && Recorded(s) && PathTrue(s, path)
    ensures Recorded(Apply(s, op)) && PathTrue(Apply(s, op), path)
  {
    SameRan(s.writes, Apply(s, op).writes, s.ran, path);
    SameHistory(s.writes, Apply(s, op).writes, path, |s.writes|);
  }

  lemma StepKeepsFaithful(s: State, op: Op)
    requires Serial(s) && Faithful(s)
    ensures Faithful(Apply(s, op))
  {
    forall p
      ensures PathTrue(Apply(s, op), p)
    {
      assert PathTrue(s, p);
      if !op.RunWrite? {
        QuietKeepsPath(s, op, p);
      } else if Due(s, op.write) {
        RunKeepsPath(s, op.write, op.succeeds, p);
      }
    }
  }

  /** Everything above, in every interleaving of writers, writes and clean-ups. */
  lemma {:induction false} EveryRunSerial(ops: seq<Op>)
    ensures Serial(Run(ops)) && Faithful(Run(ops))
  {
    if ops != [] {
      EveryRunSerial(ops[..|ops| - 1]);
      StepKeepsSerial(Run(ops[..|ops| - 1]), ops[|ops| - 1]);
      StepKeepsFaithful(Run(ops[..|ops| - 1]), ops[|ops| - 1]);
    }
  }

  lemma {:induction false} DoneIsPrefix(ws: seq<Write>, path: string, end: nat)
    requires end <= |ws| && InOrder(ws)
    ensures DoneOn(ws, path, end) <= Enqueued(ws, path, end)
    ensures AllDoneBefore(ws, path, end) ==> DoneOn(ws, path, end) == Enqueued(ws, path, end)
  {
    if end > 0 { DoneIsPrefix(ws, path, end - 1); }
  }

  /**
   * In every run, whatever fails: the writes that ran on a path are a prefix of those enqueued for
   * it, in that order, each once; all of them once its queue entry is gone.
   */
  lemma WritesRunInEnqueueOrder(ops: seq<Op>, path: string)
    ensures Recorded(Run(ops))
    ensures var s := Run(ops); RanOn(s.writes, s.ran, path) <= Enqueued(s.writes, path, |s.writes|)
    ensures var s := Run(ops); path !in s.queues ==> RanOn(s.writes, s.ran, path) == Enqueued(s.writes, path, |s.writes|)
  {
    EveryRunSerial(ops);
    assert PathTrue(Run(ops), path);
    DoneIsPrefix(Run(ops).writes, path, |Run(ops).writes|);
  }

  /** Once every write to a path is done, its file holds the last of them, in enqueue order, that succeeded. */
  lemma FileHoldsLatest(ops: seq<Op>, path: string, last: nat)
    requires last < |Run(ops).writes| && Run(ops).writes[last].path == path && IsDone(Run(ops), last)
    requires Run(ops).writes[last].succeeded
    requires forall k :: last < k < |Run(ops).writes| && Run(ops).writes[k].path == path ==> !Run(ops).writes[k].succeeded
    ensures Content(Run(ops).files, path) == Some(Run(ops).writes[last].payload)
  {
    EveryRunSerial(ops);
    assert PathTrue(Run(ops), path);
    LatestIs(Run(ops).writes, path, last, |Run(ops).writes|);
  }

  lemma {:induction false} LatestIs(ws: seq<Write>, path: string, last: nat, end: nat)
    requires last < end <= |ws| && ws[last].path == path && ws[last].done && ws[last].succeeded
    requires forall k :: last < k < end && ws[k].path == path ==> !ws[k].succeeded
    ensures Latest(ws, path, end) == Some(ws[last].payload)
  {
    if last + 1 < end { LatestIs(ws, path, last, end - 1); }
  }

  /** A failed write never blocks the chain: while something is outstanding on a path, its first outstanding write is due. */
  lemma NothingStalls(ops: seq<Op>, write: nat)
    requires write < |Run(ops).writes| && !Run(ops).writes[write].done
    requires AllDoneBefore(Run(ops).writes, Run(ops).writes[write].path, write)
    ensures Due(Run(ops), write)
  {
    EveryRunSerial(ops);
    var s := Run(ops);
    assert s.writes[write].after.Some? ==> s.writes[s.writes[write].after.value].path == s.writes[write].path;
  }

  // ---------------------------------------------------------------------------------------------
  // The persistence object

  class AgentPersistence {
    var writeQueues: map<string, nat>
    var writes: seq<Write>
    var files: map<string, string>
    ghost var ran: seq<nat>

    ghost function View(): State
      reads this
    {
      State(writes, writeQueues, ran, files)
    }

    constructor ()
      ensures View() == INITIAL
    {
      writeQueues, writes, files, ran := map[], [], map[], [];
    }

    method EnqueueWrite(path: string, payload: string) returns (chain: nat)
      modifies this
      ensures View() == Apply(old(View()), Enqueue(path, payload))
      ensures chain == |old(writes)|
    {
      var previous := if path in writeQueues then Some(writeQueues[path]) else None;
      chain := |writes|;
      writes := writes + [Write(path, payload, previous, false, false, false)];
      writeQueues := writeQueues[path := chain];
    }

    /** The callback of a link, run when the link before it has settled either way. */
    method OnPreviousSettled(write: nat, succeeds: bool)
      requires Due(View(), write)
      modifies this
      ensures View() == Apply(old(View()), RunWrite(write, succeeds))
    {
      var w := writes[write];
      if succeeds {
        files := files[w.path := w.payload];
      }
      writes := writes[write := w.(done := true, succeeded := succeeds)];
      ran := ran + [write];
    }

    method OnTailSettled(write: nat)
      requires CleanUpDue(View(), write)
      modifies this
      ensures View() == Apply(old(View()), CleanUp(write))
    {
      var path := writes[write].path;
      if path in writeQueues && writeQueues[path] == write {
        writeQueues := writeQueues - {path};
      }
      writes := writes[write := writes[write].(cleaned := true)];
    }
  }
}
