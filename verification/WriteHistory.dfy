/** What the files hold, told from the history of a run alone. */
module WriteHistory {
  import opened Common
  import opened WriteQueue

  /** What was enqueued, in order: the path and the payload of every write. */
  function Orders(ops: seq<Op>): seq<(string, string)> {
    if ops == [] then []
    else
      var earlier, last := Orders(ops[..|ops| - 1]), ops[|ops| - 1];
      if last.Enqueue? then earlier + [(last.path, last.payload)] else earlier
  }

  /** The write has had its turn, whether it succeeded or not. */
  predicate Over(ops: seq<Op>, w: nat)
    decreases |ops|, 0
  {
    if ops == [] then false
    else
      var init, last := ops[..|ops| - 1], ops[|ops| - 1];
      Over(init, w) || (last.RunWrite? && last.write == w && Ready(init, w))
  }

  /** It is the turn of this write: it has not had it, and every earlier write to its path has. */
  predicate Ready(ops: seq<Op>, w: nat)
    decreases |ops|, 1
  {
    && w < |Orders(ops)| && !Over(ops, w)
    && forall k :: 0 <= k < w && Orders(ops)[k].0 == Orders(ops)[w].0 ==> Over(ops, k)
  }

  /** What was last saved to the path: a write succeeds when it is its turn and the file system lets it. */
  function Saved(ops: seq<Op>, path: string): Option<string> {
    if ops == [] then None
    else
      var init, last := ops[..|ops| - 1], ops[|ops| - 1];
      if last.RunWrite? && last.succeeds && Ready(init, last.write) && Orders(init)[last.write].0 == path
      then Some(Orders(init)[last.write].1)
      else Saved(init, path)
  }

  /** The write has had its turn and been cleaned up after. */
  predicate Swept(ops: seq<Op>, w: nat) {
    if ops == [] then false
    else
      var init, last := ops[..|ops| - 1], ops[|ops| - 1];
      Swept(init, w) || (last == CleanUp(w) && Over(init, w))
  }

  /** The write that the path's queue entry stands for: the last enqueued, until it is cleaned up after. */
  function Tail(ops: seq<Op>, path: string): Option<nat> {
    if ops == [] then None
    else
      var init, last := ops[..|ops| - 1], ops[|ops| - 1];
      if last.Enqueue? && last.path == path then Some(|Orders(init)|)
      else if last.CleanUp? && Tail(init, path) == Some(last.write) && Over(init, last.write) && !Swept(init, last.write)
      then None
      else Tail(init, path)
  }

  predicate WriteTells(w: Write, order: (string, string), over: bool, swept: bool) {
    && w.path == order.0 && w.payload == order.1 && (w.done <==> over) && (w.cleaned <==> swept)
    && (w.succeeded ==> w.done)
  }

  ghost predicate WritesTell(s: State, ops: seq<Op>) {
    && |s.writes| == |Orders(ops)|
    && forall w: nat :: w < |Orders(ops)| ==> WriteTells(s.writes[w], Orders(ops)[w], Over(ops, w), Swept(ops, w))
  }

  /** The path's file and its queue entry are what they are told to be. */
  predicate PathTells(s: State, path: string, saved: Option<string>, tail: Option<nat>) {
    && Content(s.files, path) == saved
    && tail == if path in s.queues then Some(s.queues[path]) else None
  }

  ghost predicate Tells(s: State, ops: seq<Op>) {
    WritesTell(s, ops) && forall path :: PathTells(s, path, Saved(ops, path), Tail(ops, path))
  }

  /** A write is due exactly when it has not run and every earlier write to its path has. */
  lemma DueExactlyWhen(s: State, w: nat)
    requires Serial(s)
    ensures Due(s, w) <==>
              w < |s.writes| && !s.writes[w].done && AllDoneBefore(s.writes, s.writes[w].path, w)
  {
    if Due(s, w) { DueMeansNext(s, w); }
  }

  lemma ReadyIsDue(s: State, ops: seq<Op>, w: nat)
    requires Serial(s) && WritesTell(s, ops)
    ensures Due(s, w) <==> Ready(ops, w)
  {
    DueExactlyWhen(s, w);
    if w < |s.writes| {
      assert WriteTells(s.writes[w], Orders(ops)[w], Over(ops, w), Swept(ops, w));
      forall k: nat | k < w
        ensures WriteTells(s.writes[k], Orders(ops)[k], Over(ops, k), Swept(ops, k))
      {
      }
    }
  }

  lemma {:induction false} NothingBeforeItsOrder(ops: seq<Op>, w: nat)
    requires w >= |Orders(ops)|
    ensures !Over(ops, w) && !Swept(ops, w)
  {
    if ops != [] { NothingBeforeItsOrder(ops[..|ops| - 1], w); }
  }

  /** What one operation makes of one write. */
  lemma StepWrite(s: State, op: Op, w: nat, order: (string, string), over: bool, swept: bool)
    requires w < |s.writes| && WriteTells(s.writes[w], order, over, swept)
    ensures w < |Apply(s, op).writes|
    ensures WriteTells(Apply(s, op).writes[w], order, over || (op.RunWrite? && op.write == w && Due(s, w)),
                       swept || (op == CleanUp(w) && over))
  {
  }

  lemma WritesStep(s: State, ops: seq<Op>)
    requires ops != [] && Serial(s) && WritesTell(s, ops[..|ops| - 1])
    ensures WritesTell(Apply(s, ops[|ops| - 1]), ops)
  {
    var init, op := ops[..|ops| - 1], ops[|ops| - 1];
    forall w: nat | w < |Orders(ops)|
      ensures WriteTells(Apply(s, op).writes[w], Orders(ops)[w], Over(ops, w), Swept(ops, w))
    {
      if w < |Orders(init)| {
        ReadyIsDue(s, init, w);
        StepWrite(s, op, w, Orders(init)[w], Over(init, w), Swept(init, w));
      } else {
        NothingBeforeItsOrder(init, w);
      }
    }
  }

  /** What one operation makes of one path. */
  lemma StepPath(s: State, op: Op, path: string, saved: Option<string>, tail: Option<nat>)
    requires PathTells(s, path, saved, tail)
    ensures PathTells(Apply(s, op), path,
                      if op.RunWrite? && op.succeeds && Due(s, op.write) && s.writes[op.write].path == path
                      then Some(s.writes[op.write].payload) else saved,
                      if op.Enqueue? && op.path == path then Some(|s.writes|)
                      else if op.CleanUp? && tail == Some(op.write) && CleanUpDue(s, op.write)
                              && s.writes[op.write].path == path then None
                      else tail)
  {
  }

  lemma PathStep(s: State, ops: seq<Op>, path: string)
    requires ops != [] && Serial(s) && Tells(s, ops[..|ops| - 1])
    ensures PathTells(Apply(s, ops[|ops| - 1]), path, Saved(ops, path), Tail(ops, path))
  {
    var init, op := ops[..|ops| - 1], ops[|ops| - 1];
    assert PathTells(s, path, Saved(init, path), Tail(init, path));
    StepPath(s, op, path, Saved(init, path), Tail(init, path));
    if op.RunWrite? || op.CleanUp? {
      if op.write < |s.writes| {
        assert WriteTells(s.writes[op.write], Orders(init)[op.write], Over(init, op.write), Swept(init, op.write));
      } else {
        NothingBeforeItsOrder(init, op.write);
      }
    }
    if op.RunWrite? { ReadyIsDue(s, init, op.write); }
  }

  /**
   * In every interleaving: a write runs when every earlier write to its path has run, and not before; a
   * file holds the payload of the last write to it that ran and succeeded; and a path keeps its queue
   * entry until the last write enqueued for it has been cleaned up after.
   */
  lemma {:induction false} FilesTellTheHistory(ops: seq<Op>)
    ensures Tells(Run(ops), ops)
    ensures forall w: nat :: Due(Run(ops), w) <==> Ready(ops, w)
  {
    if ops != [] {
      var init := ops[..|ops| - 1];
      FilesTellTheHistory(init);
      EveryRunSerial(init);
      WritesStep(Run(init), ops);
      forall path
        ensures PathTells(Run(ops), path, Saved(ops, path), Tail(ops, path))
      {
        PathStep(Run(init), ops, path);
      }
    }
    EveryRunSerial(ops);
    forall w: nat
      ensures Due(Run(ops), w) <==> Ready(ops, w)
    {
      ReadyIsDue(Run(ops), ops, w);
    }
  }
}
