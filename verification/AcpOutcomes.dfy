/** Which outcome every caller of a connection gets, and what its subscribers are told, from the events alone. */
module AcpOutcomes {
  import opened Common
  import opened PieceStream
  import opened AcpFraming
  import opened AcpConnection

  /** The connection was closed at some point. */
  predicate WasClosed(ops: seq<Op>) { Op.Close in ops }

  /** How many requests were made before the connection closed; they have the ids from 1 on. */
  function Issued(ops: seq<Op>): nat {
    if ops == [] then 0
    else
      var init, last := ops[..|ops| - 1], ops[|ops| - 1];
      Issued(init) + if last.Request? && !WasClosed(init) then 1 else 0
  }

  /** The messages that all the data so far amount to. */
  function Arrived(decode: Decoder, ops: seq<Op>): seq<Message> { Feed(Reader(decode), Chunks(ops)).0 }

  /** The first message with this id. */
  function FirstWith(ms: seq<Message>, id: nat): Option<Message> {
    if ms == [] then None else if ms[0].id == NumberId(id) then Some(ms[0]) else FirstWith(ms[1..], id)
  }

  /** What a message means for a caller. */
  function Reading(answer: Option<Message>): Option<Outcome> {
    match answer
    case None => None
    case Some(m) => if m.isError then Some(ErrorResponse(m)) else Some(Resolved(m))
  }

  /** What an event other than data means for the caller of request `id` when `issued` requests have been made. */
  function PlainEffect(op: Op, issued: nat, id: nat): Option<Outcome> {
    match op
    case Request(_, writeOk) => if id == issued + 1 && !writeOk then Some(WriteFailed) else None
    case TimerFires(i) => if i == id && 1 <= id <= issued then Some(TimedOut) else None
    case Close => if 1 <= id <= issued then Some(Outcome.Closed) else None
    case _ => None
  }

  /** What the last of these events means for the caller of the request with this id, if it is still waiting. */
  function Effect(decode: Decoder, ops: seq<Op>, id: nat): Option<Outcome>
    requires ops != []
  {
    var init, last := ops[..|ops| - 1], ops[|ops| - 1];
    if WasClosed(init) then None
    else if !last.Data? then PlainEffect(last, Issued(init), id)
    else if id == 0 || id > Issued(init) || |Arrived(decode, init)| > |Arrived(decode, ops)| then None
    else Reading(FirstWith(Arrived(decode, ops)[|Arrived(decode, init)|..], id))
  }

  /** What became of the request with this id: the first event to have an effect on it decides. */
  function Fate(decode: Decoder, ops: seq<Op>, id: nat): Option<Outcome> {
    if ops == [] then None
    else
      var before := Fate(decode, ops[..|ops| - 1], id);
      if before.Some? then before else Effect(decode, ops, id)
  }

  /** The books say of this id that it has this fate. */
  ghost predicate Books(l: Ledger, id: nat, fate: Option<Outcome>) {
    match fate
    case None => id !in l.settled
    case Some(o) => id in l.settled && l.settled[id] == o
  }

  ghost predicate Agrees(decode: Decoder, ops: seq<Op>, c: Conn) {
    && Counts(ops, c)
    && forall id: nat :: Books(c.ledger, id, Fate(decode, ops, id))
  }

  lemma {:induction false} RoundSettles(c: Conn, ms: seq<Message>, id: nat)
    requires Accounted(c.ledger)
    ensures var l, l' := c.ledger, DispatchAll(c, ms).ledger;
            && l'.nextId == l.nextId
            && (id in l.pending ==> Books(l', id, Reading(FirstWith(ms, id))))
            && (id !in l.pending ==> (id in l'.settled <==> id in l.settled))
    decreases |ms|
  {
    if ms != [] {
      DispatchKeeps(c, ms[0]);
      var next := Dispatch(c, ms[0]);
      RoundSettles(next, ms[1..], id);
      DispatchAllKeeps(next, ms[1..]);
    }
  }

  lemma DataArrives(decode: Decoder, ops: seq<Op>)
    requires ops != [] && ops[|ops| - 1].Data? && !Run(decode, ops[..|ops| - 1]).closed
    ensures var init := ops[..|ops| - 1];
            var c := Run(decode, init);
            var (ms, rest) := Drain(Reader(decode), c.buffer + ops[|ops| - 1].chunk);
            && Arrived(decode, init) == c.observed && Arrived(decode, ops) == c.observed + ms
            && Run(decode, ops) == DispatchAll(c.(buffer := rest), ms)
  {
    var init := ops[..|ops| - 1];
    ObservedIsFed(decode, init);
    FeedSnoc(Reader(decode), Chunks(init), ops[|ops| - 1].chunk);
  }

  lemma RoundBooks(c: Conn, ms: seq<Message>, id: nat, before: Option<Outcome>)
    requires Accounted(c.ledger) && Books(c.ledger, id, before)
    ensures Books(DispatchAll(c, ms).ledger, id,
                  if before.Some? then before
                  else if 1 <= id < c.ledger.nextId then Reading(FirstWith(ms, id)) else None)
  {
    RoundSettles(c, ms, id);
    DispatchAllKeeps(c, ms);
    assert id in c.ledger.pending || id in c.ledger.settled <==> 1 <= id < c.ledger.nextId;
  }

  lemma StepBooks(decode: Decoder, c: Conn, op: Op, id: nat, before: Option<Outcome>)
    requires Accounted(c.ledger) && !c.closed && !op.Data? && Books(c.ledger, id, before)
    ensures Books(Apply(decode, c, op).ledger, id,
                  if before.Some? then before else PlainEffect(op, c.ledger.nextId - 1, id))
  {
    assert id in c.ledger.pending || id in c.ledger.settled <==> 1 <= id < c.ledger.nextId;
    StepKeeps(decode, c, op);
  }

  lemma DataAgrees(decode: Decoder, ops: seq<Op>)
    requires ops != [] && ops[|ops| - 1].Data? && !Run(decode, ops[..|ops| - 1]).closed
    requires Agrees(decode, ops[..|ops| - 1], Run(decode, ops[..|ops| - 1]))
    requires Sane(Run(decode, ops[..|ops| - 1]))
    ensures Agrees(decode, ops, Run(decode, ops))
  {
    var init := ops[..|ops| - 1];
    var c := Run(decode, init);
    var (ms, rest) := Drain(Reader(decode), c.buffer + ops[|ops| - 1].chunk);
    DataArrives(decode, ops);
    CountsAgree(decode, ops, Run(decode, ops[..|ops| - 1]));
    forall id: nat
      ensures Books(Run(decode, ops).ledger, id, Fate(decode, ops, id))
    {
      EffectOfData(decode, ops, c.observed, ms, id);
      RoundBooks(c.(buffer := rest), ms, id, Fate(decode, init, id));
    }
  }

  lemma EffectOfData(decode: Decoder, ops: seq<Op>, earlier: seq<Message>, ms: seq<Message>, id: nat)
    requires ops != [] && ops[|ops| - 1].Data? && !WasClosed(ops[..|ops| - 1])
    requires Arrived(decode, ops[..|ops| - 1]) == earlier && Arrived(decode, ops) == earlier + ms
    ensures Effect(decode, ops, id)
         == if 1 <= id <= Issued(ops[..|ops| - 1]) then Reading(FirstWith(ms, id)) else None
  {
    assert (earlier + ms)[|earlier|..] == ms;
  }

  lemma StepCounts(decode: Decoder, c: Conn, op: Op)
    requires Sane(c)
    ensures var c' := Apply(decode, c, op);
            && (c'.closed <==> c.closed || op.Close?)
            && c'.ledger.nextId == c.ledger.nextId + if op.Request? && !c.closed then 1 else 0
  {
    if op.Data? && !c.closed {
      var (ms, rest) := Drain(Reader(decode), c.buffer + op.chunk);
      DispatchAllObserves(c.(buffer := rest), ms);
      RoundSettles(c.(buffer := rest), ms, 0);
    }
  }

  lemma ClosedByOneMore(ops: seq<Op>)
    requires ops != []
    ensures WasClosed(ops) <==> WasClosed(ops[..|ops| - 1]) || ops[|ops| - 1].Close?
  {
    assert ops == ops[..|ops| - 1] + [ops[|ops| - 1]];
  }

  ghost predicate Counts(ops: seq<Op>, c: Conn) { (c.closed <==> WasClosed(ops)) && c.ledger.nextId == Issued(ops) + 1 }

  lemma CountsAgree(decode: Decoder, ops: seq<Op>, c: Conn)
    requires ops != [] && Sane(c) && Counts(ops[..|ops| - 1], c)
    ensures Counts(ops, Apply(decode, c, ops[|ops| - 1]))
  {
    ClosedByOneMore(ops);
    StepCounts(decode, c, ops[|ops| - 1]);
  }

  lemma OneAgrees(decode: Decoder, ops: seq<Op>, c: Conn, id: nat)
    requires ops != [] && (!ops[|ops| - 1].Data? || c.closed) && Accounted(c.ledger)
    requires Agrees(decode, ops[..|ops| - 1], c)
    ensures Books(Apply(decode, c, ops[|ops| - 1]).ledger, id, Fate(decode, ops, id))
  {
    var init, last := ops[..|ops| - 1], ops[|ops| - 1];
    assert Books(c.ledger, id, Fate(decode, init, id));
    if !c.closed { StepBooks(decode, c, last, id, Fate(decode, init, id)); }
  }

  lemma OtherAgrees(decode: Decoder, ops: seq<Op>, c: Conn)
    requires ops != [] && (!ops[|ops| - 1].Data? || c.closed) && Sane(c) && Agrees(decode, ops[..|ops| - 1], c)
    ensures Agrees(decode, ops, Apply(decode, c, ops[|ops| - 1]))
  {
    CountsAgree(decode, ops, c);
    forall id: nat
      ensures Books(Apply(decode, c, ops[|ops| - 1]).ledger, id, Fate(decode, ops, id))
    {
      OneAgrees(decode, ops, c, id);
    }
  }

  /**
   * Over any run, every caller gets the outcome of the first event that concerns its request after it was
   * made: the failed write itself, a message with its id, which resolves it or rejects it as the message
   * says, its timer, or close. Callers of requests that no event has concerned yet are still waiting.
   */
  lemma {:induction false} EveryCallerGetsItsFate(decode: Decoder, ops: seq<Op>)
    ensures Agrees(decode, ops, Run(decode, ops))
  {
    if ops != [] {
      var init := ops[..|ops| - 1];
      EveryCallerGetsItsFate(decode, init);
      EveryRunAccounted(decode, init);
      if ops[|ops| - 1].Data? && !Run(decode, init).closed {
        DataAgrees(decode, ops);
      } else {
        OtherAgrees(decode, ops, Run(decode, init));
      }
    }
  }

  function EffectAt(decode: Decoder, ops: seq<Op>, k: nat, id: nat): Option<Outcome>
    requires k < |ops|
  {
    Effect(decode, ops[..k + 1], id)
  }

  /** Event k is the first to concern the request, and this is what it does. */
  ghost predicate Decides(decode: Decoder, ops: seq<Op>, k: nat, id: nat, o: Outcome) {
    && k < |ops| && EffectAt(decode, ops, k, id) == Some(o)
    && forall j: nat :: j < k ==> EffectAt(decode, ops, j, id) == None
  }

  lemma {:induction false} FateIsFirstEffect(decode: Decoder, ops: seq<Op>, id: nat) returns (k: nat)
    ensures match Fate(decode, ops, id)
            case Some(o) => Decides(decode, ops, k, id, o)
            case None => forall j: nat :: j < |ops| ==> EffectAt(decode, ops, j, id) == None
  {
    k := 0;
    if ops != [] {
      var init := ops[..|ops| - 1];
      k := FateIsFirstEffect(decode, init, id);
      forall j: nat | j < |init|
        ensures EffectAt(decode, ops, j, id) == EffectAt(decode, init, j, id)
      {
        assert init[..j + 1] == ops[..j + 1];
      }
      assert ops[..|ops|] == ops && EffectAt(decode, ops, |init|, id) == Effect(decode, ops, id);
      if Fate(decode, init, id).None? { k := |init|; }
    }
  }

  /**
   * A caller has an outcome if and only if some event is the first to concern its request and has that
   * outcome for effect. So it resolves with m exactly when the first thing to end the wait was a message
   * m with its id that is not an error, and so on for every other outcome.
   */
  lemma OutcomeExactlyWhen(decode: Decoder, ops: seq<Op>, id: nat, o: Outcome)
    ensures var l := Run(decode, ops).ledger;
            id in l.settled && l.settled[id] == o <==> exists k: nat :: Decides(decode, ops, k, id, o)
  {
    EveryCallerGetsItsFate(decode, ops);
    var l := Run(decode, ops).ledger;
    assert Books(l, id, Fate(decode, ops, id));
    var k := FateIsFirstEffect(decode, ops, id);
    if j: nat :| Decides(decode, ops, j, id, o) {
      assert EffectAt(decode, ops, j, id) == Some(o);
      assert Fate(decode, ops, id).Some? && Decides(decode, ops, k, id, Fate(decode, ops, id).value);
      assert k == j;
    }
  }

  // ---------------------------------------------------------------------------------------------
  // Subscribers

  /** The messages without an id that name a method. */
  function Notices(ms: seq<Message>): seq<Message> {
    if ms == [] then []
    else
      var earlier, last := Notices(ms[..|ms| - 1]), ms[|ms| - 1];
      if last.id.NoId? && last.method_.Some? then earlier + [last] else earlier
  }

  lemma {:induction false} RoundNotifies(c: Conn, ms: seq<Message>)
    requires c.notified == Notices(c.observed)
    ensures var c' := DispatchAll(c, ms); c'.notified == Notices(c'.observed)
    decreases |ms|
  {
    if ms != [] {
      assert (c.observed + [ms[0]])[..|c.observed|] == c.observed;
      RoundNotifies(Dispatch(c, ms[0]), ms[1..]);
    }
  }

  /** The events before the connection closed. */
  function WhileOpen(ops: seq<Op>): seq<Op> {
    if ops == [] then []
    else
      var init, last := ops[..|ops| - 1], ops[|ops| - 1];
      if WasClosed(init) || last.Close? then WhileOpen(init) else WhileOpen(init) + [last]
  }

  lemma {:induction false} OpenAllAlong(ops: seq<Op>)
    requires !WasClosed(ops)
    ensures WhileOpen(ops) == ops
  {
    if ops != [] {
      var init, last := ops[..|ops| - 1], ops[|ops| - 1];
      assert ops == init + [last];
      OpenAllAlong(init);
    }
  }

  /**
   * In every run the notification subscribers have been told of exactly the observed messages without an
   * id that name a method, in order; and what was observed is what arrived while the connection was open.
   */
  lemma {:induction false} SubscribersAreTold(decode: Decoder, ops: seq<Op>)
    ensures Run(decode, ops).notified == Notices(Run(decode, ops).observed)
    ensures Run(decode, ops).observed == Arrived(decode, WhileOpen(ops))
  {
    if ops != [] {
      var init, last := ops[..|ops| - 1], ops[|ops| - 1];
      SubscribersAreTold(decode, init);
      EveryCallerGetsItsFate(decode, init);
      EveryCallerGetsItsFate(decode, ops);
      if last.Data? && !Run(decode, init).closed {
        DataArrives(decode, ops);
        var c := Run(decode, init);
        var (ms, rest) := Drain(Reader(decode), c.buffer + last.chunk);
        RoundNotifies(c.(buffer := rest), ms);
      }
      ClosedByOneMore(ops);
      if !WasClosed(ops) {
        OpenAllAlong(ops);
        ObservedIsFed(decode, ops);
      }
    }
  }
}
