/** Request and response demultiplexing over a framed stream: every request settles exactly once. */
module AcpConnection {
  import opened Common
  import opened PieceStream
  import opened AcpFraming

  /** A message's `id` member: absent, a number, or anything else (which no pending request has). */
  datatype MessageId = NoId | NumberId(n: int) | OtherId

  datatype Message = Message(id: MessageId, isError: bool, method_: Option<string>, payload: string)

  datatype Outcome = Resolved(m: Message) | ErrorResponse(m: Message) | TimedOut | WriteFailed | Closed

  type Decoder = string -> Option<Message>

  /**
   * The books of a connection: `pending` and `timers` are the ids awaiting an answer and the ids whose
   * timer is armed, `settled` the outcome each caller got, and `settlements` how many times callers
   * have been called back.
   */
  datatype Ledger = Ledger(nextId: nat, pending: set<nat>, timers: set<nat>, settled: map<nat, Outcome>,
                           settlements: nat)

  /** A connection, with what its subscribers and its stream have seen. */
  datatype Conn = Conn(ledger: Ledger, buffer: string, closed: bool,
                       observed: seq<Message>, notified: seq<Message>, written: seq<string>)

  const FRESH := Conn(Ledger(1, {}, {}, map[], 0), "", false, [], [], [])

  datatype Op =
    | Request(body: string, writeOk: bool)
    | Notify(body: string, writeOk: bool)
    | Data(chunk: string)
    | TimerFires(id: nat)
    | Close

  function Issue(l: Ledger): Ledger {
    l.(nextId := l.nextId + 1, pending := l.pending + {l.nextId}, timers := l.timers + {l.nextId})
  }

  function SettleOne(l: Ledger, id: nat, outcome: Outcome): Ledger {
    l.(pending := l.pending - {id}, timers := l.timers - {id}, settled := l.settled[id := outcome],
       settlements := l.settlements + 1)
  }

  function Closings(ids: set<nat>): map<nat, Outcome> { map id | id in ids :: Outcome.Closed }

  function SettleAll(l: Ledger): Ledger {
    l.(pending := {}, timers := {}, settled := l.settled + Closings(l.pending),
       settlements := l.settlements + |l.pending|)
  }

  /** The pending request a message answers, if any. */
  function Answers(l: Ledger, m: Message): Option<nat> {
    if m.id.NumberId? && m.id.n >= 0 && m.id.n in l.pending then Some(m.id.n) else None
  }

  function Verdict(m: Message): Outcome { if m.isError then ErrorResponse(m) else Resolved(m) }

  function Dispatch(c: Conn, m: Message): Conn {
    var seen := c.(observed := c.observed + [m]);
    if Answers(c.ledger, m).Some? then seen.(ledger := SettleOne(c.ledger, Answers(c.ledger, m).value, Verdict(m)))
    else if m.id.NoId? && m.method_.Some? then seen.(notified := seen.notified + [m])
    else seen
  }

  function DispatchAll(c: Conn, ms: seq<Message>): Conn
    decreases |ms|
  {
    if ms == [] then c else DispatchAll(Dispatch(c, ms[0]), ms[1..])
  }

  /** All frames are taken off the buffer and dispatched. */
  function Drained(decode: Decoder, c: Conn): Conn {
    var (ms, rest) := Drain(Reader(decode), c.buffer);
    DispatchAll(c.(buffer := rest), ms)
  }

  function Receive(decode: Decoder, c: Conn, chunk: string): Conn { Drained(decode, c.(buffer := c.buffer + chunk)) }

  lemma DispatchKeepsBuffer(c: Conn, m: Message, rest: string)
    ensures Dispatch(c, m).(buffer := rest) == Dispatch(c.(buffer := rest), m)
  {
  }

  /** Taking one frame off and dispatching it makes no difference to the end. */
  lemma DrainedStep(decode: Decoder, c: Conn)
    ensures var (message, rest) := ExtractFrame(decode, c.buffer);
            Drained(decode, c) == if message.None? then c.(buffer := rest)
                                  else Drained(decode, Dispatch(c.(buffer := rest), message.value))
  {
    var (message, rest) := ExtractFrame(decode, c.buffer);
    if message.Some? {
      var (ms, left) := Drain(Reader(decode), rest);
      assert ([message.value] + ms)[1..] == ms;
      DispatchKeepsBuffer(c.(buffer := rest), message.value, left);
    }
  }

  function Apply(decode: Decoder, c: Conn, op: Op): Conn {
    if c.closed then c
    else
      match op
      case Request(body, writeOk) =>
        if writeOk then c.(ledger := Issue(c.ledger), written := c.written + [Frame(body)])
        else c.(ledger := SettleOne(Issue(c.ledger), c.ledger.nextId, WriteFailed))
      case Notify(body, writeOk) => if writeOk then c.(written := c.written + [Frame(body)]) else c
      case Data(chunk) => Receive(decode, c, chunk)
      case TimerFires(id) =>
        if id in c.ledger.timers then c.(ledger := SettleOne(c.ledger, id, TimedOut)) else c
      case Close => c.(closed := true, buffer := "", ledger := SettleAll(c.ledger))
  }

  function Run(decode: Decoder, ops: seq<Op>): Conn {
    if ops == [] then FRESH else Apply(decode, Run(decode, ops[..|ops| - 1]), ops[|ops| - 1])
  }

  // ---------------------------------------------------------------------------------------------
  // Settlement

  /** Issued ids are split between pending and settled, each settled once; a timer runs for each pending one. */
  ghost predicate Accounted(l: Ledger) {
    && l.nextId >= 1
    && (forall id: nat :: id in l.pending || id in l.settled <==> 1 <= id < l.nextId)
    && l.pending !! l.settled.Keys
    && l.timers == l.pending && l.settlements == |l.settled|
  }

  /** From one ledger to a later one: no outcome changes, and only ids that were not settled yet settle. */
  ghost predicate Extends(before: Ledger, after: Ledger) {
    && before.nextId <= after.nextId
    && (forall id :: id in before.settled ==> id in after.settled && after.settled[id] == before.settled[id])
    && (forall id :: id in after.settled && id !in before.settled ==> id in before.pending || id >= before.nextId)
  }

  lemma IssueKeeps(l: Ledger)
    requires Accounted(l)
    ensures Accounted(Issue(l)) && Extends(l, Issue(l)) && l.nextId in Issue(l).pending
  {
  }

  lemma SettleKeeps(l: Ledger, id: nat, outcome: Outcome)
    requires Accounted(l) && id in l.pending
    ensures Accounted(SettleOne(l, id, outcome)) && Extends(l, SettleOne(l, id, outcome))
  {
    assert SettleOne(l, id, outcome).settled.Keys == l.settled.Keys + {id};
  }

  lemma SettleAllKeeps(l: Ledger)
    requires Accounted(l)
    ensures Accounted(SettleAll(l)) && Extends(l, SettleAll(l))
  {
    assert SettleAll(l).settled.Keys == l.settled.Keys + l.pending;
    assert |l.settled.Keys + l.pending| == |l.settled.Keys| + |l.pending|;
  }

  lemma DispatchKeeps(c: Conn, m: Message)
    requires Accounted(c.ledger)
    ensures Accounted(Dispatch(c, m).ledger) && Extends(c.ledger, Dispatch(c, m).ledger)
  {
    if Answers(c.ledger, m).Some? { SettleKeeps(c.ledger, Answers(c.ledger, m).value, Verdict(m)); }
  }

  lemma {:induction false} DispatchAllKeeps(c: Conn, ms: seq<Message>)
    requires Accounted(c.ledger)
    ensures Accounted(DispatchAll(c, ms).ledger) && Extends(c.ledger, DispatchAll(c, ms).ledger)
    decreases |ms|
  {
    if ms != [] {
      DispatchKeeps(c, ms[0]);
      DispatchAllKeeps(Dispatch(c, ms[0]), ms[1..]);
      ExtendsTransitive(c.ledger, Dispatch(c, ms[0]).ledger, DispatchAll(c, ms).ledger);
    }
  }

  lemma {:induction false} DispatchAllObserves(c: Conn, ms: seq<Message>)
    ensures var c' := DispatchAll(c, ms);
            && c'.buffer == c.buffer && c'.closed == c.closed
            && c'.observed == c.observed + ms && c'.written == c.written
    decreases |ms|
  {
    if ms != [] {
      DispatchAllObserves(Dispatch(c, ms[0]), ms[1..]);
      assert c.observed + ms == (c.observed + [ms[0]]) + ms[1..];
    }
  }

  lemma ReceiveKeeps(decode: Decoder, c: Conn, chunk: string)
    requires Accounted(c.ledger)
    ensures var c' := Receive(decode, c, chunk);
            && Accounted(c'.ledger) && Extends(c.ledger, c'.ledger) && c'.closed == c.closed && c'.written == c.written
            && var (ms, rest) := Drain(Reader(decode), c.buffer + chunk);
               c'.observed == c.observed + ms && c'.buffer == rest
  {
    var (ms, rest) := Drain(Reader(decode), c.buffer + chunk);
    DispatchAllKeeps(c.(buffer := rest), ms);
    DispatchAllObserves(c.(buffer := rest), ms);
  }

  ghost predicate Sane(c: Conn) {
    Accounted(c.ledger) && (c.closed ==> c.ledger.pending == {} && c.buffer == "")
  }

  lemma StepKeeps(decode: Decoder, c: Conn, op: Op)
    requires Sane(c)
    ensures Sane(Apply(decode, c, op)) && Extends(c.ledger, Apply(decode, c, op).ledger)
  {
    if !c.closed {
      match op
      case Request(body, writeOk) =>
        IssueKeeps(c.ledger);
        SettleKeeps(Issue(c.ledger), c.ledger.nextId, WriteFailed);
      case Notify(_, _) =>
      case Data(chunk) => ReceiveKeeps(decode, c, chunk);
      case TimerFires(id) => if id in c.ledger.timers { SettleKeeps(c.ledger, id, TimedOut); }
      case Close => SettleAllKeeps(c.ledger);
    }
  }

  /**
   * Over any run of requests, notifications, data, timeouts, write failures and close: ids are issued
   * once each; the issued ids split disjointly into pending and settled; callers have been called
   * back exactly as often as there are settled requests; after close nothing is pending.
   */
  lemma {:induction false} EveryRunAccounted(decode: Decoder, ops: seq<Op>)
    ensures Sane(Run(decode, ops))
  {
    if ops != [] {
      EveryRunAccounted(decode, ops[..|ops| - 1]);
      StepKeeps(decode, Run(decode, ops[..|ops| - 1]), ops[|ops| - 1]);
    }
  }

  /** An outcome, once given, is final, and an id is never issued again: every later state extends the earlier. */
  lemma {:induction false} OutcomesAreFinal(decode: Decoder, ops: seq<Op>, more: seq<Op>)
    ensures Extends(Run(decode, ops).ledger, Run(decode, ops + more).ledger)
  {
    if more == [] {
      assert ops + more == ops;
    } else {
      var init, last := more[..|more| - 1], more[|more| - 1];
      OutcomesAreFinal(decode, ops, init);
      assert (ops + more)[..|ops + more| - 1] == ops + init && (ops + more)[|ops + more| - 1] == last;
      EveryRunAccounted(decode, ops);
      EveryRunAccounted(decode, ops + init);
      StepKeeps(decode, Run(decode, ops + init), last);
      ExtendsTransitive(Run(decode, ops).ledger, Run(decode, ops + init).ledger, Run(decode, ops + more).ledger);
    }
  }

  lemma ExtendsTransitive(a: Ledger, b: Ledger, c: Ledger)
    requires Accounted(a) && Accounted(b) && Extends(a, b) && Extends(b, c)
    ensures Extends(a, c)
  {
  }

  /** Late, repeated or unknown responses reach observers and change nothing else. */
  lemma UnknownResponseChangesNothing(c: Conn, m: Message)
    requires !m.id.NoId? && !(m.id.NumberId? && m.id.n >= 0 && m.id.n in c.ledger.pending)
    ensures Dispatch(c, m) == c.(observed := c.observed + [m])
  {
  }

  /** After close every request ever issued has been settled, and no operation does anything any more. */
  lemma {:induction false} ClosedIsFinal(decode: Decoder, ops: seq<Op>, op: Op)
    requires Run(decode, ops).closed
    ensures forall id: nat :: id in Run(decode, ops).ledger.settled <==> 1 <= id < Run(decode, ops).ledger.nextId
    ensures Apply(decode, Run(decode, ops), op) == Run(decode, ops)
  {
    EveryRunAccounted(decode, ops);
  }

  // ---------------------------------------------------------------------------------------------
  // End to end

  function Chunks(ops: seq<Op>): seq<string> {
    if ops == [] then []
    else
      var earlier := Chunks(ops[..|ops| - 1]);
      if ops[|ops| - 1].Data? then earlier + [ops[|ops| - 1].chunk] else earlier
  }

  /** The bodies whose frames a run wrote. */
  function Sent(decode: Decoder, ops: seq<Op>): seq<string> {
    if ops == [] then []
    else
      var init, last := ops[..|ops| - 1], ops[|ops| - 1];
      if (last.Request? || last.Notify?) && last.writeOk && !Run(decode, init).closed
      then Sent(decode, init) + [last.body]
      else Sent(decode, init)
  }

  lemma {:induction false} WrittenAreFrames(decode: Decoder, ops: seq<Op>)
    ensures Run(decode, ops).written == Frames(Sent(decode, ops))
  {
    if ops != [] {
      var init, last := ops[..|ops| - 1], ops[|ops| - 1];
      WrittenAreFrames(decode, init);
      EveryRunAccounted(decode, init);
      if last.Data? { ReceiveKeeps(decode, Run(decode, init), last.chunk); }
    }
  }

  /** While open, a connection has observed exactly what its chunks deliver. */
  lemma {:induction false} ObservedIsFed(decode: Decoder, ops: seq<Op>)
    requires !Run(decode, ops).closed
    ensures Feed(Reader(decode), Chunks(ops)) == (Run(decode, ops).observed, Run(decode, ops).buffer)
  {
    if ops != [] {
      var init, last := ops[..|ops| - 1], ops[|ops| - 1];
      EveryRunAccounted(decode, init);
      var c := Run(decode, init);
      assert !c.closed;
      ObservedIsFed(decode, init);
      if last.Data? {
        ReceiveKeeps(decode, c, last.chunk);
        FeedSnoc(Reader(decode), Chunks(init), last.chunk);
      }
    }
  }

  /**
   * Two connections: whatever interleaving of calls produced the sender's stream, and in whatever
   * chunks and between whatever other events the receiver gets it, an open receiver has observed
   * exactly the sender's messages, in order, and its buffer is empty.
   */
  lemma ReceiverObservesWhatWasSent(decode: Decoder, sender: seq<Op>, receiver: seq<Op>)
    requires Sendable(decode, Sent(decode, sender)) && !Run(decode, receiver).closed
    requires Flatten(Chunks(receiver)) == Flatten(Run(decode, sender).written)
    ensures Run(decode, receiver).observed == Decoded(decode, Sent(decode, sender))
    ensures Run(decode, receiver).buffer == ""
  {
    WrittenAreFrames(decode, sender);
    ObservedIsFed(decode, receiver);
    RoundTrip(decode, Sent(decode, sender), Chunks(receiver));
  }

  // ---------------------------------------------------------------------------------------------
  // The connection object

  class AcpConnection {
    const decode: Decoder
    var buffer: string
    var closed: bool
    var ledger: Ledger
    var observed: seq<Message>
    var notified: seq<Message>
    var written: seq<string>

    function View(): Conn
      reads this
    {
      Conn(ledger, buffer, closed, observed, notified, written)
    }

    constructor (decode: Decoder)
      ensures View() == FRESH && this.decode == decode
    {
      this.decode := decode;
      ledger := FRESH.ledger;
      buffer, closed, observed, notified, written := "", false, [], [], [];
    }

    /** Answers the id used, or None when the connection is closed and the promise rejects at once. */
    method Request(body: string, writeOk: bool) returns (id: Option<nat>)
      modifies this
      ensures View() == Apply(decode, old(View()), Op.Request(body, writeOk))
      ensures id == if old(closed) then None else Some(old(ledger.nextId))
    {
      if closed { return None; }
      var issued := ledger.nextId;
      ledger := ledger.(nextId := issued + 1);
      ledger := ledger.(timers := ledger.timers + {issued});
      ledger := ledger.(pending := ledger.pending + {issued});
      if writeOk {
        written := written + [Frame(body)];
      } else {
        ledger := ledger.(pending := ledger.pending - {issued});
        ledger := ledger.(timers := ledger.timers - {issued});
        ledger := ledger.(settled := ledger.settled[issued := WriteFailed], settlements := ledger.settlements + 1);
      }
      return Some(issued);
    }

    /** Answers whether the write happened; otherwise the source throws. */
    method Notify(body: string, writeOk: bool) returns (sent: bool)
      modifies this
      ensures View() == Apply(decode, old(View()), Op.Notify(body, writeOk))
      ensures sent <==> !old(closed) && writeOk
    {
      if closed || !writeOk { return false; }
      written := written + [Frame(body)];
      return true;
    }

    method Close()
      requires Sane(View())
      modifies this
      ensures View() == Apply(decode, old(View()), Op.Close)
    {
      if closed { return; }
      closed := true;
      SettleAllPending();
      buffer := "";
    }

    /** The loop of close: every pending caller is told, and its timer cleared. */
    method SettleAllPending()
      requires Accounted(ledger)
      modifies this`ledger
      ensures ledger == SettleAll(old(ledger))
    {
      ghost var before, done := ledger, {};
      while ledger.pending != {}
        invariant done <= before.pending && ledger == SettledPart(before, done)
        decreases ledger.pending
      {
        var id :| id in ledger.pending;
        OneMoreSettled(before, done, id);
        ledger := SettleOne(ledger, id, Outcome.Closed);
        done := done + {id};
      }
      assert done == before.pending;
      assert before.pending - done == {} && before.timers - done == {};
    }

    /** A timer that was cleared cannot fire. */
    method TimerFires(id: nat)
      modifies this
      requires Sane(View())
      ensures View() == Apply(decode, old(View()), Op.TimerFires(id))
    {
      if id in ledger.timers {
        ledger := ledger.(timers := ledger.timers - {id});
        ledger := ledger.(pending := ledger.pending - {id});
        ledger := ledger.(settled := ledger.settled[id := TimedOut], settlements := ledger.settlements + 1);
      }
    }

    method Ingest(chunk: string)
      modifies this
      ensures View() == Apply(decode, old(View()), Op.Data(chunk))
    {
      if closed { return; }
      buffer := buffer + chunk;
      ghost var goal := Drained(decode, View());
      while true
        invariant Drained(decode, View()) == goal
        decreases |buffer|
      {
        DrainedStep(decode, View());
        var message := TakeFrame();
        if message.None? { return; }
        DispatchMessage(message.value);
      }
    }

    method TakeFrame() returns (message: Option<Message>)
      modifies this`buffer
      ensures (message, buffer) == ExtractFrame(decode, old(buffer))
    {
      var headerEnd := FindSeparator(buffer, 0);
      if headerEnd.None? { return None; }
      var start := headerEnd.value + 4;
      var length := MatchHeader(buffer[..headerEnd.value], 0);
      if length.None? {
        buffer := buffer[start..];
        return None;
      }
      if |buffer| < start + length.value { return None; }
      var body := buffer[start..start + length.value];
      buffer := buffer[start + length.value..];
      return decode(body);
    }

    method DispatchMessage(m: Message)
      modifies this
      ensures View() == Dispatch(old(View()), m) && buffer == old(buffer)
    {
      observed := observed + [m];
      if !m.id.NoId? {
        if m.id.OtherId? || m.id.n < 0 || m.id.n !in ledger.pending { return; }
        var id := m.id.n;
        ledger := ledger.(pending := ledger.pending - {id});
        ledger := ledger.(timers := ledger.timers - {id});
        if m.isError {
          ledger := ledger.(settled := ledger.settled[id := ErrorResponse(m)], settlements := ledger.settlements + 1);
          return;
        }
        ledger := ledger.(settled := ledger.settled[id := Resolved(m)], settlements := ledger.settlements + 1);
        return;
      }
      if m.method_.Some? { notified := notified + [m]; }
    }
  }

  /** The ledger part way through the loop of close. */
  ghost function SettledPart(l: Ledger, done: set<nat>): Ledger {
    l.(pending := l.pending - done, timers := l.timers - done, settled := l.settled + Closings(done),
       settlements := l.settlements + |done|)
  }

  lemma OneMoreSettled(l: Ledger, done: set<nat>, id: nat)
    requires id !in done
    ensures SettleOne(SettledPart(l, done), id, Outcome.Closed) == SettledPart(l, done + {id})
  {
    var one, more := SettleOne(SettledPart(l, done), id, Outcome.Closed), SettledPart(l, done + {id});
    assert one.pending == more.pending && one.timers == more.timers;
    assert one.settled == more.settled;
  }
}
