/** Content-Length framing: writing frames, finding them again in a stream, and the round trip. */
module AcpFraming {
  import opened Common
  import opened Text
  import opened PieceStream

  const SEPARATOR := "\r\n\r\n"
  const HEADER := "Content-Length: "
  const HEADER_KEY := "content-length:"

  /** Bytes of a character in UTF-8. */
  function Utf8Bytes(c: char): nat {
    if c < '\U{0080}' then 1 else if c < '\U{0800}' then 2 else if c < '\U{10000}' then 3 else 4
  }

  function ByteLength(s: string): (n: nat)
    ensures n >= |s|
    ensures n == |s| <==> IsAscii(s)
  {
    if s == [] then 0 else ByteLength(s[..|s| - 1]) + Utf8Bytes(s[|s| - 1])
  }

  /** What is written for one message body. */
  function Frame(body: string): string { HEADER + Decimal(ByteLength(body)) + SEPARATOR + body }

  /** The frames of a list of bodies; the stream is their concatenation. */
  function Frames(bodies: seq<string>): seq<string> {
    seq(|bodies|, k requires 0 <= k < |bodies| => Frame(bodies[k]))
  }

  // ---------------------------------------------------------------------------------------------
  // Reading

  predicate SeparatorAt(s: string, i: nat) { i + 4 <= |s| && s[i..i + 4] == SEPARATOR }

  /** The first separator at or after i. */
  function FindSeparator(s: string, i: nat): (r: Option<nat>)
    ensures match r
            case Some(k) => i <= k && SeparatorAt(s, k) && forall j: nat :: i <= j < k ==> !SeparatorAt(s, j)
            case None => forall j: nat :: i <= j ==> !SeparatorAt(s, j)
    decreases |s| - i
  {
    if i + 4 > |s| then None else if SeparatorAt(s, i) then Some(i) else FindSeparator(s, i + 1)
  }

  /** The header pattern, matched at position p: the key, optional white space, and the digits. */
  function MatchHeaderAt(header: string, p: nat): Option<nat>
    requires p <= |header|
  {
    var afterKey := p + |HEADER_KEY|;
    if afterKey > |header| || Lower(header[p..afterKey]) != HEADER_KEY then None
    else
      var from := SkipWhile(header, afterKey, IsSpace);
      var to := SkipWhile(header, from, IsDigit);
      if from == to then None else Some(ParseDecimal(header[from..to]))
  }

  /** The leftmost match of the pattern in the header. */
  function MatchHeader(header: string, p: nat): Option<nat>
    requires p <= |header|
    decreases |header| - p
  {
    var here := MatchHeaderAt(header, p);
    if here.Some? || p == |header| then here else MatchHeader(header, p + 1)
  }

  /**
   * One attempt to take a message off the buffer. `decode` stands for JSON.parse restricted to
   * objects; None stands for null, whether because the frame is incomplete, because it was
   * dropped, or because its body did not decode.
   */
  function ExtractFrame<M(!new)>(decode: string -> Option<M>, buffer: string): (r: (Option<M>, string))
    ensures r.0.Some? ==> |r.1| < |buffer|
  {
    match FindSeparator(buffer, 0)
    case None => (None, buffer)
    case Some(headerEnd) =>
      var start := headerEnd + 4;
      match MatchHeader(buffer[..headerEnd], 0)
      case None => (None, buffer[start..])
      case Some(length) =>
        if |buffer| < start + length then (None, buffer)
        else (decode(buffer[start..start + length]), buffer[start + length..])
  }

  /** The attempt as a reader of buffers. */
  function Reader<M(!new)>(decode: string -> Option<M>): (read: string -> (Option<M>, string))
    ensures Sound(read)
    ensures forall buffer :: read(buffer) == ExtractFrame(decode, buffer)
  {
    buffer => ExtractFrame(decode, buffer)
  }

  // ---------------------------------------------------------------------------------------------
  // A written frame is found again

  function Head(body: string): string { HEADER + Decimal(ByteLength(body)) }

  lemma HeadIsRead(body: string)
    ensures MatchHeader(Head(body), 0) == Some(ByteLength(body))
  {
    var head, digits := Head(body), Decimal(ByteLength(body));
    assert head[0..15] == "Content-Length:";
    KeyMatches();
    assert head[15] == ' ' && head[16] == digits[0] && head[16..] == digits;
    assert SkipWhile(head, 16, IsSpace) == 16;
    assert SkipWhile(head, 15, IsSpace) == 16;
    var to := SkipWhile(head, 16, IsDigit);
    assert forall k :: 16 <= k < |head| ==> head[k] == digits[k - 16];
    assert to == |head|;
    assert head[16..to] == digits;
    ParsePrinted(ByteLength(body));
    assert MatchHeaderAt(head, 0) == Some(ByteLength(body));
  }

  lemma KeyMatches()
    ensures Lower("Content-Length:") == HEADER_KEY
  {
  }

  /** The header holds no carriage return, so the first separator is the one that ends it. */
  lemma FirstSeparatorEndsHead(body: string, rest: string)
    ensures FindSeparator(Head(body) + SEPARATOR + rest, 0) == Some(|Head(body)|)
  {
    var head := Head(body);
    var s := head + SEPARATOR + rest;
    forall j | 0 <= j < |head|
      ensures s[j] != '\r'
    {
      if j < 16 { assert s[j] == HEADER[j]; } else { assert s[j] == Decimal(ByteLength(body))[j - 16]; }
    }
    assert SeparatorAt(s, |head|);
    var k := FindSeparator(s, 0);
    forall i | 0 <= i < |head|
      ensures !SeparatorAt(s, i)
    {
      assert s[i] != SEPARATOR[0];
    }
  }

  /** A complete frame at the front of the buffer is taken off and its body decoded. */
  lemma CompleteFrame<M(!new)>(decode: string -> Option<M>, body: string, rest: string)
    requires IsAscii(body)
    ensures ExtractFrame(decode, Frame(body) + rest) == (decode(body), rest)
  {
    var s, head := Frame(body) + rest, Head(body);
    assert s == head + SEPARATOR + (body + rest);
    FirstSeparatorEndsHead(body, body + rest);
    assert s[..|head|] == head;
    HeadIsRead(body);
    var start := |head| + 4;
    assert s[start..start + |body|] == body && s[start + |body|..] == rest;
  }

  /** A proper prefix of a frame waits, unchanged. */
  lemma IncompleteFrame<M(!new)>(decode: string -> Option<M>, body: string, part: string)
    requires IsAscii(body) && part <= Frame(body) && part != Frame(body)
    ensures ExtractFrame(decode, part) == (None, part)
  {
    var head := Head(body);
    FirstSeparatorEndsHead(body, body);
    assert Frame(body) == head + SEPARATOR + body;
    var found := FindSeparator(part, 0);
    if found.Some? {
      var k := found.value;
      assert SeparatorAt(Frame(body), k) by { assert Frame(body)[k..k + 4] == part[k..k + 4]; }
      assert k >= |head|;
      assert SeparatorAt(part, |head|) by { assert part[|head|..|head| + 4] == Frame(body)[|head|..|head| + 4]; }
      assert part[..k] == head;
      HeadIsRead(body);
    }
  }

  // ---------------------------------------------------------------------------------------------
  // The round trip, under every chunking

  function Decoded<M(!new)>(decode: string -> Option<M>, bodies: seq<string>): seq<M>
    requires forall k :: 0 <= k < |bodies| ==> decode(bodies[k]).Some?
  {
    seq(|bodies|, k requires 0 <= k < |bodies| => decode(bodies[k]).value)
  }

  ghost predicate Sendable<M(!new)>(decode: string -> Option<M>, bodies: seq<string>) {
    forall k :: 0 <= k < |bodies| ==> IsAscii(bodies[k]) && decode(bodies[k]).Some?
  }

  lemma SentFramesCarry<M(!new)>(decode: string -> Option<M>, bodies: seq<string>)
    requires Sendable(decode, bodies)
    ensures AllCarry(Reader(decode), Frames(bodies), Decoded(decode, bodies))
  {
    forall k | 0 <= k < |bodies|
      ensures Carries(Reader(decode), Frames(bodies)[k], Decoded(decode, bodies)[k])
    {
      SentFrameCarries(decode, bodies[k]);
    }
  }

  lemma SentFrameCarries<M(!new)>(decode: string -> Option<M>, body: string)
    requires IsAscii(body) && decode(body).Some?
    ensures Carries(Reader(decode), Frame(body), decode(body).value)
  {
    forall rest {:trigger Frame(body) + rest}
      ensures ExtractFrame(decode, Frame(body) + rest) == (decode(body), rest)
    {
      CompleteFrame(decode, body, rest);
    }
    forall k | 0 <= k < |Frame(body)|
      ensures ExtractFrame(decode, Frame(body)[..k]) == (None, Frame(body)[..k])
    {
      IncompleteFrame(decode, body, Frame(body)[..k]);
    }
  }

  /**
   * The framing round trip: every list of ASCII bodies that decode, written frame after frame and
   * received in any chunks whatsoever, is delivered exactly, in order, with nothing left over.
   */
  lemma RoundTrip<M(!new)>(decode: string -> Option<M>, bodies: seq<string>, chunks: seq<string>)
    requires Sendable(decode, bodies) && Flatten(chunks) == Flatten(Frames(bodies))
    ensures Feed(Reader(decode), chunks) == (Decoded(decode, bodies), "")
  {
    SentFramesCarry(decode, bodies);
    FeedAll(Reader(decode), Frames(bodies), Decoded(decode, bodies), chunks);
  }

  /**
   * Mid-stream: after any chunks that make up a prefix of the stream, exactly the bodies whose frames
   * have arrived completely have been delivered.
   */
  lemma {:induction false} DeliveredSoFar<M(!new)>(decode: string -> Option<M>, bodies: seq<string>, chunks: seq<string>)
    requires Sendable(decode, bodies) && Flatten(chunks) <= Flatten(Frames(bodies))
    ensures var n := Complete(Frames(bodies), |Flatten(chunks)|);
            && Feed(Reader(decode), chunks).0 == Decoded(decode, bodies[..n])
            && Flatten(Frames(bodies[..n])) + Feed(Reader(decode), chunks).1 == Flatten(chunks)
  {
    SentFramesCarry(decode, bodies);
    FeedPrefix(Reader(decode), Frames(bodies), Decoded(decode, bodies), chunks);
    FirstOfAll(decode, bodies, Complete(Frames(bodies), |Flatten(chunks)|));
  }

  lemma FirstOfAll<M(!new)>(decode: string -> Option<M>, bodies: seq<string>, n: nat)
    requires n <= |bodies| && forall k :: 0 <= k < |bodies| ==> decode(bodies[k]).Some?
    ensures Frames(bodies)[..n] == Frames(bodies[..n]) && Decoded(decode, bodies)[..n] == Decoded(decode, bodies[..n])
  {
  }

  /**
   * ASCII is exactly what one frame needs: the header counts bytes but the reader counts characters,
   * so a body with any other character is never delivered from its own frame.
   */
  lemma {:induction false} DeliveredExactlyWhenAscii<M(!new)>(decode: string -> Option<M>, body: string)
    requires decode(body).Some?
    ensures Drain(Reader(decode), Frame(body)) == ([decode(body).value], "") <==> IsAscii(body)
  {
    if IsAscii(body) {
      OneFrame(decode, body);
    } else {
      TooLongAHeader(decode, body);
      DrainStops(Reader(decode), Frame(body), Frame(body));
    }
  }

  lemma OneFrame<M(!new)>(decode: string -> Option<M>, body: string)
    requires IsAscii(body) && decode(body).Some?
    ensures Drain(Reader(decode), Frame(body)) == ([decode(body).value], "")
  {
    SentFrameCarries(decode, body);
    DrainOne(Reader(decode), Frame(body), decode(body).value, "");
    DrainStops(Reader(decode), "", "");
    assert Frame(body) + "" == Frame(body) && [decode(body).value] + [] == [decode(body).value];
  }

  lemma TooLongAHeader<M(!new)>(decode: string -> Option<M>, body: string)
    requires !IsAscii(body)
    ensures ExtractFrame(decode, Frame(body)) == (None, Frame(body))
  {
    FirstSeparatorEndsHead(body, body);
    assert Frame(body) == Head(body) + SEPARATOR + body;
    assert Frame(body)[..|Head(body)|] == Head(body);
    HeadIsRead(body);
  }

  // ---------------------------------------------------------------------------------------------
  // What yields no message ends the round

  /** A piece of a stream: a written frame, or text up to a separator that holds no length header. */
  datatype Piece = Framed(body: string) | Headless(text: string)

  function Written(p: Piece): string {
    match p
    case Framed(body) => Frame(body)
    case Headless(text) => text + SEPARATOR
  }

  predicate WellFormed(p: Piece) {
    match p
    case Framed(body) => IsAscii(body)
    case Headless(text) => MatchHeader(text, 0).None? && FindSeparator(text + SEPARATOR, 0) == Some(|text|)
  }

  function Yield<M(!new)>(decode: string -> Option<M>, p: Piece): Option<M> {
    match p
    case Framed(body) => decode(body)
    case Headless(_) => None
  }

  ghost predicate AllWellFormed(pieces: seq<Piece>) { forall k :: 0 <= k < |pieces| ==> WellFormed(pieces[k]) }

  function Stream(pieces: seq<Piece>): string { if pieces == [] then "" else Written(pieces[0]) + Stream(pieces[1..]) }

  /** The messages a stream holds, in order. */
  function Messages<M(!new)>(decode: string -> Option<M>, pieces: seq<Piece>): seq<M> {
    if pieces == [] then []
    else
      var rest := Messages(decode, pieces[1..]);
      match Yield(decode, pieces[0])
      case Some(m) => [m] + rest
      case None => rest
  }

  /** How many pieces yield nothing. */
  function Duds<M(!new)>(decode: string -> Option<M>, pieces: seq<Piece>): nat {
    if pieces == [] then 0 else Duds(decode, pieces[1..]) + if Yield(decode, pieces[0]).None? then 1 else 0
  }

  lemma HeadlessIsDropped<M(!new)>(decode: string -> Option<M>, text: string, rest: string)
    requires WellFormed(Headless(text))
    ensures ExtractFrame(decode, text + SEPARATOR + rest) == (None, rest)
  {
    var part, s := text + SEPARATOR, text + SEPARATOR + rest;
    assert SeparatorAt(s, |text|);
    forall j: nat | j < |text|
      ensures !SeparatorAt(s, j)
    {
      assert s[j..j + 4] == part[j..j + 4];
      assert !SeparatorAt(part, j);
    }
    assert s[..|text|] == text && s[|text| + 4..] == rest;
  }

  /** A well-formed piece in front is taken off whole, and yields its message or none. */
  lemma PieceIsTaken<M(!new)>(decode: string -> Option<M>, p: Piece, rest: string)
    requires WellFormed(p)
    ensures ExtractFrame(decode, Written(p) + rest) == (Yield(decode, p), rest)
  {
    match p
    case Framed(body) => CompleteFrame(decode, body, rest);
    case Headless(text) => HeadlessIsDropped(decode, text, rest);
  }

  lemma DrainPiece<M(!new)>(decode: string -> Option<M>, p: Piece, rest: string)
    requires WellFormed(p)
    ensures Drain(Reader(decode), Written(p) + rest)
         == match Yield(decode, p)
            case Some(m) => ([m] + Drain(Reader(decode), rest).0, Drain(Reader(decode), rest).1)
            case None => ([], rest)
  {
    PieceIsTaken(decode, p, rest);
  }

  /**
   * Where a round stops: whatever decodable frames come first are all delivered, and the first piece
   * that yields nothing, an undecodable body or text without a header, is dropped and ends the round,
   * with everything behind it left in the buffer.
   */
  lemma {:induction false} RoundStopsAtFirstDud<M(!new)>(decode: string -> Option<M>, good: seq<Piece>, dud: Piece,
                                                        rest: string)
    requires AllWellFormed(good) && WellFormed(dud) && Yield(decode, dud).None?
    requires forall k :: 0 <= k < |good| ==> Yield(decode, good[k]).Some?
    ensures Drain(Reader(decode), Stream(good) + (Written(dud) + rest)) == (Messages(decode, good), rest)
  {
    if good == [] {
      assert Stream(good) + (Written(dud) + rest) == Written(dud) + rest;
      DrainPiece(decode, dud, rest);
    } else {
      ConcatAssociates(Written(good[0]), Stream(good[1..]), Written(dud) + rest);
      DrainPiece(decode, good[0], Stream(good[1..]) + (Written(dud) + rest));
      RoundStopsAtFirstDud(decode, good[1..], dud, rest);
    }
  }

  /** No message stands behind a piece that yields none. */
  ghost predicate NoneBehindDud<M(!new)>(decode: string -> Option<M>, pieces: seq<Piece>) {
    forall i, j :: 0 <= i < j < |pieces| && Yield(decode, pieces[i]).None? ==> Yield(decode, pieces[j]).None?
  }

  lemma {:induction false} NoMessagesExactlyWhen<M(!new)>(decode: string -> Option<M>, pieces: seq<Piece>)
    ensures Messages(decode, pieces) == [] <==> forall k :: 0 <= k < |pieces| ==> Yield(decode, pieces[k]).None?
  {
    if pieces != [] {
      NoMessagesExactlyWhen(decode, pieces[1..]);
      assert forall k :: 0 <= k < |pieces| - 1 ==> pieces[1..][k] == pieces[k + 1];
      if Messages(decode, pieces) == [] {
        forall k | 0 <= k < |pieces|
          ensures Yield(decode, pieces[k]).None?
        {
          if k > 0 { assert pieces[1..][k - 1] == pieces[k]; }
        }
      }
    }
  }

  lemma BehindFirst<M(!new)>(decode: string -> Option<M>, pieces: seq<Piece>)
    requires pieces != []
    ensures NoneBehindDud(decode, pieces)
       <==> if Yield(decode, pieces[0]).Some? then NoneBehindDud(decode, pieces[1..])
            else forall k :: 0 <= k < |pieces[1..]| ==> Yield(decode, pieces[1..][k]).None?
  {
    var tail := pieces[1..];
    assert forall k :: 0 <= k < |tail| ==> tail[k] == pieces[k + 1];
    if NoneBehindDud(decode, pieces) {
      forall i, j | 0 <= i < j < |tail| && Yield(decode, tail[i]).None?
        ensures Yield(decode, tail[j]).None?
      {
        assert Yield(decode, pieces[i + 1]).None?;
        assert Yield(decode, pieces[j + 1]).None?;
      }
      if Yield(decode, pieces[0]).None? {
        forall k | 0 <= k < |tail|
          ensures Yield(decode, tail[k]).None?
        {
          assert Yield(decode, pieces[k + 1]).None?;
        }
      }
    } else {
      var i, j :| 0 <= i < j < |pieces| && Yield(decode, pieces[i]).None? && Yield(decode, pieces[j]).Some?;
      assert tail[j - 1] == pieces[j];
      if i > 0 { assert tail[i - 1] == pieces[i]; }
    }
  }

  /** One round delivers every message of a stream if and only if none stands behind a piece that yields none. */
  lemma {:induction false} OneRoundDeliversAllExactlyWhen<M(!new)>(decode: string -> Option<M>, pieces: seq<Piece>)
    requires AllWellFormed(pieces)
    ensures Drain(Reader(decode), Stream(pieces)).0 == Messages(decode, pieces) <==> NoneBehindDud(decode, pieces)
  {
    if pieces == [] {
      DrainStops(Reader(decode), "", "");
    } else {
      var tail := pieces[1..];
      assert AllWellFormed(tail);
      DrainPiece(decode, pieces[0], Stream(tail));
      BehindFirst(decode, pieces);
      if Yield(decode, pieces[0]).Some? {
        var m := Yield(decode, pieces[0]).value;
        OneRoundDeliversAllExactlyWhen(decode, tail);
        var (ms, all) := (Drain(Reader(decode), Stream(tail)).0, Messages(decode, tail));
        assert ([m] + ms)[1..] == ms && ([m] + all)[1..] == all;
      } else {
        NoMessagesExactlyWhen(decode, tail);
      }
    }
  }

  // ---------------------------------------------------------------------------------------------
  // Nothing is lost: later chunks catch up

  /** What a stream delivers in a first round and `more` further rounds without new input. */
  function Rounds<M(!new)>(decode: string -> Option<M>, s: string, more: nat): (seq<M>, string)
    decreases more
  {
    var (ms, left) := Drain(Reader(decode), s);
    if more == 0 then (ms, left)
    else
      var (later, rest) := Rounds(decode, left, more - 1);
      (ms + later, rest)
  }

  lemma {:induction false} OneMoreRound<M(!new)>(decode: string -> Option<M>, s: string, more: nat)
    ensures var (ms, left) := Rounds(decode, s, more);
            var (later, rest) := Drain(Reader(decode), left);
            Rounds(decode, s, more + 1) == (ms + later, rest)
    decreases more
  {
    if more > 0 {
      var (first, left) := Drain(Reader(decode), s);
      OneMoreRound(decode, left, more - 1);
      var (ms, end) := Rounds(decode, left, more - 1);
      ConcatAssociates(first, ms, Drain(Reader(decode), end).0);
    }
  }

  function Empties(n: nat): seq<string> { seq(n, _ => "") }

  lemma FirstChunk<M(!new)>(read: string -> (Option<M>, string), s: string)
    requires Sound(read)
    ensures Feed(read, [s]) == Drain(read, s)
  {
    assert [] + [s] == [s] && "" + s == s;
    FeedSnoc(read, [], s);
    assert [] + Drain(read, s).0 == Drain(read, s).0;
  }

  lemma {:induction false} EmptyChunksAreRounds<M(!new)>(decode: string -> Option<M>, s: string, more: nat)
    ensures Feed(Reader(decode), [s] + Empties(more)) == Rounds(decode, s, more)
  {
    var read := Reader(decode);
    if more == 0 {
      assert [s] + Empties(0) == [s];
      FirstChunk(read, s);
    } else {
      EmptyChunksAreRounds(decode, s, more - 1);
      assert [s] + Empties(more) == ([s] + Empties(more - 1)) + [""];
      FeedSnoc(read, [s] + Empties(more - 1), "");
      var left := Rounds(decode, s, more - 1).1;
      assert left + "" == left;
      OneMoreRound(decode, s, more - 1);
    }
  }

  lemma RoundsPiece<M(!new)>(decode: string -> Option<M>, p: Piece, rest: string, more: nat)
    requires WellFormed(p)
    ensures Rounds(decode, Written(p) + rest, more)
         == match Yield(decode, p)
            case Some(m) => ([m] + Rounds(decode, rest, more).0, Rounds(decode, rest, more).1)
            case None => if more == 0 then ([], rest) else Rounds(decode, rest, more - 1)
  {
    DrainPiece(decode, p, rest);
    if more > 0 {
      var (ms, left) := Drain(Reader(decode), rest);
      match Yield(decode, p)
      case Some(m) => ConcatAssociates([m], ms, Rounds(decode, left, more - 1).0);
      case None => assert [] + Rounds(decode, rest, more - 1).0 == Rounds(decode, rest, more - 1).0;
    }
  }

  lemma {:induction false} RoundsOfNothing<M(!new)>(decode: string -> Option<M>, more: nat)
    ensures Rounds(decode, "", more) == ([], "")
  {
    DrainStops(Reader(decode), "", "");
    if more > 0 {
      RoundsOfNothing(decode, more - 1);
      var none: seq<M> := [];
      assert none + none == none;
    }
  }

  lemma {:induction false} RoundsDeliverAll<M(!new)>(decode: string -> Option<M>, pieces: seq<Piece>, more: nat)
    requires AllWellFormed(pieces) && more >= Duds(decode, pieces)
    ensures Rounds(decode, Stream(pieces), more) == (Messages(decode, pieces), "")
    decreases |pieces|
  {
    if pieces == [] {
      RoundsOfNothing(decode, more);
    } else {
      var tail := pieces[1..];
      assert AllWellFormed(tail);
      RoundsPiece(decode, pieces[0], Stream(tail), more);
      RoundsDeliverAll(decode, tail, if Yield(decode, pieces[0]).Some? then more else more - 1);
    }
  }

  /** As many further chunks as there are pieces without a message, empty ones included, deliver everything. */
  lemma LaterChunksCatchUp<M(!new)>(decode: string -> Option<M>, pieces: seq<Piece>, more: nat)
    requires AllWellFormed(pieces) && more >= Duds(decode, pieces)
    ensures Feed(Reader(decode), [Stream(pieces)] + Empties(more)) == (Messages(decode, pieces), "")
  {
    EmptyChunksAreRounds(decode, Stream(pieces), more);
    RoundsDeliverAll(decode, pieces, more);
  }

  /** For instance: a complete frame behind one that does not decode waits for the next chunk. */
  lemma {:induction false} UndecodableFrameDelaysTheNext<M(!new)>(decode: string -> Option<M>, bad: string, good: string)
    requires IsAscii(bad) && IsAscii(good) && decode(bad).None? && decode(good).Some?
    ensures Drain(Reader(decode), Frame(bad) + Frame(good)) == ([], Frame(good))
    ensures Drain(Reader(decode), Frame(good) + "") == ([decode(good).value], "")
  {
    DrainPiece(decode, Framed(bad), Frame(good));
    OneFrame(decode, good);
    assert Frame(good) + "" == Frame(good);
  }
}
