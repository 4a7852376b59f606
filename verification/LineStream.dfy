/** Splitting text into lines as it arrives, the JSON-lines transport, and bounded capture. */
module LineStream {
  import opened Common
  import opened Text
  import opened PieceStream

  /** The first line break at or after i, as the positions where it begins and ends. */
  function FindBreak(s: string, i: nat, crlf: bool): (r: Option<(nat, nat)>)
    ensures r.Some? ==> i <= r.value.0 < r.value.1 <= |s| && s[r.value.1 - 1] == '\n'
    decreases |s| - i
  {
    if i >= |s| then None
    else if s[i] == '\n' then Some((i, i + 1))
    else if crlf && s[i] == '\r' && i + 1 < |s| && s[i + 1] == '\n' then Some((i, i + 2))
    else FindBreak(s, i + 1, crlf)
  }

  /** The text before the first break, and what comes after it. */
  function TakeLine(s: string, crlf: bool): (Option<string>, string) {
    match FindBreak(s, 0, crlf)
    case None => (None, s)
    case Some(b) => (Some(s[..b.0]), s[b.1..])
  }

  function LineReader(crlf: bool): (read: string -> (Option<string>, string))
    ensures forall s :: read(s) == TakeLine(s, crlf)
  {
    s => TakeLine(s, crlf)
  }

  lemma LineReaderSound(crlf: bool)
    ensures Sound(LineReader(crlf))
  {
  }

  /** Complete lines and the unfinished remainder: splitting at every break and popping the last part. */
  function SplitLines(buffer: string, crlf: bool): (seq<string>, string) {
    LineReaderSound(crlf);
    Drain(LineReader(crlf), buffer)
  }

  lemma {:induction false} BreakStays(a: string, b: string, i: nat, crlf: bool)
    requires FindBreak(a, i, crlf).Some?
    ensures FindBreak(a + b, i, crlf) == FindBreak(a, i, crlf)
    decreases |a| - i
  {
    assert i < |a| && (a + b)[i] == a[i];
    if i + 1 < |a| { assert (a + b)[i + 1] == a[i + 1]; }
    if FindBreak(a, i, crlf).value.0 != i { BreakStays(a, b, i + 1, crlf); }
  }

  lemma LineReaderStable(crlf: bool)
    ensures Stable(LineReader(crlf))
  {
    var read := LineReader(crlf);
    forall a, b {:trigger a + b} | read(a).0.Some?
      ensures read(a + b) == (read(a).0, read(a).1 + b)
    {
      BreakStays(a, b, 0, crlf);
      var at := FindBreak(a, 0, crlf).value;
      assert (a + b)[..at.0] == a[..at.0] && (a + b)[at.1..] == a[at.1..] + b;
    }
  }

  /** Lines arriving in chunks are the lines of the whole text, even when a chunk ends between CR and LF. */
  lemma LinesIgnoreChunks(chunks: seq<string>, crlf: bool)
    ensures Sound(LineReader(crlf))
    ensures Feed(LineReader(crlf), chunks) == SplitLines(Flatten(chunks), crlf)
  {
    LineReaderSound(crlf);
    LineReaderStable(crlf);
    FeedIsDrain(LineReader(crlf), chunks);
  }

  // ---------------------------------------------------------------------------------------------
  // Splitting undoes joining

  predicate IsLine(line: string, crlf: bool) { '\n' !in line && (crlf && line != "" ==> line[|line| - 1] != '\r') }

  /** Each line followed by its own terminator: LF, or CR LF where that is recognised. */
  function Terminated(lines: seq<string>, withCr: seq<bool>): seq<string>
    requires |lines| == |withCr|
  {
    seq(|lines|, k requires 0 <= k < |lines| => lines[k] + if withCr[k] then "\r\n" else "\n")
  }

  lemma {:induction false} NoBreakInside(s: string, i: nat, end: nat, crlf: bool)
    requires i <= end <= |s| && forall k :: i <= k < end ==> s[k] != '\n'
    requires crlf && end < |s| && s[end] == '\n' ==> end == 0 || s[end - 1] != '\r'
    ensures FindBreak(s, i, crlf) == FindBreak(s, end, crlf)
    decreases end - i
  {
    if i < end { NoBreakInside(s, i + 1, end, crlf); }
  }

  lemma TerminatedLineIsTaken(line: string, withCr: bool, crlf: bool)
    requires IsLine(line, crlf) && (withCr ==> crlf)
    ensures Carries(LineReader(crlf), line + if withCr then "\r\n" else "\n", line)
  {
    var f := line + if withCr then "\r\n" else "\n";
    forall rest {:trigger f + rest}
      ensures TakeLine(f + rest, crlf) == (Some(line), rest)
    {
      var s := f + rest;
      NoBreakInside(s, 0, |line|, crlf);
      assert s[..|line|] == line && s[|f|..] == rest;
    }
    forall k | 0 <= k < |f|
      ensures TakeLine(f[..k], crlf) == (None, f[..k])
    {
      NoBreakInside(f[..k], 0, k, crlf);
    }
  }

  /** Any lines, each ended by LF or CR LF, cut into any chunks, come out as exactly those lines. */
  lemma JoinedLinesSplit(lines: seq<string>, withCr: seq<bool>, chunks: seq<string>, crlf: bool)
    requires |lines| == |withCr| && forall k :: 0 <= k < |lines| ==> IsLine(lines[k], crlf) && (withCr[k] ==> crlf)
    requires Flatten(chunks) == Flatten(Terminated(lines, withCr))
    ensures Sound(LineReader(crlf)) && Feed(LineReader(crlf), chunks) == (lines, "")
  {
    LineReaderSound(crlf);
    forall k | 0 <= k < |lines|
      ensures Carries(LineReader(crlf), Terminated(lines, withCr)[k], lines[k])
    {
      TerminatedLineIsTaken(lines[k], withCr[k], crlf);
    }
    FeedAll(LineReader(crlf), Terminated(lines, withCr), lines, chunks);
  }

  // ---------------------------------------------------------------------------------------------
  // The JSON-lines transport

  datatype Inbox<M> = Inbox(delivered: seq<M>, dropped: nat)

  /** `parse` stands for JSON.parse; None is a thrown syntax error. */
  function Accept<M>(parse: string -> Option<M>, inbox: Inbox<M>, line: string): Inbox<M> {
    var trimmed := Trim(line);
    if trimmed == "" then inbox
    else
      match parse(trimmed)
      case Some(m) => inbox.(delivered := inbox.delivered + [m])
      case None => inbox.(dropped := inbox.dropped + 1)
  }

  function AcceptAll<M>(parse: string -> Option<M>, inbox: Inbox<M>, lines: seq<string>): Inbox<M> {
    if lines == [] then inbox
    else Accept(parse, AcceptAll(parse, inbox, lines[..|lines| - 1]), lines[|lines| - 1])
  }

  lemma {:induction false} AcceptAppend<M>(parse: string -> Option<M>, inbox: Inbox<M>, a: seq<string>, b: seq<string>)
    ensures AcceptAll(parse, inbox, a + b) == AcceptAll(parse, AcceptAll(parse, inbox, a), b)
  {
    if b == [] {
      assert a + b == a;
    } else {
      AcceptAppend(parse, inbox, a, b[..|b| - 1]);
      assert (a + b)[..|a + b| - 1] == a + b[..|b| - 1];
    }
  }

  /** What an open transport holds and has delivered after some chunks. */
  function Ingested<M>(parse: string -> Option<M>, chunks: seq<string>): (Inbox<M>, string) {
    if chunks == [] then (Inbox([], 0), "")
    else
      var (inbox, buffer) := Ingested(parse, chunks[..|chunks| - 1]);
      var (lines, rest) := SplitLines(buffer + chunks[|chunks| - 1], false);
      (AcceptAll(parse, inbox, lines), rest)
  }

  /** Deliveries and drops are those of the whole stream's lines, whatever the chunks. */
  lemma {:induction false} TransportIgnoresChunks<M>(parse: string -> Option<M>, chunks: seq<string>)
    ensures var (lines, rest) := SplitLines(Flatten(chunks), false);
            Ingested(parse, chunks) == (AcceptAll(parse, Inbox([], 0), lines), rest)
  {
    LineReaderSound(false);
    if chunks == [] {
      DrainStops(LineReader(false), "", "");
    } else {
      var init, last := chunks[..|chunks| - 1], chunks[|chunks| - 1];
      assert chunks == init + [last];
      FlattenSnoc(init, last);
      TransportIgnoresChunks(parse, init);
      LineReaderStable(false);
      DrainAppend(LineReader(false), Flatten(init), last);
      var (lines, rest) := SplitLines(Flatten(init), false);
      AcceptAppend(parse, Inbox([], 0), lines, SplitLines(rest + last, false).0);
    }
  }

  class JsonLineTransport<M> {
    const parse: string -> Option<M>
    var buffer: string
    var closed: bool
    var inbox: Inbox<M>

    constructor (parse: string -> Option<M>)
      ensures this.parse == parse && buffer == "" && !closed && inbox == Inbox([], 0)
    {
      this.parse := parse;
      buffer, closed, inbox := "", false, Inbox([], 0);
    }

    method Close()
      modifies this
      ensures closed && inbox == old(inbox) && buffer == if old(closed) then old(buffer) else ""
    {
      if closed { return; }
      closed := true;
      buffer := "";
    }

    method Ingest(chunk: string)
      modifies this
      ensures closed == old(closed)
      ensures if old(closed) then buffer == old(buffer) && inbox == old(inbox)
              else
                var (lines, rest) := SplitLines(old(buffer) + chunk, false);
                buffer == rest && inbox == AcceptAll(parse, old(inbox), lines)
    {
      if closed { return; }
      var (lines, rest) := SplitLines(buffer + chunk, false);
      buffer := rest;
      for i := 0 to |lines|
        invariant buffer == rest && !closed && inbox == AcceptAll(parse, old(inbox), lines[..i])
      {
        assert lines[..i + 1][..i] == lines[..i];
        var trimmed := Trim(lines[i]);
        if trimmed != "" {
          var message := parse(trimmed);
          if message.None? {
            inbox := inbox.(dropped := inbox.dropped + 1);
          } else {
            inbox := inbox.(delivered := inbox.delivered + [message.value]);
          }
        }
      }
      assert lines[..|lines|] == lines;
    }
  }

  // ---------------------------------------------------------------------------------------------
  // Bounded capture of a process's output

  function AppendBounded(buffer: string, chunk: string, max: nat): (string, bool) {
    var next := buffer + chunk;
    if |next| <= max then (next, false) else (next[|next| - max..], true)
  }

  /** The captured text and whether any append ever truncated it. */
  function Captured(chunks: seq<string>, max: nat): (string, bool) {
    if chunks == [] then ("", false)
    else
      var (text, truncated) := Captured(chunks[..|chunks| - 1], max);
      var (next, cut) := AppendBounded(text, chunks[|chunks| - 1], max);
      (next, truncated || cut)
  }

  /** Capture keeps exactly the last `max` characters of everything, and the flag says whether that lost any. */
  lemma {:induction false} CaptureKeepsTheEnd(chunks: seq<string>, max: nat)
    ensures Captured(chunks, max) == (Suffix(Flatten(chunks), max), |Flatten(chunks)| > max)
  {
    if chunks != [] {
      var init, last := chunks[..|chunks| - 1], chunks[|chunks| - 1];
      assert chunks == init + [last];
      FlattenSnoc(init, last);
      CaptureKeepsTheEnd(init, max);
      SuffixAbsorbs(Flatten(init), last, max);
    }
  }
}
