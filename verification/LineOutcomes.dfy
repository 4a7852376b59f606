/** What single lines come to: messages and drops on the transport, text and tool calls in a task. */
module LineOutcomes {
  import opened Common
  import opened Text
  import opened LineStream
  import opened CliTask

  /** The messages of the lines that parse once trimmed, in order; blank lines are nobody's. */
  function Messages<M>(parse: string -> Option<M>, lines: seq<string>): seq<M> {
    if lines == [] then []
    else
      var line, rest := Trim(lines[0]), Messages(parse, lines[1..]);
      if |line| > 0 && parse(line).Some? then [parse(line).value] + rest else rest
  }

  /** How many lines are neither blank nor parse. */
  function Drops<M>(parse: string -> Option<M>, lines: seq<string>): nat {
    if lines == [] then 0
    else Drops(parse, lines[1..]) + if |Trim(lines[0])| > 0 && parse(Trim(lines[0])).None? then 1 else 0
  }

  lemma {:induction false} LinesSnoc<M>(parse: string -> Option<M>, lines: seq<string>, last: string)
    ensures Messages(parse, lines + [last])
         == Messages(parse, lines) + if |Trim(last)| > 0 && parse(Trim(last)).Some? then [parse(Trim(last)).value] else []
    ensures Drops(parse, lines + [last])
         == Drops(parse, lines) + if |Trim(last)| > 0 && parse(Trim(last)).None? then 1 else 0
  {
    if lines == [] {
      assert [last][1..] == [];
    } else {
      LinesSnoc(parse, lines[1..], last);
      assert (lines + [last])[1..] == lines[1..] + [last];
    }
  }

  lemma {:induction false} InboxOfLines<M>(parse: string -> Option<M>, lines: seq<string>)
    ensures AcceptAll(parse, Inbox([], 0), lines) == Inbox(Messages(parse, lines), Drops(parse, lines))
  {
    if lines != [] {
      var init, last := lines[..|lines| - 1], lines[|lines| - 1];
      InboxOfLines(parse, init);
      LinesSnoc(parse, init, last);
      assert init + [last] == lines;
    }
  }

  /** Whatever the chunks: a transport delivers what its complete lines parse to, and counts those that do not. */
  lemma TransportDelivers<M>(parse: string -> Option<M>, chunks: seq<string>)
    ensures var (lines, rest) := SplitLines(Flatten(chunks), false);
            Ingested(parse, chunks) == (Inbox(Messages(parse, lines), Drops(parse, lines)), rest)
  {
    TransportIgnoresChunks(parse, chunks);
    InboxOfLines(parse, SplitLines(Flatten(chunks), false).0);
  }

  // ---------------------------------------------------------------------------------------------
  // Tasks

  /** What one line says: the content of a delta, or, when it is plain, itself. */
  function Utterance(parse: LineParser, rawLine: string): string {
    var line := Trim(rawLine);
    if |line| == 0 then ""
    else
      match parse(line)
      case Some(Delta(content)) => content
      case Some(ToolCall(_, _)) => ""
      case None => rawLine + "\n"
  }

  /** The tool it calls, if any. */
  function Invocation(parse: LineParser, rawLine: string): seq<Chunk> {
    var line := Trim(rawLine);
    if |line| > 0 && parse(line).Some? && parse(line).value.ToolCall? then [parse(line).value] else []
  }

  function Utterances(parse: LineParser, lines: seq<string>): seq<string> {
    seq(|lines|, k requires 0 <= k < |lines| => Utterance(parse, lines[k]))
  }

  function Invocations(parse: LineParser, lines: seq<string>): seq<seq<Chunk>> {
    seq(|lines|, k requires 0 <= k < |lines| => Invocation(parse, lines[k]))
  }

  function Said(parse: LineParser, lines: seq<string>): string { Flatten(Utterances(parse, lines)) }

  function Called(parse: LineParser, lines: seq<string>): seq<Chunk> { Flatten(Invocations(parse, lines)) }

  /** How the collector takes a line is what the line says and calls. */
  lemma LineSaysAndCalls(parse: LineParser, line: string)
    ensures Utterance(parse, line) == if TextOf(parse, line).Some? then TextOf(parse, line).value else ""
    ensures Invocation(parse, line) == ToolOf(parse, line)
  {
  }

  lemma OneMoreLine(parse: LineParser, lines: seq<string>, last: string)
    ensures Said(parse, lines + [last]) == Said(parse, lines) + Utterance(parse, last)
    ensures Called(parse, lines + [last]) == Called(parse, lines) + Invocation(parse, last)
  {
    assert Utterances(parse, lines + [last]) == Utterances(parse, lines) + [Utterance(parse, last)];
    assert Invocations(parse, lines + [last]) == Invocations(parse, lines) + [Invocation(parse, last)];
    FlattenSnoc(Utterances(parse, lines), Utterance(parse, last));
    FlattenSnoc(Invocations(parse, lines), Invocation(parse, last));
  }

  lemma {:induction false} TextsAreSaid(parse: LineParser, lines: seq<string>)
    ensures Flatten(Texts(parse, lines)) == Said(parse, lines)
  {
    if lines != [] {
      var init, last := lines[..|lines| - 1], lines[|lines| - 1];
      TextsAreSaid(parse, init);
      OneMoreLine(parse, init, last);
      LineSaysAndCalls(parse, last);
      assert init + [last] == lines;
      if TextOf(parse, last).Some? { FlattenSnoc(Texts(parse, init), TextOf(parse, last).value); }
    }
  }

  lemma {:induction false} ToolsAreCalled(parse: LineParser, lines: seq<string>)
    ensures Tools(parse, lines) == Called(parse, lines)
  {
    if lines != [] {
      var init, last := lines[..|lines| - 1], lines[|lines| - 1];
      ToolsAreCalled(parse, init);
      OneMoreLine(parse, init, last);
      LineSaysAndCalls(parse, last);
      assert init + [last] == lines;
    }
  }

  /** Whatever the chunks: a task collects the first characters of what was said, up to the limit, and every tool call. */
  lemma TaskCollects(parse: LineParser, limit: int, chunks: seq<string>)
    ensures var o := Finish(parse, limit, Streamed(parse, limit, chunks));
            var (lines, rest) := SplitLines(Flatten(chunks), true);
            var all := if |rest| > 0 then lines + [rest] else lines;
            var said, text := Said(parse, all), Flatten(o.textParts);
            && text <= said && |text| == (if limit <= 0 then 0 else if |said| <= limit then |said| else limit)
            && o.tools == Called(parse, all)
            && (|text| < |said| ==> o.truncated)
  {
    CollectedIsPrefixOfFullText(parse, limit, chunks);
    TextsAreSaid(parse, AllLines(Flatten(chunks)));
    ToolsAreCalled(parse, AllLines(Flatten(chunks)));
  }
}
