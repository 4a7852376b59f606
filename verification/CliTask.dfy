/** The stdout path of one command-line task: lines, bounded text and tool activity. */
module CliTask {
  import opened Common
  import opened Text
  import opened PieceStream
  import opened LineStream

  /** What an adapter makes of one trimmed line; None means plain text. */
  datatype Chunk = Delta(content: string) | ToolCall(name: string, arguments: string)

  type LineParser = string -> Option<Chunk>

  datatype Output = Output(textParts: seq<string>, outputChars: nat, truncated: bool, tools: seq<Chunk>)

  datatype Task = Task(buffer: string, output: Output)

  const STARTED := Task("", Output([], 0, false, []))

  /** Appends what still fits. */
  function PushText(limit: int, o: Output, text: string): Output {
    if o.truncated then o
    else
      var room := limit - o.outputChars;
      if room <= 0 then o.(truncated := true)
      else if |text| <= room then o.(textParts := o.textParts + [text], outputChars := o.outputChars + |text|)
      else o.(textParts := o.textParts + [text[..room]], outputChars := o.outputChars + room, truncated := true)
  }

  /** The text a raw line stands for: the delta it carries, itself if plain, or none. */
  function TextOf(parse: LineParser, rawLine: string): Option<string> {
    var trimmed := Trim(rawLine);
    if trimmed == "" then None
    else
      match parse(trimmed)
      case Some(ToolCall(_, _)) => None
      case Some(Delta(content)) => Some(content)
      case None => Some(rawLine + "\n")
  }

  function ToolOf(parse: LineParser, rawLine: string): seq<Chunk> {
    var trimmed := Trim(rawLine);
    if trimmed != "" && parse(trimmed).Some? && parse(trimmed).value.ToolCall? then [parse(trimmed).value] else []
  }

  function HandleLine(parse: LineParser, limit: int, o: Output, rawLine: string): Output {
    var heard := o.(tools := o.tools + ToolOf(parse, rawLine));
    match TextOf(parse, rawLine)
    case None => heard
    case Some(text) => PushText(limit, heard, text)
  }

  function HandleLines(parse: LineParser, limit: int, o: Output, lines: seq<string>): Output {
    if lines == [] then o
    else HandleLine(parse, limit, HandleLines(parse, limit, o, lines[..|lines| - 1]), lines[|lines| - 1])
  }

  function OnStdout(parse: LineParser, limit: int, t: Task, chunk: string): Task {
    var (lines, rest) := SplitLines(t.buffer + chunk, true);
    Task(rest, HandleLines(parse, limit, t.output, lines))
  }

  /** The final flush: an unterminated last line still counts. */
  function Finish(parse: LineParser, limit: int, t: Task): Output {
    if t.buffer == "" then t.output else HandleLine(parse, limit, t.output, t.buffer)
  }

  function Streamed(parse: LineParser, limit: int, chunks: seq<string>): Task {
    if chunks == [] then STARTED
    else OnStdout(parse, limit, Streamed(parse, limit, chunks[..|chunks| - 1]), chunks[|chunks| - 1])
  }

  // ---------------------------------------------------------------------------------------------
  // Chunk boundaries do not matter

  lemma {:induction false} HandleAppend(parse: LineParser, limit: int, o: Output, a: seq<string>, b: seq<string>)
    ensures HandleLines(parse, limit, o, a + b) == HandleLines(parse, limit, HandleLines(parse, limit, o, a), b)
  {
    if b == [] {
      assert a + b == a;
    } else {
      HandleAppend(parse, limit, o, a, b[..|b| - 1]);
      assert (a + b)[..|a + b| - 1] == a + b[..|b| - 1];
    }
  }

  lemma {:induction false} StreamedIsWhole(parse: LineParser, limit: int, chunks: seq<string>)
    ensures var (lines, rest) := SplitLines(Flatten(chunks), true);
            Streamed(parse, limit, chunks) == Task(rest, HandleLines(parse, limit, STARTED.output, lines))
  {
    LineReaderSound(true);
    if chunks == [] {
      DrainStops(LineReader(true), "", "");
    } else {
      var init, last := chunks[..|chunks| - 1], chunks[|chunks| - 1];
      assert chunks == init + [last];
      FlattenSnoc(init, last);
      StreamedIsWhole(parse, limit, init);
      LineReaderStable(true);
      DrainAppend(LineReader(true), Flatten(init), last);
      var (lines, rest) := SplitLines(Flatten(init), true);
      HandleAppend(parse, limit, STARTED.output, lines, SplitLines(rest + last, true).0);
    }
  }

  /**
   * Two processes that print the same text, however the text is cut into chunks (even between CR and
   * LF), leave exactly the same task output: text, character count, truncation flag and tool calls.
   */
  lemma {:induction false} OutputIgnoresChunks(parse: LineParser, limit: int, chunks: seq<string>, others: seq<string>)
    requires Flatten(chunks) == Flatten(others)
    ensures Finish(parse, limit, Streamed(parse, limit, chunks)) == Finish(parse, limit, Streamed(parse, limit, others))
  {
    StreamedIsWhole(parse, limit, chunks);
    StreamedIsWhole(parse, limit, others);
  }

  // ---------------------------------------------------------------------------------------------
  // What is collected

  function Texts(parse: LineParser, lines: seq<string>): seq<string> {
    if lines == [] then []
    else
      var earlier := Texts(parse, lines[..|lines| - 1]);
      match TextOf(parse, lines[|lines| - 1])
      case None => earlier
      case Some(text) => earlier + [text]
  }

  function Tools(parse: LineParser, lines: seq<string>): seq<Chunk> {
    if lines == [] then [] else Tools(parse, lines[..|lines| - 1]) + ToolOf(parse, lines[|lines| - 1])
  }

  function Limit(limit: int): nat { if limit < 0 then 0 else limit }

  /**
   * When the truncation flag goes up: text was lost, or the limit was reached exactly and the text
   * handed over last was empty.
   */
  predicate Flagged(texts: seq<string>, limit: int) {
    var full := |Flatten(texts)|;
    full > Limit(limit) || (full == Limit(limit) && texts != [] && texts[|texts| - 1] == "")
  }

  /** The collected text is the beginning of the full text, and the flag is exactly as described. */
  ghost predicate Bounded(o: Output, limit: int, texts: seq<string>) {
    && Flatten(o.textParts) == Prefix(Flatten(texts), Limit(limit)) && o.outputChars == |Flatten(o.textParts)|
    && (o.truncated <==> Flagged(texts, limit))
  }

  lemma PushKeepsBounded(o: Output, limit: int, texts: seq<string>, text: string)
    requires Bounded(o, limit, texts)
    ensures Bounded(PushText(limit, o, text), limit, texts + [text])
  {
    var room := limit - o.outputChars;
    FlattenSnoc(texts, text);
    if !o.truncated && room > 0 {
      FlattenSnoc(o.textParts, if |text| <= room then text else text[..room]);
    }
  }

  lemma {:induction false} LinesKeepBounded(parse: LineParser, limit: int, lines: seq<string>)
    ensures var o := HandleLines(parse, limit, STARTED.output, lines);
            Bounded(o, limit, Texts(parse, lines)) && o.tools == Tools(parse, lines)
  {
    if lines != [] {
      var init, last := lines[..|lines| - 1], lines[|lines| - 1];
      LinesKeepBounded(parse, limit, init);
      var o := HandleLines(parse, limit, STARTED.output, init);
      if TextOf(parse, last).Some? {
        var text := TextOf(parse, last).value;
        PushKeepsBounded(o.(tools := o.tools + ToolOf(parse, last)), limit, Texts(parse, init), text);
      }
    }
  }

  /** Every line of a text, the unterminated last one included. */
  function AllLines(text: string): seq<string> {
    var (lines, rest) := SplitLines(text, true);
    if rest == "" then lines else lines + [rest]
  }

  /**
   * What a task collects, as a function of everything the process printed: exactly the first
   * maxOutputChars characters of the full text, and every tool call in order. The flag is raised
   * exactly when text was lost, or when an empty text comes last at exactly the limit.
   */
  lemma {:induction false} CollectedIsPrefixOfFullText(parse: LineParser, limit: int, chunks: seq<string>)
    ensures var o := Finish(parse, limit, Streamed(parse, limit, chunks));
            var lines := AllLines(Flatten(chunks));
            && Flatten(o.textParts) == Prefix(Flatten(Texts(parse, lines)), Limit(limit))
            && o.tools == Tools(parse, lines)
            && (o.truncated <==> Flagged(Texts(parse, lines), limit))
  {
    StreamedIsWhole(parse, limit, chunks);
    var (lines, rest) := SplitLines(Flatten(chunks), true);
    LinesKeepBounded(parse, limit, AllLines(Flatten(chunks)));
    assert (lines + [rest])[..|lines|] == lines;
  }

  /** So the flag tells the truth about lost text exactly when no empty text comes last at the limit. */
  lemma {:induction false} FlagIsTruthfulExactlyWhen(parse: LineParser, limit: int, chunks: seq<string>)
    ensures var texts := Texts(parse, AllLines(Flatten(chunks)));
            var o := Finish(parse, limit, Streamed(parse, limit, chunks));
            (o.truncated <==> Flatten(o.textParts) != Flatten(texts))
            <==> !(texts != [] && texts[|texts| - 1] == "" && |Flatten(texts)| == Limit(limit))
  {
    CollectedIsPrefixOfFullText(parse, limit, chunks);
  }

  /** A line whose delta is empty, alone against a limit of zero, raises the flag though nothing is lost. */
  lemma FlagCanOverstate(parse: LineParser)
    requires parse("x") == Some(Delta(""))
    ensures var o := Finish(parse, 0, Streamed(parse, 0, ["x\n"])); o.truncated && o.textParts == []
  {
    var lines := AllLines(Flatten(["x\n"]));
    assert Flatten(["x\n"]) == "x\n";
    OneLine();
    CollectedIsPrefixOfFullText(parse, 0, ["x\n"]);
    StreamedIsWhole(parse, 0, ["x\n"]);
    assert Texts(parse, ["x"]) == [""] && Tools(parse, ["x"]) == [];
    assert HandleLines(parse, 0, STARTED.output, ["x"]) == HandleLine(parse, 0, STARTED.output, "x");
  }

  lemma OneLine()
    ensures SplitLines("x\n", true) == (["x"], "") && Trim("x") == "x"
  {
    LineReaderSound(true);
    TerminatedLineIsTaken("x", false, true);
    assert "x" + "\n" == "x\n" && "x\n" + "" == "x\n";
    DrainOne(LineReader(true), "x\n", "x", "");
    DrainStops(LineReader(true), "", "");
    assert ["x"] + [] == ["x"];
    assert !IsSpace("x"[0]);
    assert TrimStart("x") == "x";
  }

  // ---------------------------------------------------------------------------------------------
  // The session's variables during one task

  class Collector {
    const parse: LineParser
    const limit: int
    var stdoutBuffer: string
    var textParts: seq<string>
    var outputChars: nat
    var outputTruncated: bool
    var toolActivities: seq<Chunk>

    function View(): Task
      reads this
    {
      Task(stdoutBuffer, Output(textParts, outputChars, outputTruncated, toolActivities))
    }

    constructor (parse: LineParser, limit: int)
      ensures View() == STARTED && this.parse == parse && this.limit == limit
    {
      this.parse, this.limit := parse, limit;
      stdoutBuffer, textParts, outputChars, outputTruncated, toolActivities := "", [], 0, false, [];
    }

    method Push(text: string)
      modifies this
      ensures View() == Task(old(stdoutBuffer), PushText(limit, old(View()).output, text))
    {
      if outputTruncated { return; }
      var room := limit - outputChars;
      if room <= 0 {
        outputTruncated := true;
        return;
      }
      if |text| <= room {
        textParts := textParts + [text];
        outputChars := outputChars + |text|;
        return;
      }
      textParts := textParts + [text[..room]];
      outputChars := outputChars + room;
      outputTruncated := true;
    }

    method Handle(rawLine: string)
      modifies this
      ensures View() == Task(old(stdoutBuffer), HandleLine(parse, limit, old(View()).output, rawLine))
    {
      var trimmed := Trim(rawLine);
      if trimmed == "" {
        assert toolActivities + [] == toolActivities;
        return;
      }
      var chunk := parse(trimmed);
      if chunk.Some? && chunk.value.ToolCall? {
        toolActivities := toolActivities + [chunk.value];
        return;
      }
      assert toolActivities + [] == toolActivities;
      if chunk.Some? {
        Push(chunk.value.content);
        return;
      }
      Push(rawLine + "\n");
    }

    method OnStdoutChunk(chunk: string)
      modifies this
      ensures View() == OnStdout(parse, limit, old(View()), chunk)
    {
      var (lines, rest) := SplitLines(stdoutBuffer + chunk, true);
      stdoutBuffer := rest;
      ghost var before := View().output;
      for i := 0 to |lines|
        invariant View() == Task(rest, HandleLines(parse, limit, before, lines[..i]))
      {
        Handle(lines[i]);
        assert lines[..i + 1][..i] == lines[..i];
      }
      assert lines[..|lines|] == lines;
    }

    method Flush() returns (output: string)
      modifies this
      ensures View() == Task("", Finish(parse, limit, old(View())))
      ensures output == Trim(Flatten(Finish(parse, limit, old(View())).textParts))
    {
      if stdoutBuffer != "" {
        Handle(stdoutBuffer);
        stdoutBuffer := "";
      }
      output := Trim(Flatten(textParts));
    }
  }
}
