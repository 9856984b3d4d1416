/** What the streaming driver makes of the text it receives: every line counts, the last one with or
    without its line feed, and white space at the ends of lines does not. */
module DriverReading {
  import opened Options
  import opened Json
  import opened Text
  import opened Lines
  import opened SseTransform
  import opened SseProperties
  import opened SseForwarding
  import opened RemoteDriver
  import C = ClientMarkers
  import J = JsonReading
  import P = SseProperties
  import T = SseStreams

  // ---- The unterminated tail ----

  lemma TailAfterAbort(rw: Rewriter, start: Sse, lines: seq<string>, t: string)
    requires StaysStopped(rw) && Fold(rw.step, start, lines).0.aborted
    ensures Output(rw, start, lines, [], [t]) == Output(rw, start, lines + [t], [], [])
  {
    var (st1, out1) := Fold(rw.step, start, lines);
    FoldConcat(rw.step, start, lines, [t]);
    FoldStopped(rw, st1, [t]);
    assert out1 + [] == out1;
  }

  /** What is sent for a tail that does not abort either, or that does. */
  lemma TailParts(out1: seq<Out>, out2: seq<Out>, end: seq<string>)
    ensures Texts(out1) + [] + Texts(out2) == Texts(out1 + out2)
    ensures Texts(out1) + [] + Texts(out2) + end == Texts(out1 + out2) + [] + Texts([]) + end
  {
    TextsConcat(out1, out2);
    assert Texts(out1) + [] + Texts(out2) == Texts(out1 + out2);
    assert Texts(out1 + out2) + [] + Texts([]) == Texts(out1 + out2);
  }

  lemma TailIsLastLine(rw: Rewriter, start: Sse, lines: seq<string>, t: string)
    requires StaysStopped(rw)
    ensures Output(rw, start, lines, [], [t]) == Output(rw, start, lines + [t], [], [])
  {
    var (st1, out1) := Fold(rw.step, start, lines);
    var (st2, out2) := Fold(rw.step, st1, [t]);
    if st1.aborted {
      TailAfterAbort(rw, start, lines, t);
    } else {
      FoldConcat(rw.step, start, lines, [t]);
      DoneLinesConcat(rw.isDone, lines, [t]);
      TailParts(out1, out2, Texts(rw.finish(st2, DoneLines(rw.isDone, lines) + DoneLines(rw.isDone, [t]) > 0).1));
    }
  }

  lemma FeedEndsTail(text: string)
    ensures Complete(text + [NEWLINE]) == Complete(text) + [Rest(text) + [NEWLINE]] && Rest(text + [NEWLINE]) == ""
  {
    var line := Rest(text) + [NEWLINE];
    CutKeepsText(text);
    CutResumes(text, [NEWLINE]);
    LineFeedAt(line, |line| - 1);
    OneLineFirst(line, "");
    assert line + "" == line;
  }

  /** A line that is not blank counts whether the text ends with a line feed or not. */
  lemma TailCounts(rw: Rewriter, start: Sse, text: string)
    requires StaysStopped(rw) && !IsBlank(Rest(text))
    ensures Batch(rw, start, text, []) == Batch(rw, start, text + [NEWLINE], [])
  {
    var tail := Rest(text);
    FeedEndsTail(text);
    TrimmedEndsConcat(Complete(text), [tail + [NEWLINE]]);
    TrimEndSkips(tail, [NEWLINE]);
    assert TrimmedEnds([tail + [NEWLINE]]) == [TrimEnd(tail)];
    assert TailInput("") == [];
    TailIsLastLine(rw, start, TrimmedEnds(Complete(text)), TrimEnd(tail));
  }

  /** A blank tail does not count. */
  lemma BlankTailIsNothing(rw: Rewriter, start: Sse, text: string, failure: seq<string>)
    requires IsBlank(Rest(text))
    ensures Batch(rw, start, text, failure) == Batch(rw, start, Join(Complete(text)), failure)
  {
    CompleteAreLines(text);
    JoinedLinesComeApart(Complete(text));
    assert TailInput("") == [];
  }

  /** A failure is printed between what the complete lines gave and what is sent for the tail and the end;
      it changes neither. Nothing is printed of it if the stream was aborted before. */
  lemma FailureComesBetween(rw: Rewriter, start: Sse, text: string, failure: seq<string>) returns (end: seq<string>)
    ensures var (st, outs) := Fold(rw.step, start, TrimmedEnds(Complete(text)));
      && Batch(rw, start, text, []) == Texts(outs) + end
      && Batch(rw, start, text, failure) == Texts(outs) + (if st.aborted then [] else failure) + end
      && (st.aborted ==> end == [])
  {
    var (st, outs) := Fold(rw.step, start, TrimmedEnds(Complete(text)));
    var whole := Batch(rw, start, text, []);
    var said := Texts(outs);
    var none: seq<string> := [];
    assert said + none == said;
    end := whole[|said|..];
    if !st.aborted {
      var (st2, out2) := Fold(rw.step, st, TailInput(Rest(text)));
      var done := DoneLines(rw.isDone, TrimmedEnds(Complete(text))) + DoneLines(rw.isDone, TailInput(Rest(text))) > 0;
      var more := if st2.aborted then Texts(out2) else Texts(out2) + Texts(rw.finish(st2, done).1);
      Between(said, none, Texts(out2), Texts(rw.finish(st2, done).1));
      Between(said, failure, Texts(out2), Texts(rw.finish(st2, done).1));
      assert whole == said + more;
      assert end == more;
    }
  }

  lemma Between(a: seq<string>, f: seq<string>, b: seq<string>, c: seq<string>)
    ensures a + f + b + c == a + f + (b + c)
  {
  }

  // ---- Lines ----

  /** A line and the white space before its line feed. */
  datatype Row = Row(line: string, space: string)

  predicate IsRow(r: Row) {
    && NEWLINE !in r.line && NEWLINE !in r.space && AllWhitespace(r.space)
    && (r.line != "" ==> !IsWhitespace(r.line[|r.line| - 1]))
  }

  predicate AreRows(rows: seq<Row>) {
    forall i :: 0 <= i < |rows| ==> IsRow(rows[i])
  }

  function PrintedRow(r: Row): string {
    r.line + (r.space + [NEWLINE])
  }

  function Printed(rows: seq<Row>): string {
    if rows == [] then "" else PrintedRow(rows[0]) + Printed(rows[1..])
  }

  function LinesOf(rows: seq<Row>): seq<string> {
    if rows == [] then [] else [rows[0].line] + LinesOf(rows[1..])
  }

  lemma RowIsCut(r: Row)
    requires IsRow(r)
    ensures IsLine(PrintedRow(r)) && TrimEnd(PrintedRow(r)) == r.line
  {
    var s := PrintedRow(r);
    LineFeedAt(s, |s| - 1);
    TrimEndSkips(r.line, r.space + [NEWLINE]);
  }

  lemma {:induction false} RowsAreCut(rows: seq<Row>)
    requires AreRows(rows)
    ensures TrimmedEnds(Complete(Printed(rows))) == LinesOf(rows) && Rest(Printed(rows)) == ""
  {
    if rows != [] {
      RowIsCut(rows[0]);
      OneLineFirst(PrintedRow(rows[0]), Printed(rows[1..]));
      RowsAreCut(rows[1..]);
      assert ([PrintedRow(rows[0])] + Complete(Printed(rows[1..])))[1..] == Complete(Printed(rows[1..]));
    }
  }

  /** The text of the rows, the last line feed left out or not. */
  predicate IsTextOf(text: string, rows: seq<Row>) {
    text == Printed(rows) || (text + [NEWLINE] == Printed(rows) && !IsBlank(Rest(text)))
  }

  /** What the driver sends is fixed by the lines: not by the white space at their ends, nor by whether
      the last one ends. */
  lemma LinesDecide(rw: Rewriter, start: Sse, text: string, rows: seq<Row>)
    requires StaysStopped(rw) && AreRows(rows) && IsTextOf(text, rows)
    ensures Batch(rw, start, text, []) == Output(rw, start, LinesOf(rows), [], [])
  {
    RowsAreCut(rows);
    assert TailInput("") == [];
    if text != Printed(rows) { TailCounts(rw, start, text); }
  }

  // ---- What the client reads in the body ----

  /** A parser that reads every object back from its text. */
  ghost predicate ReadsBack(env: Env) {
    forall v: Value {:trigger env.parse(Serialize(v))} :: v.Object? ==> env.parse(Serialize(v)) == Some(v)
  }

  /** There is such a parser, and with it the transformer has all it needs. */
  lemma SomeParserReadsBack(uuid: nat -> string, now: NumberText)
    ensures ReadsBack(Env(J.Parse, uuid, now)) && ReadsSynthetic(Env(J.Parse, uuid, now))
  {
    forall v: Value ensures J.Parse(Serialize(v)) == Some(v) {
      J.ParseInverts(v, "");
      assert Serialize(v) + "" == Serialize(v);
    }
  }

  /** Sent as lines of their own, and chunks as objects. */
  predicate Printable(outs: seq<Out>) {
    forall i :: 0 <= i < |outs| ==> NEWLINE !in Render(outs[i]) && (outs[i].Event? ==> outs[i].chunk.Object?)
  }

  lemma PrintableConcat(a: seq<Out>, b: seq<Out>)
    requires Printable(a) && Printable(b)
    ensures Printable(a + b)
  {
  }

  lemma EventsArePrintable(outs: seq<Out>)
    requires AllEvents(outs)
    ensures Printable(outs)
  {
    C.EventsPrintAsLines(outs);
  }

  lemma FlushIsPrintable(env: Env, st: Sse)
    ensures Printable(FlushEnd(env, st).1) && Printable(FlushEnd(env, st).1 + [Done])
  {
    CompletionSendsEvents(env, st);
    EventsArePrintable(FlushEnd(env, st).1);
    C.DonePrintsAsLine();
  }

  lemma LineIsPrintable(env: Env, st: Sse, line: string)
    requires NEWLINE !in line
    ensures Printable(Process(env, st, line).1)
  {
    if !st.aborted {
      match Normalize(line)
      case NotData =>
      case DoneLine => FlushIsPrintable(env, st);
      case Data(payload) =>
        C.PayloadHasNoBreak(line);
        var chunk := env.parse(payload);
        if chunk.Some? {
          var outs := TakeChunk(env, Capture(st, chunk.value), DATA_PREFIX + payload, chunk.value).1;
          ChunkOuts(env, Capture(st, chunk.value), DATA_PREFIX + payload, chunk.value);
          if AllEvents(outs) { EventsArePrintable(outs); }
        }
    }
  }

  lemma {:induction false} StreamIsPrintable(env: Env, st: Sse, lines: seq<string>)
    requires C.HaveNoBreak(lines)
    ensures Printable(ProcessAll(env, st, lines).1)
    decreases |lines|
  {
    if lines != [] {
      var first := Process(env, st, lines[0]);
      LineIsPrintable(env, st, lines[0]);
      StreamIsPrintable(env, first.0, lines[1..]);
      PrintableConcat(first.1, ProcessAll(env, first.0, lines[1..]).1);
    }
  }

  lemma WholeStreamIsPrintable(env: Env, format: Format, lines: seq<string>, done: bool)
    requires C.HaveNoBreak(lines)
    ensures Printable(T.WholeStream(env, format, lines, done))
  {
    var (st, outs) := ProcessAll(env, Start(format), lines);
    StreamIsPrintable(env, Start(format), lines);
    FlushIsPrintable(env, st);
    PrintableConcat(outs, Finalize(env, st, done).1);
  }

  /** The lines of a body, without their line feeds. */
  function BodyLines(body: string): seq<string> {
    WithoutFeeds(Complete(body))
  }

  function WithoutFeeds(lines: seq<string>): seq<string> {
    if lines == [] then []
    else [if lines[0] == "" then "" else lines[0][..|lines[0]| - 1]] + WithoutFeeds(lines[1..])
  }

  /** What is printed reads as what was sent. */
  lemma RenderedReads(env: Env, o: Out)
    requires ReadsBack(env) && (o.Event? ==> o.chunk.Object?)
    ensures LineMessage(env, Render(o)) == MessageOf(env, o)
  {
    match o
    case Pass(line) =>
    case Event(chunk) =>
      ObjectTextIsData(chunk);
      NormalizeIsStable(Serialize(chunk));
    case Done =>
      DoneIsHonest();
      OnlyDoneLinesAreDoneText(DONE_TEXT);
  }

  lemma {:induction false} LinesRead(env: Env, outs: seq<Out>)
    requires ReadsBack(env) && Printable(outs)
    ensures Messages(env, Direct(WithoutFeeds(Texts(outs)))) == Messages(env, outs)
  {
    if outs != [] {
      var texts := Texts(outs);
      assert texts[1..] == Texts(outs[1..]);
      assert texts[0][..|texts[0]| - 1] == Render(outs[0]);
      RenderedReads(env, outs[0]);
      LinesRead(env, outs[1..]);
      DirectFirst(env, WithoutFeeds(texts));
      assert WithoutFeeds(texts)[1..] == WithoutFeeds(texts[1..]);
    }
  }

  /** Whoever cuts the body into lines and reads each of them reads exactly the messages sent. */
  lemma BodyIsRead(env: Env, outs: seq<Out>)
    requires ReadsBack(env) && Printable(outs)
    ensures Messages(env, Direct(BodyLines(Join(Texts(outs))))) == Messages(env, outs) && Rest(Join(Texts(outs))) == ""
  {
    C.TextsAreLines(outs);
    JoinedLinesComeApart(Texts(outs));
    LinesRead(env, outs);
  }

  // ---- Without a brace ----

  lemma {:induction false} FoldIsProcessing(rw: Rewriter, env: Env, st: Sse, lines: seq<string>)
    requires Performs(rw, env)
    ensures Fold(rw.step, st, lines) == ProcessAll(env, st, lines)
    decreases |lines|
  {
    if lines != [] {
      assert rw.step(st, lines[0]) == Process(env, st, lines[0]);
      FoldIsProcessing(rw, env, Process(env, st, lines[0]).0, lines[1..]);
    }
  }

  /** Without a panic the driver prints what the transformer makes of the whole stream. */
  lemma OutputIsWholeStream(rw: Rewriter, env: Env, format: Format, lines: seq<string>, done: bool)
    requires Performs(rw, env) && !ProcessAll(env, Start(format), lines).0.aborted
    requires done <==> DoneLines(rw.isDone, lines) > 0
    ensures Output(rw, Start(format), lines, [], []) == Texts(T.WholeStream(env, format, lines, done))
  {
    FoldIsProcessing(rw, env, Start(format), lines);
    var (st, out1) := ProcessAll(env, Start(format), lines);
    assert rw.finish(st, done) == Finalize(env, st, done);
    OutputWithoutTail(rw, Start(format), lines, st, out1, done);
    TextsConcat(out1, Finalize(env, st, done).1);
  }

  lemma OutputWithoutTail(rw: Rewriter, start: Sse, lines: seq<string>, st: Sse, out1: seq<Out>, done: bool)
    requires Fold(rw.step, start, lines) == (st, out1) && !st.aborted
    requires done <==> DoneLines(rw.isDone, lines) > 0
    ensures Output(rw, start, lines, [], []) == Texts(out1) + Texts(rw.finish(st, done).1)
  {
    assert Texts(out1) + [] + Texts([]) == Texts(out1);
  }

  lemma {:induction false} RowsHaveNoBreak(rows: seq<Row>)
    requires AreRows(rows)
    ensures C.HaveNoBreak(LinesOf(rows))
  {
    if rows != [] {
      RowsHaveNoBreak(rows[1..]);
      assert forall i :: 1 <= i < |LinesOf(rows)| ==> LinesOf(rows)[i] == LinesOf(rows[1..])[i - 1];
    }
  }

  /** As long as no text has a brace, an agent client behind the driver reads in its body, message by
      message, what the upstream sent, the unterminated last line included, and one end marker if the
      upstream sent none. */
  lemma ClientReadsUpstream(rw: Rewriter, env: Env, format: Format, text: string, rows: seq<Row>)
    requires Performs(rw, env) && ReadsBack(env)
    requires AreRows(rows) && IsTextOf(text, rows) && '{' !in P.Received(env, LinesOf(rows))
    ensures var upstream := Messages(env, Direct(LinesOf(rows)));
      Messages(env, Direct(BodyLines(Join(Batch(rw, Start(format), text, [])))))
      == upstream + if Marker in upstream then [] else [Marker]
  {
    var lines := LinesOf(rows);
    var done := DoneLines(rw.isDone, lines) > 0;
    LinesDecide(rw, Start(format), text, rows);
    WithoutBraceAllPass(env, Start(format), lines);
    OutputIsWholeStream(rw, env, format, lines, done);
    T.WithoutBraceIsDirect(env, format, lines, done);
    MarkersAreDone(rw, env, lines);
    RowsHaveNoBreak(rows);
    WholeStreamIsPrintable(env, format, lines, done);
    BodyIsRead(env, T.WholeStream(env, format, lines, done));
  }

  lemma {:induction false} MarkersAreDone(rw: Rewriter, env: Env, lines: seq<string>)
    requires Performs(rw, env)
    ensures Marker in Messages(env, Direct(lines)) <==> DoneLines(rw.isDone, lines) > 0
  {
    if lines != [] {
      MarkersAreDone(rw, env, lines[1..]);
      DirectFirst(env, lines);
      assert rw.isDone(lines[0]) <==> Normalize(lines[0]).DoneLine?;
    }
  }

  lemma OneContentLine(env: Env, line: string, text: string)
    requires T.IsContentLine(env, line, text)
    ensures P.Received(env, [line]) == text && Messages(env, Direct([line])) == [Parsed(T.ContentChunk(text))]
  {
    T.ContentChunkCarries(text);
    T.OneLine(env, ChatCompletions, line);
    assert [line][1..] == [] && Direct([line]) == [Pass(line)];
    MessagesOne(env, Pass(line));
  }

  /** So a text that is one chunk with text and no line feed gives the client that chunk. */
  lemma OnlyATail(rw: Rewriter, env: Env, format: Format, line: string, text: string)
    requires Performs(rw, env) && ReadsBack(env)
    requires NEWLINE !in line && T.IsContentLine(env, line, text) && '{' !in text
    requires line != "" && !IsWhitespace(line[|line| - 1])
    ensures Messages(env, Direct(BodyLines(Join(Batch(rw, Start(format), line, []))))) == [Parsed(T.ContentChunk(text)), Marker]
  {
    LastRow(Row(line, ""));
    OneContentLine(env, line, text);
    ClientReadsUpstream(rw, env, format, line, [Row(line, "")]);
  }

  lemma LastRow(r: Row)
    requires IsRow(r) && r.line != "" && r.space == ""
    ensures IsTextOf(r.line, [r]) && LinesOf([r]) == [r.line]
  {
    assert [r][1..] == [];
    assert "" + [NEWLINE] == [NEWLINE] && PrintedRow(r) + "" == PrintedRow(r);
    assert LineFeed(r.line) == |r.line|;
    BlankIsAllWhitespace(r.line);
  }
}
