/** Whole streams: when text is conserved, what becomes of a tool call on its way to the client, and
    streams in which text is dropped or the transformer panics. */
module SseStreams {
  import opened Options
  import opened Text
  import opened Json
  import O = ObjectScanner
  import opened SseTransform
  import opened SseProperties
  import opened ClientReading
  import opened SseForwarding

  // ---- Completions carry no content ----

  predicate HasNoContent(env: Env, outs: seq<Out>) {
    Forwarded(env, outs) == ""
  }

  lemma NoContentConcat(env: Env, a: seq<Out>, b: seq<Out>)
    requires HasNoContent(env, a) && HasNoContent(env, b)
    ensures HasNoContent(env, a + b)
  {
    ForwardedConcat(env, a, b);
  }

  /** A delta without a text for its content. */
  lemma DeltaHasNoContent(env: Env, meta: Meta, delta: Value, finish: Value)
    requires var content := delta.Get("content"); content.None? || !content.value.Str?
    ensures HasNoContent(env, [ChoiceEvent(env, meta, delta, finish)])
  {
    DeltaOf(env, meta, delta, finish);
    ForwardedOne(env, ChoiceEvent(env, meta, delta, finish));
  }

  lemma CallHasNoContent(env: Env, meta: Meta, fields: seq<Field>)
    ensures HasNoContent(env, [ChoiceEvent(env, meta, CallDelta(fields), Null)])
  {
    LookupSingle("tool_calls", Array([Object(fields)]), "content");
    DeltaHasNoContent(env, meta, CallDelta(fields), Null);
  }

  lemma {:induction false} CallEventsHaveNoContent(env: Env, meta: Meta, calls: seq<ToolCall>)
    ensures HasNoContent(env, CallEvents(env, meta, calls))
  {
    if calls != [] {
      var c := calls[0];
      CallHasNoContent(env, meta, OpeningFields(c));
      CallHasNoContent(env, meta, ArgumentsFields(c));
      CallEventsHaveNoContent(env, meta, calls[1..]);
      var opening := [ChoiceEvent(env, meta, OpeningDelta(c), Null)];
      var args := if c.args == "" then [] else [ChoiceEvent(env, meta, ArgumentsDelta(c), Null)];
      NoContentConcat(env, opening, args);
      NoContentConcat(env, OneCall(env, meta, c), CallEvents(env, meta, calls[1..]));
    }
  }

  lemma ChatEventsHaveNoContent(env: Env, meta: Meta, calls: seq<ToolCall>)
    ensures HasNoContent(env, ChatEvents(env, meta, calls))
  {
    var role, stop := Object([Field("role", Str("assistant"))]), Object([]);
    LookupSingle("role", Str("assistant"), "content");
    DeltaHasNoContent(env, meta, role, Null);
    DeltaHasNoContent(env, meta, stop, Str("tool_calls"));
    CallEventsHaveNoContent(env, meta, calls);
    NoContentConcat(env, [ChoiceEvent(env, meta, role, Null)], CallEvents(env, meta, calls));
    NoContentConcat(env, [ChoiceEvent(env, meta, role, Null)] + CallEvents(env, meta, calls),
                    [ChoiceEvent(env, meta, stop, Str("tool_calls"))]);
  }

  lemma NoChoices(env: Env, chunk: Value)
    requires chunk.Get("choices").None?
    ensures HasNoContent(env, [Event(chunk)])
  {
    ForwardedOne(env, Event(chunk));
  }

  lemma AddedHasNoContent(env: Env, c: ToolCall, position: nat)
    ensures HasNoContent(env, [AddedEvent(c, position)])
  {
    var fs := AddedEvent(c, position).chunk.fields;
    assert fs == [fs[0]] + ([fs[1]] + [fs[2]]);
    LookupNext(fs[0], [fs[1]] + [fs[2]], "choices");
    LookupNext(fs[1], [fs[2]], "choices");
    LookupSingle("item", fs[2].value, "choices");
    NoChoices(env, AddedEvent(c, position).chunk);
  }

  lemma ArgumentsHaveNoContent(env: Env, c: ToolCall)
    ensures HasNoContent(env, [ArgumentsEvent(c)])
  {
    var fs := ArgumentsEvent(c).chunk.fields;
    SkipFour(fs[0], fs[1], fs[2], fs[3], [], "choices");
    assert fs == [fs[0], fs[1], fs[2], fs[3]] + [];
    NoChoices(env, ArgumentsEvent(c).chunk);
  }

  lemma CompletedHasNoContent(env: Env, id: string, calls: seq<ToolCall>)
    ensures HasNoContent(env, [CompletedEvent(id, calls)])
  {
    var fs := CompletedEvent(id, calls).chunk.fields;
    assert fs == [fs[0]] + [fs[1]];
    LookupNext(fs[0], [fs[1]], "choices");
    LookupSingle("response", fs[1].value, "choices");
    NoChoices(env, CompletedEvent(id, calls).chunk);
  }

  lemma {:induction false} ResponseCallsHaveNoContent(env: Env, calls: seq<ToolCall>, position: nat)
    ensures HasNoContent(env, ResponseCallEvents(calls, position))
  {
    if calls != [] {
      var c := calls[0];
      AddedHasNoContent(env, c, position);
      ArgumentsHaveNoContent(env, c);
      ResponseCallsHaveNoContent(env, calls[1..], position + 1);
      NoContentConcat(env, [AddedEvent(c, position)], [ArgumentsEvent(c)]);
      NoContentConcat(env, [AddedEvent(c, position)] + [ArgumentsEvent(c)], ResponseCallEvents(calls[1..], position + 1));
      assert [AddedEvent(c, position), ArgumentsEvent(c)] == [AddedEvent(c, position)] + [ArgumentsEvent(c)];
    }
  }

  lemma ResponsesHaveNoContent(env: Env, id: string, calls: seq<ToolCall>)
    ensures HasNoContent(env, ResponseEvents(id, calls))
  {
    ResponseCallsHaveNoContent(env, calls, 0);
    CompletedHasNoContent(env, id, calls);
    NoContentConcat(env, ResponseCallEvents(calls, 0), [CompletedEvent(id, calls)]);
  }

  lemma CallOutsHaveNoContent(env: Env, format: Format, meta: Meta, id: string, calls: seq<ToolCall>)
    ensures HasNoContent(env, CallOuts(env, format, meta, id, calls))
  {
    ResponsesHaveNoContent(env, id, calls);
    ChatEventsHaveNoContent(env, meta, calls);
  }

  lemma AnswerHasNoContent(env: Env, format: Format, meta: Meta, drawn: nat, calls: Option<seq<ToolCall>>)
    ensures HasNoContent(env, AnswerOuts(env, format, meta, drawn, calls))
  {
    if calls.Some? {
      CallOutsHaveNoContent(env, format, meta, ResponseId(env, drawn, calls.value), calls.value);
    } else {
      StopHasNoContent(env, meta);
    }
  }

  lemma StopHasNoContent(env: Env, meta: Meta)
    ensures HasNoContent(env, [StopEvent(env, meta)])
  {
    LookupSingle("content", Null, "content");
    DeltaHasNoContent(env, meta, Object([Field("content", Null)]), Str("stop"));
  }

  /** Whatever a completion sends, it forwards none of the text that was held back. */
  lemma CompletionForwardsNothing(env: Env, st: Sse)
    ensures Forwarded(env, Completion(env, st).1) == ""
    ensures Forwarded(env, Completion(env, st).1 + [Done]) == ""
  {
    AnswerHasNoContent(env, st.format, st.meta, st.drawn, TextCalls(env, st.drawn, st.acc));
    ForwardedConcat(env, Completion(env, st).1, [Done]);
    ForwardedOne(env, Done);
  }

  // ---- When text is conserved ----

  lemma LineForwardsNoBrace(env: Env, st: Sse, line: string)
    requires Holds(st)
    ensures '{' !in Forwarded(env, Process(env, st, line).1)
  {
    if !st.aborted {
      if Completes(env, st, line) {
        CompletingLine(env, st, line);
        CompletionForwardsNothing(env, st);
        if Normalize(line).Data? {
          CompletionForwardsNothing(env, Capture(st, env.parse(Normalize(line).payload).value));
        }
      } else {
        LineIsConserved(env, st, line);
      }
    }
  }

  /** Over any stream, completions included, nothing that is forwarded has a brace. */
  lemma {:induction false} StreamForwardsNoBrace(env: Env, st: Sse, lines: seq<string>)
    requires Holds(st)
    ensures '{' !in Forwarded(env, ProcessAll(env, st, lines).1)
    decreases |lines|
  {
    if lines != [] {
      var (st1, out1) := Process(env, st, lines[0]);
      LineForwardsNoBrace(env, st, lines[0]);
      LineKeepsHolds(env, st, lines[0]);
      StreamForwardsNoBrace(env, st1, lines[1..]);
      ForwardedConcat(env, out1, ProcessAll(env, st1, lines[1..]).1);
    }
  }

  lemma FinishForwardsNothing(env: Env, st: Sse, done: bool)
    ensures Forwarded(env, Finalize(env, st, done).1) == ""
  {
    CompletionForwardsNothing(env, st);
    ForwardedOne(env, Done);
    assert [] + [Done] == [Done];
  }

  lemma {:induction false} StreamWithoutBrace(env: Env, st: Sse, lines: seq<string>)
    requires Runs(st) && !st.suppress && '{' !in Received(env, lines)
    ensures var (st', outs) := ProcessAll(env, st, lines);
      Runs(st') && !st'.suppress && Forwarded(env, outs) == Received(env, lines)
    decreases |lines|
  {
    if lines != [] {
      var (st1, out1) := Process(env, st, lines[0]);
      LineWithoutBrace(env, st, lines[0]);
      StreamWithoutBrace(env, st1, lines[1..]);
      ForwardedConcat(env, out1, ProcessAll(env, st1, lines[1..]).1);
    }
  }

  /** All that is sent for a stream, its end included. */
  function WholeStream(env: Env, format: Format, lines: seq<string>, done: bool): seq<Out> {
    var (st, outs) := ProcessAll(env, Start(format), lines);
    outs + Finalize(env, st, done).1
  }

  /** Over a whole stream, with every completion and its end, the content forwarded is the content
      received exactly when there is no brace in it. Content of a chunk that carries tool calls as well
      is forwarded with the chunk and counts on neither side. */
  lemma TextIsConserved(env: Env, format: Format, lines: seq<string>, done: bool)
    ensures Forwarded(env, WholeStream(env, format, lines, done)) == Received(env, lines)
       <==> '{' !in Received(env, lines)
  {
    var (st, outs) := ProcessAll(env, Start(format), lines);
    StreamForwardsNoBrace(env, Start(format), lines);
    FinishForwardsNothing(env, st, done);
    ForwardedConcat(env, outs, Finalize(env, st, done).1);
    assert Forwarded(env, outs) + "" == Forwarded(env, outs);
    if '{' !in Received(env, lines) { StreamWithoutBrace(env, Start(format), lines); }
  }

  /** And then it is the client of the upstream, but for the end marker if the upstream sent none. */
  lemma WithoutBraceIsDirect(env: Env, format: Format, lines: seq<string>, done: bool)
    requires '{' !in Received(env, lines)
    ensures Messages(env, WholeStream(env, format, lines, done))
         == Messages(env, Direct(lines)) + if done then [] else [Marker]
  {
    var (st, outs) := ProcessAll(env, Start(format), lines);
    WithoutBraceAllPass(env, Start(format), lines);
    MessagesConcat(env, outs, Finalize(env, st, done).1);
    MessagesOne(env, Done);
    assert [] + [Done] == [Done];
  }

  // ---- Tool calls on their way to the client ----

  /** Trimming the end of a text after a character that is not white space. */
  lemma {:induction false} TrimEndPast(m: string, after: string)
    requires m != "" && !IsWhitespace(m[|m| - 1])
    ensures TrimEnd(m + after) == m + TrimEnd(after)
  {
    if after == "" {
      assert m + after == m && m + TrimEnd(after) == m;
    } else {
      var whole := m + after;
      assert whole[|whole| - 1] == after[|after| - 1];
      if IsWhitespace(after[|after| - 1]) {
        assert whole[..|whole| - 1] == m + after[..|after| - 1];
        TrimEndPast(m, after[..|after| - 1]);
      }
    }
  }

  /** A tool call that the parser reads back, and which it does not find in the object with the
      trailing text. */
  predicate IsCall(env: Env, drawn: nat, v: Value, after: string) {
    && v.Object? && NameOf(v).Some? && env.parse(Serialize(v)) == Some(v)
    && (TrimEnd(after) != "" ==> ParsedCalls(env, drawn, Serialize(v) + TrimEnd(after)).None?)
  }

  /** The call that is found in held-back text, white space before the object or not. */
  lemma HeldCallIsFound(env: Env, drawn: nat, acc: string, v: Value, after: string)
    requires IsCall(env, drawn, v, after) && TrimStart(acc) == Serialize(v) + after
    ensures TextCalls(env, drawn, acc) == Some([Entry(env, drawn, 0, NameOf(v).value, v)])
  {
    var text := Serialize(v);
    ObjectTextIsData(v);
    assert text[|text| - 1] == '}';
    TrimEndPast(text, after);
    TrimEnds(acc);
    assert Trim(acc) == "" + (text + TrimEnd(after));
    ToolCallIsFound(env, drawn, "", v, TrimEnd(after));
  }

  function AsSeen(format: Format, c: ToolCall): Seen {
    if format == ResponsesApi then Plain(c) else Expected(c)
  }

  lemma OneCallSeen(c: ToolCall)
    ensures PlainAll([c]) == [Plain(c)] && ExpectedAll([c]) == [Expected(c)]
  {
    assert [c][1..] == [];
  }

  lemma CallIsRead(env: Env, format: Format, meta: Meta, drawn: nat, seen: seq<Seen>, c: ToolCall)
    ensures ClientCalls(env, format, seen, AnswerOuts(env, format, meta, drawn, Some([c]))) == seen + [AsSeen(format, c)]
  {
    OneCallSeen(c);
    if format == ResponsesApi {
      ResponsesClientSeesCalls(env, ResponseId(env, drawn, [c]), seen, [c]);
    } else {
      ClientSeesCalls(env, meta, seen, [c]);
    }
  }

  lemma MarkerIsNotRead(env: Env, format: Format, seen: seq<Seen>, marker: seq<Out>)
    requires marker == [] || marker == [Done]
    ensures ClientCalls(env, format, seen, marker) == seen
  {
    assert [Done][1..] == [];
  }

  lemma CompletionIsRead(env: Env, st: Sse, seen: seq<Seen>, c: ToolCall, marker: seq<Out>)
    requires !PreviewPanics(st.acc) && TextCalls(env, st.drawn, st.acc) == Some([c])
    requires marker == [] || marker == [Done]
    ensures ClientCalls(env, st.format, seen, Completion(env, st).1 + marker) == seen + [AsSeen(st.format, c)]
  {
    var outs := AnswerOuts(env, st.format, st.meta, st.drawn, Some([c]));
    CallIsRead(env, st.format, st.meta, st.drawn, seen, c);
    MarkerIsNotRead(env, st.format, seen + [AsSeen(st.format, c)], marker);
    ClientConcat(env, st.format, seen, outs, marker);
  }

  lemma ClientConcat(env: Env, format: Format, seen: seq<Seen>, a: seq<Out>, b: seq<Out>)
    ensures ClientCalls(env, format, seen, a + b) == ClientCalls(env, format, ClientCalls(env, format, seen, a), b)
  {
    ReadConcat(env, seen, a, b);
    ReadResponsesConcat(env, seen, a, b);
  }

  /** A stream whose content is prose, a tool call and trailing text, split into chunks anywhere and
      among any other lines. */
  ghost predicate CarriesCall(env: Env, format: Format, lines: seq<string>, prose: string, v: Value, after: string) {
    && NoCompletion(env, Start(format), lines)
    && Received(env, lines) == prose + (Serialize(v) + after) && '{' !in prose
    && IsCall(env, ProcessAll(env, Start(format), lines).0.drawn, v, after)
  }

  /** Until then the client has the prose, but perhaps for white space at its end, and the call is held
      back whole. */
  lemma CallIsHeld(env: Env, format: Format, lines: seq<string>, prose: string, v: Value, after: string)
    requires CarriesCall(env, format, lines, prose, v, after)
    ensures var (st, outs) := ProcessAll(env, Start(format), lines);
      && Runs(st) && st.suppress && st.format == format
      && Forwarded(env, outs) <= prose && AllWhitespace(prose[|Forwarded(env, outs)|..])
      && TextCalls(env, st.drawn, st.acc) == Some([Entry(env, st.drawn, 0, NameOf(v).value, v)])
  {
    var (st, outs) := ProcessAll(env, Start(format), lines);
    var f, body := Forwarded(env, outs), Serialize(v) + after;
    ContentIsConserved(env, Start(format), lines);
    FormatStays(env, Start(format), lines);
    var c := prose + body;
    assert "" + c == c;
    ObjectTextIsData(v);
    assert body[0] == '{';
    FirstBraceAfter(prose, body);
    HeldBackText(f, st.acc, c);
    WhiteSpaceBetween(f, st.acc, prose, body);
    HeldCallIsFound(env, st.drawn, st.acc, v, after);
  }

  lemma WhiteSpaceBetween(f: string, acc: string, prose: string, body: string)
    requires f + acc == prose + body && TrimStart(acc) == body
    ensures f <= prose && AllWhitespace(prose[|f|..])
  {
    var ws := TrimStartShape(acc);
    assert f + acc == (f + ws) + body;
    assert |f + ws| == |prose|;
    assert (f + acc)[..|prose|] == f + ws && (prose + body)[..|prose|] == prose;
    assert prose[|f|..] == ws;
  }

  lemma {:induction false} FormatStays(env: Env, st: Sse, lines: seq<string>)
    ensures ProcessAll(env, st, lines).0.format == st.format
    decreases |lines|
  {
    if lines != [] {
      LineKeepsFormat(env, st, lines[0]);
      FormatStays(env, Process(env, st, lines[0]).0, lines[1..]);
    }
  }

  lemma LineKeepsFormat(env: Env, st: Sse, line: string)
    ensures Process(env, st, line).0.format == st.format
  {
    CompletionKeepsFormat(env, st);
    if Normalize(line).Data? {
      var chunk := env.parse(Normalize(line).payload);
      if chunk.Some? { ChunkKeepsFormat(env, Capture(st, chunk.value), DATA_PREFIX + Normalize(line).payload, chunk.value); }
    }
  }

  lemma CompletionKeepsFormat(env: Env, st: Sse)
    ensures Completion(env, st).0.format == st.format
  {
  }

  lemma ChunkKeepsFormat(env: Env, st: Sse, line: string, chunk: Value)
    ensures TakeChunk(env, st, line, chunk).0.format == st.format
  {
    CompletionKeepsFormat(env, st);
  }

  /** The way of a tool call: when a stop or the end marker completes the stream, the client has the
      prose and, after the calls that the upstream itself sent, exactly this call; unless the preview
      panics, and then it gets nothing more. */
  lemma CallReachesClient(env: Env, format: Format, lines: seq<string>, last: string,
                          prose: string, v: Value, after: string)
    requires CarriesCall(env, format, lines, prose, v, after)
    requires Completes(env, ProcessAll(env, Start(format), lines).0, last)
    ensures var (st, outs) := ProcessAll(env, Start(format), lines);
      var end := Process(env, st, last).1;
      && Forwarded(env, outs) <= prose && AllWhitespace(prose[|Forwarded(env, outs)|..]) && Forwarded(env, end) == ""
      && if PreviewPanics(st.acc) then end == []
         else ClientCalls(env, format, [], outs + end)
              == ClientCalls(env, format, [], Direct(lines)) + [AsSeen(format, Entry(env, st.drawn, 0, NameOf(v).value, v))]
  {
    var (st, outs) := ProcessAll(env, Start(format), lines);
    var c := Entry(env, st.drawn, 0, NameOf(v).value, v);
    CallIsHeld(env, format, lines, prose, v, after);
    CallsPassThrough(env, format, Start(format), lines, []);
    CompletingLine(env, st, last);
    var st1 := if Normalize(last).Data? then Capture(st, env.parse(Normalize(last).payload).value) else st;
    var end := Process(env, st, last).1;
    CompletionForwardsNothing(env, st1);
    if !PreviewPanics(st.acc) {
      var marker := if Normalize(last).DoneLine? then [Done] else [];
      assert Completion(env, st1).1 + [] == Completion(env, st1).1;
      assert end == Completion(env, st1).1 + marker;
      CompletionIsRead(env, st1, ClientCalls(env, format, [], outs), c, marker);
      ClientConcat(env, format, [], outs, end);
    }
  }

  /** The same when the stream just ends. */
  lemma CallReachesClientAtEnd(env: Env, format: Format, lines: seq<string>, done: bool,
                               prose: string, v: Value, after: string)
    requires CarriesCall(env, format, lines, prose, v, after)
    ensures var (st, outs) := ProcessAll(env, Start(format), lines);
      var all := WholeStream(env, format, lines, done);
      && Forwarded(env, all) <= prose && AllWhitespace(prose[|Forwarded(env, all)|..])
      && if PreviewPanics(st.acc) then all == outs
         else ClientCalls(env, format, [], all)
              == ClientCalls(env, format, [], Direct(lines)) + [AsSeen(format, Entry(env, st.drawn, 0, NameOf(v).value, v))]
  {
    var (st, outs) := ProcessAll(env, Start(format), lines);
    var c := Entry(env, st.drawn, 0, NameOf(v).value, v);
    CallIsHeld(env, format, lines, prose, v, after);
    CallsPassThrough(env, format, Start(format), lines, []);
    var end := Finalize(env, st, done).1;
    FinishForwardsNothing(env, st, done);
    ForwardedConcat(env, outs, end);
    assert Forwarded(env, outs) + "" == Forwarded(env, outs);
    if PreviewPanics(st.acc) {
      assert outs + [] == outs;
    } else {
      var marker := if done then [] else [Done];
      assert Completion(env, st).1 + [] == Completion(env, st).1;
      assert end == Completion(env, st).1 + marker;
      CompletionIsRead(env, st, ClientCalls(env, format, [], outs), c, marker);
      ClientConcat(env, format, [], outs, end);
    }
  }

  // ---- Inputs ----

  /** A chunk that carries only a text. */
  function ContentChunk(text: string): Value {
    Object([Field("choices", Array([ContentChoice(text)]))])
  }

  function ContentChoice(text: string): Value {
    Object([Field("delta", Object([Field("content", Str(text))]))])
  }

  predicate IsContentLine(env: Env, line: string, text: string) {
    Normalize(line).Data? && env.parse(Normalize(line).payload) == Some(ContentChunk(text))
  }

  lemma ContentChunkCarries(text: string)
    ensures FirstChoice(ContentChunk(text)) == Some(ContentChoice(text)) && ChunkContent(ContentChunk(text)) == text
    ensures !HasToolCalls(ContentChoice(text)) && Piece(ContentChoice(text)) == text
  {
    var content := Object([Field("content", Str(text))]);
    LookupSingle("choices", Array([ContentChoice(text)]), "choices");
    LookupSingle("delta", content, "delta");
    LookupSingle("content", Str(text), "content");
    LookupSingle("content", Str(text), "tool_calls");
  }

  /** A text that opens with a brace is held back whole. */
  lemma BracedTextIsHeld(env: Env, format: Format, line: string, text: string)
    requires IsContentLine(env, line, text) && OpensWithBrace(text)
    ensures var (st, outs) := Process(env, Start(format), line);
      outs == [] && st.suppress && st.acc == text && !st.aborted
  {
    var chunk := ContentChunk(text);
    ContentChunkCarries(text);
    TextIsHeld(Start(format), chunk, text);
    assert "" + text == text;
    assert Process(env, Start(format), line) == (Hold(Capture(Start(format), chunk), text), []);
  }

  lemma TextIsHeld(st: Sse, chunk: Value, text: string)
    requires FirstChoice(chunk).Some? && FirstChoice(chunk).value.Object? && OpensWithBrace(text)
    ensures TakePiece(Capture(st, chunk), chunk, text) == Some((Hold(Capture(st, chunk), text), []))
  {
  }

  lemma OneLine(env: Env, format: Format, line: string)
    ensures ProcessAll(env, Start(format), [line]) == Process(env, Start(format), line)
    ensures Received(env, [line]) == LineContent(env, line)
  {
    var r := Process(env, Start(format), line);
    assert [line][1..] == [] && r.1 + [] == r.1;
    assert LineContent(env, line) + "" == LineContent(env, line);
  }

  /** A lone brace that the parser does not read is text that the client never gets: all it is sent
      is a stop and the end marker. */
  lemma LoneBraceIsDropped(env: Env, format: Format, line: string)
    requires IsContentLine(env, line, "{") && env.parse("{").None?
    ensures Received(env, [line]) == "{" && Forwarded(env, WholeStream(env, format, [line], false)) == ""
    ensures var st := ProcessAll(env, Start(format), [line]).0;
      WholeStream(env, format, [line], false) == [StopEvent(env, st.meta)] + [Done]
  {
    var st := Process(env, Start(format), line).0;
    ContentChunkCarries("{");
    BracedTextIsHeld(env, format, line, "{");
    OneLine(env, format, line);
    LoneBraceIsNoCall(env, st.drawn);
    FinishForwardsNothing(env, st, false);
    DropEnds(env, st);
    assert [] + Finalize(env, st, false).1 == Finalize(env, st, false).1;
  }

  lemma DropEnds(env: Env, st: Sse)
    requires st.suppress && !st.aborted && st.acc != "" && !PreviewPanics(st.acc)
    requires TextCalls(env, st.drawn, st.acc).None?
    ensures Finalize(env, st, false).1 == [StopEvent(env, st.meta)] + [Done]
  {
  }

  lemma LoneBraceIsNoCall(env: Env, drawn: nat)
    requires env.parse("{").None?
    ensures TextCalls(env, drawn, "{").None? && !PreviewPanics("{")
  {
    var t := "{";
    assert Trim(t) == t && t[0..] == t && BraceAt(t) == 0;
    assert O.Extract(t).None? by { assert t[1..] == ""; }
  }

  /** `n` characters of two bytes. */
  function Accents(n: nat): (s: string)
    ensures |s| == n
  {
    if n == 0 then "" else [E_ACUTE] + Accents(n - 1)
  }

  lemma {:induction false} AccentBytes(n: nat, i: nat)
    ensures ByteLen(Accents(n)) == 2 * n && (IsCharBoundary(Accents(n), i) ==> i % 2 == 0)
  {
    if n > 0 {
      assert Accents(n)[1..] == Accents(n - 1);
      AccentBytes(n - 1, if i < 2 then i else i - 2);
    }
  }

  /** A brace and a hundred such characters are 201 bytes, and byte 200 is inside the last one. */
  lemma AccentsPanic(n: nat)
    requires 100 <= n
    ensures PreviewPanics("{" + Accents(n)) && OpensWithBrace("{" + Accents(n))
  {
    var t := "{" + Accents(n);
    assert t[1..] == Accents(n) && t[0] == '{';
    AccentBytes(n, PREVIEW_BYTES - 1);
  }
}
