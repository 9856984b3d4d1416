/** What the SSE transformer keeps: no content is lost or repeated before the first completion, the tool
    calls found do not depend on how the content was split, and the `[DONE]` marker is never forged. */
module SseProperties {
  import opened Options
  import opened Text
  import opened Json
  import opened ObjectScanner
  import opened SseTransform

  // ---- Normal forms of lines ----

  predicate IsTrimmed(s: string) {
    Trim(s) == s
  }

  lemma MarkerShape()
    ensures |DATA| == 5 && DATA[0] == 'd' && DATA[4] == ':'
    ensures |DONE_MARK| == 6 && DONE_MARK[0] == '[' && DONE_MARK[5] == ']'
    ensures |DATA_PREFIX| == 6 && DATA_PREFIX == DATA + " " && IsTrimmed(DATA) && IsTrimmed(DONE_MARK)
  {
  }

  lemma PayloadIsTrimmed(line: string)
    ensures var n := Normalize(line); n.Data? ==> IsTrimmed(n.payload) && n.payload != DONE_MARK
  {
    var t := Trim(line);
    TrimEnds(line);
    if StartsWith(t, DATA) { TrimEnds(t[|DATA|..]); }
  }

  /** Trimming what is printed for a data line. */
  lemma TrimDataLine(payload: string)
    requires IsTrimmed(payload)
    ensures Trim(DATA_PREFIX + payload) == if payload == "" then DATA else DATA_PREFIX + payload
  {
    var s := DATA_PREFIX + payload;
    MarkerShape();
    if payload == "" {
      assert s == "" + DATA + " ";
      TrimSandwich("", DATA, " ");
    } else {
      TrimEnds(payload);
      TrimKeeps(s);
    }
  }

  lemma TrimAfterSpace(payload: string)
    requires IsTrimmed(payload)
    ensures Trim(" " + payload) == payload
  {
  }

  lemma DataText(payload: string)
    ensures var s := DATA_PREFIX + payload; StartsWith(s, DATA) && s[|DATA|..] == " " + payload && s[0] == 'd'
  {
  }

  /** A normalised line is its own normal form. */
  lemma NormalizeIsStable(payload: string)
    requires IsTrimmed(payload) && payload != DONE_MARK
    ensures Normalize(DATA_PREFIX + payload) == Data(payload)
  {
    MarkerShape();
    TrimDataLine(payload);
    if payload == "" {
      assert DATA[|DATA|..] == "";
    } else {
      DataText(payload);
      TrimAfterSpace(payload);
    }
  }

  // ---- Content ----

  /** The content a chunk carries for the client; tool-call chunks are forwarded whole. */
  function ChunkContent(chunk: Value): string {
    if FirstChoice(chunk).None? || HasToolCalls(FirstChoice(chunk).value) then ""
    else Piece(FirstChoice(chunk).value)
  }

  function LineContent(env: Env, line: string): string {
    var n := Normalize(line);
    if n.Data? && env.parse(n.payload).Some? then ChunkContent(env.parse(n.payload).value) else ""
  }

  function OutContent(env: Env, o: Out): string {
    match o
    case Pass(line) => LineContent(env, line)
    case Event(chunk) => ChunkContent(chunk)
    case Done => ""
  }

  function Forwarded(env: Env, outs: seq<Out>): string {
    if outs == [] then "" else OutContent(env, outs[0]) + Forwarded(env, outs[1..])
  }

  function Received(env: Env, lines: seq<string>): string {
    if lines == [] then "" else LineContent(env, lines[0]) + Received(env, lines[1..])
  }

  lemma ForwardedOne(env: Env, o: Out)
    ensures Forwarded(env, [o]) == OutContent(env, o)
  {
    assert [o][1..] == [];
  }

  lemma {:induction false} ForwardedConcat(env: Env, a: seq<Out>, b: seq<Out>)
    ensures Forwarded(env, a + b) == Forwarded(env, a) + Forwarded(env, b)
  {
    if a == [] {
      assert a + b == b;
    } else {
      assert (a + b)[1..] == a[1..] + b;
      ForwardedConcat(env, a[1..], b);
    }
  }

  lemma LookupSingle(key: string, v: Value, other: string)
    ensures Lookup([Field(key, v)], other) == if key == other then Some(v) else None
  {
  }

  /** The cut chunk carries exactly the text before the brace. */
  lemma CutChunkContent(chunk: Value, before: string)
    requires FirstChoice(chunk).Some? && FirstChoice(chunk).value.Object?
    ensures ChunkContent(WithContent(chunk, before)) == before
  {
    var items := chunk.Get("choices").value.items;
    var delta := Object([Field("content", Str(before))]);
    var choice := items[0].Set("delta", delta);
    LookupReplace(items[0].fields, "delta", delta, "delta");
    LookupReplace(chunk.fields, "choices", Array([choice] + items[1..]), "choices");
    assert FirstChoice(WithContent(chunk, before)) == Some(choice);
    assert Delta(choice) == Some(delta);
    LookupSingle("content", Str(before), "tool_calls");
    LookupSingle("content", Str(before), "content");
  }

  // ---- Conservation ----

  /** Suppression is on exactly when something is held back, and what is held back opens with a
      brace after white space; an aborted stream suppresses nothing more. */
  predicate Holds(st: Sse) {
    if st.aborted then !st.suppress
    else (st.suppress <==> st.acc != "") && (st.acc != "" ==> OpensWithBrace(st.acc))
  }

  predicate Runs(st: Sse) {
    Holds(st) && !st.aborted
  }

  /** The line ends the suppression: upstream is done or says that it stops. */
  predicate Completes(env: Env, st: Sse, line: string) {
    st.suppress &&
    match Normalize(line)
    case NotData => false
    case DoneLine => true
    case Data(payload) =>
      var chunk := env.parse(payload);
      && chunk.Some? && FirstChoice(chunk.value).Some?
      && var choice := FirstChoice(chunk.value).value;
         !HasToolCalls(choice) && Piece(choice) == "" && Stops(choice)
  }

  lemma BraceStaysFirst(acc: string, more: string)
    requires OpensWithBrace(acc)
    ensures TrimStart(acc + more) == TrimStart(acc) + more
  {
    var ws := TrimStartShape(acc);
    var t := TrimStart(acc);
    assert acc + more == ws + (t + more);
    TrimStartSkips(ws, t + more);
    assert (t + more)[0] == t[0];
  }

  lemma HeldHasBrace(acc: string)
    ensures OpensWithBrace(acc) ==> '{' in acc
  {
    var ws := TrimStartShape(acc);
    if OpensWithBrace(acc) { assert acc[|ws|] == '{'; }
  }

  /** The taken piece: held back and sent text together are what was held back and the piece. */
  ghost predicate Conserves(env: Env, st: Sse, content: string, r: (Sse, seq<Out>)) {
    && Runs(r.0)
    && st.acc + content == Forwarded(env, r.1) + r.0.acc
    && '{' !in Forwarded(env, r.1)
    && (st.suppress ==> Forwarded(env, r.1) == "")
  }

  lemma PieceIsHeld(env: Env, st: Sse, piece: string)
    requires Runs(st) && piece != ""
    requires st.suppress || OpensWithBrace(piece)
    ensures Conserves(env, st, piece, (Hold(st, piece), []))
  {
    if st.suppress {
      BraceStaysFirst(st.acc, piece);
    } else {
      assert st.acc + piece == piece;
    }
    assert "" + (st.acc + piece) == st.acc + piece;
  }

  lemma PieceIsCut(env: Env, st: Sse, chunk: Value, before: string, held: string)
    requires Runs(st) && !st.suppress && FirstChoice(chunk).Some? && FirstChoice(chunk).value.Object?
    requires '{' !in before && held != "" && held[0] == '{'
    ensures Conserves(env, st, before + held, (Hold(st, held), [Event(WithContent(chunk, before))]))
  {
    CutChunkContent(chunk, before);
    ForwardedOne(env, Event(WithContent(chunk, before)));
    assert st.acc + held == held && st.acc + (before + held) == before + held;
    assert TrimStart(held) == held;
  }

  /** A content piece is forwarded, held back, or cut in two at its first brace. */
  lemma PieceIsSplit(env: Env, st: Sse, chunk: Value, piece: string)
    requires Runs(st) && FirstChoice(chunk).Some? && FirstChoice(chunk).value.Object? && piece != ""
    ensures var taken := TakePiece(st, chunk, piece);
      if taken.Some? then Conserves(env, st, piece, taken.value) else !st.suppress && '{' !in piece
  {
    if st.suppress || OpensWithBrace(piece) {
      PieceIsHeld(env, st, piece);
    } else if BraceAt(piece) < |piece| {
      var before, held := piece[..BraceAt(piece)], piece[BraceAt(piece)..];
      assert before + held == piece;
      PieceIsCut(env, st, chunk, before, held);
      assert TakePiece(st, chunk, piece) == Some((Hold(st, held), [Event(WithContent(chunk, before))]));
    }
  }

  /** One line, up to the first completion: what was held back, then the content of the line, is
      what is forwarded, then what is held back now. Nothing forwarded contains a brace. */
  lemma LineIsConserved(env: Env, st: Sse, line: string)
    requires Runs(st) && !Completes(env, st, line)
    ensures Conserves(env, st, LineContent(env, line), Process(env, st, line))
  {
    match Normalize(line)
    case NotData => PassConserves(env, st, line);
    case DoneLine =>
      assert Process(env, st, line).1 == [Done];
      ForwardedOne(env, Done);
      assert st.acc + "" == st.acc == "" + st.acc;
    case Data(payload) => DataIsConserved(env, st, line, payload);
  }

  lemma DataIsConserved(env: Env, st: Sse, line: string, payload: string)
    requires Runs(st) && !Completes(env, st, line) && Normalize(line) == Data(payload)
    ensures Conserves(env, st, LineContent(env, line), Process(env, st, line))
  {
    PayloadIsTrimmed(line);
    NormalizeIsStable(payload);
    var chunk := env.parse(payload);
    if chunk.None? {
      PassConserves(env, st, DATA_PREFIX + payload);
    } else if FirstChoice(chunk.value).None? {
      PassConserves(env, Capture(st, chunk.value), DATA_PREFIX + payload);
    } else {
      ChunkIsConserved(env, Capture(st, chunk.value), payload, chunk.value);
    }
  }

  lemma PassConserves(env: Env, st: Sse, line: string)
    requires Runs(st) && LineContent(env, line) == ""
    ensures Conserves(env, st, "", (st, [Pass(line)]))
  {
    ForwardedOne(env, Pass(line));
    assert st.acc + "" == st.acc == "" + st.acc;
  }

  lemma ChunkIsConserved(env: Env, st: Sse, payload: string, chunk: Value)
    requires Runs(st) && FirstChoice(chunk).Some?
    requires Normalize(DATA_PREFIX + payload) == Data(payload) && env.parse(payload) == Some(chunk)
    requires var c := FirstChoice(chunk).value; !(st.suppress && !HasToolCalls(c) && Piece(c) == "" && Stops(c))
    ensures Conserves(env, st, ChunkContent(chunk), TakeChunk(env, st, DATA_PREFIX + payload, chunk))
  {
    var choice := FirstChoice(chunk).value;
    var passed := (st, [Pass(DATA_PREFIX + payload)]);
    ForwardedOne(env, Event(chunk));
    ForwardedOne(env, Pass(DATA_PREFIX + payload));
    assert st.acc + "" == st.acc == "" + st.acc;
    if !HasToolCalls(choice) && Piece(choice) != "" {
      PieceIsSplit(env, st, chunk, Piece(choice));
      if TakePiece(st, chunk, Piece(choice)).None? {
        assert st.acc + Piece(choice) == Piece(choice) + st.acc;
        assert Conserves(env, st, Piece(choice), passed);
      }
    }
  }

  /** No completion happens anywhere in the lines. */
  predicate NoCompletion(env: Env, st: Sse, lines: seq<string>)
    decreases |lines|
  {
    lines == [] || (!Completes(env, st, lines[0]) && NoCompletion(env, Process(env, st, lines[0]).0, lines[1..]))
  }

  /** Up to the first completion, forwarded text followed by held-back text is all the content
      received, and the forwarded text has no brace. */
  lemma {:induction false} ContentIsConserved(env: Env, st: Sse, lines: seq<string>)
    requires Runs(st) && NoCompletion(env, st, lines)
    ensures Conserves(env, st, Received(env, lines), ProcessAll(env, st, lines))
    decreases |lines|
  {
    if lines == [] {
      assert st.acc + "" == "" + st.acc;
    } else {
      var (st1, out1) := Process(env, st, lines[0]);
      var (st2, out2) := ProcessAll(env, st1, lines[1..]);
      LineIsConserved(env, st, lines[0]);
      ContentIsConserved(env, st1, lines[1..]);
      ForwardedConcat(env, out1, out2);
      Regroup(st.acc, LineContent(env, lines[0]), Received(env, lines[1..]),
              Forwarded(env, out1), st1.acc, Forwarded(env, out2), st2.acc);
    }
  }

  lemma Regroup(acc: string, x: string, rest: string, f1: string, acc1: string, f2: string, acc2: string)
    requires acc + x == f1 + acc1 && acc1 + rest == f2 + acc2
    ensures acc + (x + rest) == (f1 + f2) + acc2
  {
    assert acc + (x + rest) == (acc + x) + rest;
    assert (f1 + acc1) + rest == f1 + (acc1 + rest);
  }

  // ---- The decision does not depend on the split ----

  /** What is held back of content `c`: nothing without a brace; otherwise the text from the first
      brace on, and perhaps white space before it. */
  lemma HeldBackText(f: string, acc: string, c: string)
    requires f + acc == c && '{' !in f
    requires acc != "" ==> TrimStart(acc) != "" && TrimStart(acc)[0] == '{'
    ensures acc == "" <==> BraceAt(c) == |c|
    ensures acc != "" ==> TrimStart(acc) == c[BraceAt(c)..]
  {
    if acc == "" {
      assert f + acc == f;
    } else {
      var t := TrimStart(acc);
      var ws := TrimStartShape(acc);
      assert c == (f + ws) + t;
      assert '{' !in f + ws by { assert '{' !in ws; }
      FirstBraceAfter(f + ws, t);
    }
  }

  lemma TrimOfTrimStart(s: string)
    ensures Trim(TrimStart(s)) == Trim(s)
  {
  }

  /** Two streams with the same content, split and interleaved with other lines in different ways,
      hold back the same text up to leading white space, and the same tool calls are found in it. */
  lemma DecisionIgnoresSplit(env: Env, st1: Sse, st2: Sse, lines1: seq<string>, lines2: seq<string>, drawn: nat)
    requires Runs(st1) && !st1.suppress && NoCompletion(env, st1, lines1)
    requires Runs(st2) && !st2.suppress && NoCompletion(env, st2, lines2)
    requires Received(env, lines1) == Received(env, lines2)
    ensures var a, b := ProcessAll(env, st1, lines1).0, ProcessAll(env, st2, lines2).0;
      && (a.suppress <==> b.suppress) && Trim(a.acc) == Trim(b.acc)
      && TextCalls(env, drawn, a.acc) == TextCalls(env, drawn, b.acc)
  {
    var (a, out1) := ProcessAll(env, st1, lines1);
    var (b, out2) := ProcessAll(env, st2, lines2);
    var c := Received(env, lines1);
    ContentIsConserved(env, st1, lines1);
    ContentIsConserved(env, st2, lines2);
    assert "" + c == c;
    HeldBackText(Forwarded(env, out1), a.acc, c);
    HeldBackText(Forwarded(env, out2), b.acc, c);
    TrimOfTrimStart(a.acc);
    TrimOfTrimStart(b.acc);
  }

  // ---- Completion ----

  /** Completion ends the suppression and forgets the held-back text, unless it panics. */
  lemma CompletionClears(env: Env, st: Sse)
    ensures var st' := Completion(env, st).0;
      Holds(st') && !st'.suppress && (!st.aborted ==> (st'.aborted <==> PreviewPanics(st.acc)))
    ensures !PreviewPanics(st.acc) ==> Completion(env, st).0.acc == ""
  {
  }

  /** The line completes text that the preview cannot be cut from. */
  predicate PanicsAt(env: Env, st: Sse, line: string) {
    !st.aborted && Completes(env, st, line) && PreviewPanics(st.acc)
  }

  lemma CompletingLine(env: Env, st: Sse, line: string)
    requires Runs(st) && Completes(env, st, line)
    ensures var st1 := if Normalize(line).Data? then Capture(st, env.parse(Normalize(line).payload).value) else st;
      var (st', outs) := Completion(env, st1);
      Process(env, st, line) == (st', if Normalize(line).DoneLine? && !st'.aborted then outs + [Done] else outs)
    ensures Normalize(line) != NotData
  {
  }

  /** The stream stays orderly through every line, and aborts exactly at a completion that panics. */
  lemma LineKeepsHolds(env: Env, st: Sse, line: string)
    requires Holds(st)
    ensures Holds(Process(env, st, line).0)
    ensures Process(env, st, line).0.aborted <==> st.aborted || PanicsAt(env, st, line)
  {
    if !st.aborted {
      if Completes(env, st, line) {
        CompletingLine(env, st, line);
        CompletionClears(env, st);
        if Normalize(line).Data? { CompletionClears(env, Capture(st, env.parse(Normalize(line).payload).value)); }
      } else {
        LineIsConserved(env, st, line);
      }
    }
  }

  /** A tool call printed by the model is found whatever prose comes before it and whatever text
      follows it, provided the parser reads the object back and does not take the longer texts for
      tool calls themselves. */
  lemma ToolCallIsFound(env: Env, drawn: nat, prose: string, v: Value, after: string)
    requires v.Object? && NameOf(v).Some? && env.parse(Serialize(v)) == Some(v)
    requires '{' !in prose && (prose != "" ==> prose[0] != FENCE[0])
    requires IsTrimmed(prose + (Serialize(v) + after))
    requires prose != "" ==> ParsedCalls(env, drawn, prose + (Serialize(v) + after)).None?
    requires after != "" ==> ParsedCalls(env, drawn, Serialize(v) + after).None?
    ensures TextCalls(env, drawn, prose + (Serialize(v) + after)) == Some([Entry(env, drawn, 0, NameOf(v).value, v)])
  {
    var body := Serialize(v) + after;
    var t := prose + body;
    ParsedObject(env, drawn, v, Serialize(v));
    ObjectIsFound(env, drawn, v, after);
    FirstBraceAfter(prose, body);
    if prose == "" {
      assert t == body;
    } else {
      TrimEnds(t);
      assert t[0] == prose[0];
      NothingInProse(env, drawn, t);
    }
  }

  /** Text that does not open with a brace yields nothing but what the parser makes of all of it. */
  lemma NothingInProse(env: Env, drawn: nat, t: string)
    requires t != "" && t[0] != '{' && !IsWhitespace(t[0]) && ParsedCalls(env, drawn, t).None?
    ensures JsonCalls(env, drawn, t).None?
  {
    assert TrimStart(t) == t;
  }

  lemma ObjectIsFound(env: Env, drawn: nat, v: Value, after: string)
    requires v.Object? && ParsedCalls(env, drawn, Serialize(v)).Some?
    requires ParsedCalls(env, drawn, Serialize(v) + after).None? || after == ""
    ensures JsonCalls(env, drawn, Serialize(v) + after) == ParsedCalls(env, drawn, Serialize(v))
    ensures (Serialize(v) + after)[0] == '{'
  {
    var text := Serialize(v);
    ObjectsDelimitThemselves("", v, after);
    assert "" + text + after == text + after;
    if after == "" { assert text + after == text; }
    assert text[0] == '{';
  }

  lemma ParsedObject(env: Env, drawn: nat, v: Value, text: string)
    requires v.Object? && NameOf(v).Some? && env.parse(text) == Some(v)
    ensures ParsedCalls(env, drawn, text) == Some([Entry(env, drawn, 0, NameOf(v).value, v)])
  {
  }

  lemma {:induction false} FirstBraceAfter(prose: string, body: string)
    requires '{' !in prose && body != "" && body[0] == '{'
    ensures BraceAt(prose + body) == |prose| && (prose + body)[|prose|..] == body
  {
    if prose == "" {
      assert prose + body == body;
    } else {
      assert (prose + body)[1..] == prose[1..] + body;
      FirstBraceAfter(prose[1..], body);
    }
  }

  // ---- The end marker ----

  predicate IsDoneText(line: string) {
    Trim(line) == DONE_TEXT
  }

  lemma OnlyDoneLinesAreDoneText(line: string)
    requires IsDoneText(line)
    ensures Normalize(line) == DoneLine
  {
    assert DONE_TEXT[|DATA|..] == " [DONE]";
    TrimAfterSpace(DONE_MARK);
  }

  /** What a line or a chunk is turned into reads as the end marker only where it is the marker. */
  predicate Honest(o: Out) {
    IsDoneText(Render(o)) <==> o.Done?
  }

  lemma DataLineIsNotDone(payload: string)
    requires IsTrimmed(payload) && payload != DONE_MARK
    ensures !IsDoneText(DATA_PREFIX + payload)
  {
    if IsDoneText(DATA_PREFIX + payload) {
      OnlyDoneLinesAreDoneText(DATA_PREFIX + payload);
      NormalizeIsStable(payload);
    }
  }

  lemma ObjectTextIsData(v: Value)
    requires v.Object?
    ensures var text := Serialize(v); IsTrimmed(text) && text != DONE_MARK && text[0] == '{'
  {
  }

  lemma DoneIsHonest()
    ensures Honest(Done)
  {
  }

  predicate AllHonest(outs: seq<Out>) {
    forall i :: 0 <= i < |outs| ==> Honest(outs[i])
  }

  predicate AllEvents(outs: seq<Out>) {
    forall i :: 0 <= i < |outs| ==> outs[i].Event? && outs[i].chunk.Object?
  }

  lemma EventsAreHonest(outs: seq<Out>)
    requires AllEvents(outs)
    ensures AllHonest(outs)
  {
  }

  lemma EventsConcat(a: seq<Out>, b: seq<Out>)
    requires AllEvents(a) && AllEvents(b)
    ensures AllEvents(a + b)
  {
  }

  lemma {:induction false} CallEventsAreEvents(env: Env, meta: Meta, calls: seq<ToolCall>)
    ensures AllEvents(CallEvents(env, meta, calls))
  {
    if calls != [] {
      CallEventsAreEvents(env, meta, calls[1..]);
      EventsConcat(OneCall(env, meta, calls[0]), CallEvents(env, meta, calls[1..]));
    }
  }

  lemma {:induction false} ResponseEventsAreEvents(calls: seq<ToolCall>, position: nat)
    ensures AllEvents(ResponseCallEvents(calls, position))
  {
    if calls != [] {
      ResponseEventsAreEvents(calls[1..], position + 1);
      EventsConcat([AddedEvent(calls[0], position), ArgumentsEvent(calls[0])], ResponseCallEvents(calls[1..], position + 1));
    }
  }

  lemma ChatEventsAreEvents(env: Env, meta: Meta, calls: seq<ToolCall>)
    ensures AllEvents(ChatEvents(env, meta, calls))
  {
    CallEventsAreEvents(env, meta, calls);
    var role := [ChoiceEvent(env, meta, Object([Field("role", Str("assistant"))]), Null)];
    EventsConcat(role, CallEvents(env, meta, calls));
    EventsConcat(role + CallEvents(env, meta, calls), [ChoiceEvent(env, meta, Object([]), Str("tool_calls"))]);
  }

  lemma CallOutsAreEvents(env: Env, format: Format, meta: Meta, id: string, calls: seq<ToolCall>)
    ensures AllEvents(CallOuts(env, format, meta, id, calls))
  {
    ResponseEventsAreEvents(calls, 0);
    ChatEventsAreEvents(env, meta, calls);
  }

  lemma AnswerSendsEvents(env: Env, format: Format, meta: Meta, drawn: nat, calls: Option<seq<ToolCall>>)
    ensures AllEvents(AnswerOuts(env, format, meta, drawn, calls))
  {
    if calls.Some? { CallOutsAreEvents(env, format, meta, ResponseId(env, drawn, calls.value), calls.value); }
  }

  lemma CompletionSendsEvents(env: Env, st: Sse)
    ensures AllEvents(CompletionOuts(env, st))
  {
    AnswerSendsEvents(env, st.format, st.meta, st.drawn, TextCalls(env, st.drawn, st.acc));
  }

  /** Every line sent to the client reads as `data: [DONE]` only if it is the marker, and there is
      one marker for a done line of the upstream, unless the stream is aborted, and none for any other. */
  lemma MarkersMatch(env: Env, st: Sse, line: string)
    ensures var (st', outs) := Process(env, st, line);
      AllHonest(outs) && Markers(outs) == if Normalize(line).DoneLine? && !st'.aborted then 1 else 0
  {
    if !st.aborted {
      match Normalize(line)
      case NotData =>
        if IsDoneText(line) { OnlyDoneLinesAreDoneText(line); }
        MarkersOne(Pass(line));
      case DoneLine => DoneMarkers(env, st);
      case Data(payload) =>
        PayloadIsTrimmed(line);
        DataLineIsNotDone(payload);
        MarkersOne(Pass(DATA_PREFIX + payload));
        var chunk := env.parse(payload);
        if chunk.Some? { ChunkMarkers(env, Capture(st, chunk.value), payload, chunk.value); }
    }
  }

  lemma FlushSendsNoMarker(env: Env, st: Sse)
    ensures var outs := FlushEnd(env, st).1;
      Markers(outs) == 0 && AllHonest(outs) && forall i :: 0 <= i < |outs| ==> !IsDoneText(Render(outs[i]))
  {
    CompletionSendsEvents(env, st);
    var outs := FlushEnd(env, st).1;
    EventsAreHonest(outs);
    NoMarkers(outs);
  }

  lemma DoneMarkers(env: Env, st: Sse)
    ensures var (st', outs) := ProcessDone(env, st);
      AllHonest(outs) && Markers(outs) == if st'.aborted then 0 else 1
  {
    var flushed := FlushEnd(env, st).1;
    FlushSendsNoMarker(env, st);
    MarkersConcat(flushed, [Done]);
    MarkersOne(Done);
    DoneIsHonest();
  }

  lemma ChunkMarkers(env: Env, st: Sse, payload: string, chunk: Value)
    requires !IsDoneText(DATA_PREFIX + payload)
    ensures var outs := TakeChunk(env, st, DATA_PREFIX + payload, chunk).1;
      AllHonest(outs) && Markers(outs) == 0
  {
    var outs, passed := TakeChunk(env, st, DATA_PREFIX + payload, chunk).1, [Pass(DATA_PREFIX + payload)];
    ChunkOuts(env, st, DATA_PREFIX + payload, chunk);
    if outs == passed {
      assert Honest(passed[0]);
    } else {
      EventsAreHonest(outs);
    }
    NoMarkers(outs);
  }

  lemma ChunkOuts(env: Env, st: Sse, line: string, chunk: Value)
    ensures var outs := TakeChunk(env, st, line, chunk).1; outs == [Pass(line)] || AllEvents(outs)
  {
    if FirstChoice(chunk).Some? && !HasToolCalls(FirstChoice(chunk).value) {
      var choice := FirstChoice(chunk).value;
      if Piece(choice) != "" { PieceOuts(st, chunk, Piece(choice)); }
      if Stops(choice) && st.suppress { CompletionSendsEvents(env, st); }
    }
  }

  lemma PieceOuts(st: Sse, chunk: Value, piece: string)
    requires FirstChoice(chunk).Some? && FirstChoice(chunk).value.Object?
    ensures var taken := TakePiece(st, chunk, piece); taken.Some? ==> AllEvents(taken.value.1)
  {
  }

  function Markers(outs: seq<Out>): nat {
    if outs == [] then 0 else (if outs[0].Done? then 1 else 0) + Markers(outs[1..])
  }

  lemma {:induction false} MarkersConcat(a: seq<Out>, b: seq<Out>)
    ensures Markers(a + b) == Markers(a) + Markers(b)
  {
    if a == [] {
      assert a + b == b;
    } else {
      assert (a + b)[1..] == a[1..] + b;
      MarkersConcat(a[1..], b);
    }
  }

  lemma {:induction false} NoMarkers(outs: seq<Out>)
    requires forall i :: 0 <= i < |outs| ==> !outs[i].Done?
    ensures Markers(outs) == 0
  {
    if outs != [] { NoMarkers(outs[1..]); }
  }

  lemma MarkersOne(o: Out)
    ensures Markers([o]) == if o.Done? then 1 else 0
  {
  }
}
