/** What the transformer leaves alone: messages without text, tool calls of the upstream among them,
    reach the client whole, once and in order, and without a brace everything does. */
module SseForwarding {
  import opened Options
  import opened Text
  import opened Json
  import opened SseTransform
  import opened SseProperties
  import opened ClientReading

  // ---- Messages ----

  /** What a line is to whoever reads it. */
  datatype Message = Raw(line: string) | Parsed(chunk: Value) | Marker

  function LineMessage(env: Env, line: string): Message {
    match Normalize(line)
    case NotData => Raw(line)
    case DoneLine => Marker
    case Data(payload) =>
      var chunk := env.parse(payload);
      if chunk.Some? then Parsed(chunk.value) else Raw(DATA_PREFIX + payload)
  }

  function MessageOf(env: Env, o: Out): Message {
    match o
    case Pass(line) => LineMessage(env, line)
    case Event(chunk) => Parsed(chunk)
    case Done => Marker
  }

  function Messages(env: Env, outs: seq<Out>): seq<Message> {
    if outs == [] then [] else [MessageOf(env, outs[0])] + Messages(env, outs[1..])
  }

  /** The upstream's lines as they are, without a transformer between. */
  function Direct(lines: seq<string>): (r: seq<Out>)
    ensures |r| == |lines| && forall i :: 0 <= i < |r| ==> r[i] == Pass(lines[i])
  {
    if lines == [] then [] else [Pass(lines[0])] + Direct(lines[1..])
  }

  /** A chunk with text that the transformer may hold back or cut. */
  predicate HasText(m: Message) {
    m.Parsed? && ChunkContent(m.chunk) != ""
  }

  function WithoutText(ms: seq<Message>): seq<Message> {
    if ms == [] then [] else (if HasText(ms[0]) then [] else [ms[0]]) + WithoutText(ms[1..])
  }

  lemma MessagesOne(env: Env, o: Out)
    ensures Messages(env, [o]) == [MessageOf(env, o)]
  {
    assert [o][1..] == [];
  }

  lemma {:induction false} MessagesConcat(env: Env, a: seq<Out>, b: seq<Out>)
    ensures Messages(env, a + b) == Messages(env, a) + Messages(env, b)
  {
    if a == [] {
      assert a + b == b;
    } else {
      assert (a + b)[1..] == a[1..] + b;
      MessagesConcat(env, a[1..], b);
    }
  }

  lemma {:induction false} WithoutTextConcat(a: seq<Message>, b: seq<Message>)
    ensures WithoutText(a + b) == WithoutText(a) + WithoutText(b)
  {
    if a == [] {
      assert a + b == b;
    } else {
      assert (a + b)[1..] == a[1..] + b;
      WithoutTextConcat(a[1..], b);
    }
  }

  lemma WithoutTextOne(m: Message)
    ensures WithoutText([m]) == if HasText(m) then [] else [m]
  {
    assert [m][1..] == [];
  }

  // ---- One line ----

  lemma PassedOn(env: Env, payload: string)
    requires IsTrimmed(payload) && payload != DONE_MARK
    ensures var chunk := env.parse(payload);
      LineMessage(env, DATA_PREFIX + payload) == if chunk.Some? then Parsed(chunk.value) else Raw(DATA_PREFIX + payload)
  {
    NormalizeIsStable(payload);
  }

  /** What one line sends on: its own message, or for a chunk with text nothing or its first part. */
  predicate SentOn(env: Env, line: string, outs: seq<Out>) {
    || Messages(env, outs) == [LineMessage(env, line)]
    || (HasText(LineMessage(env, line)) && forall i :: 0 <= i < |outs| ==> HasText(MessageOf(env, outs[i])))
  }

  lemma BraceIsLater(piece: string)
    requires BraceAt(piece) < |piece| && !OpensWithBrace(piece)
    ensures piece[..BraceAt(piece)] != ""
  {
    if BraceAt(piece) == 0 { assert TrimStart(piece) == piece; }
  }

  lemma CutHasText(env: Env, chunk: Value, piece: string)
    requires FirstChoice(chunk).Some? && FirstChoice(chunk).value.Object?
    requires BraceAt(piece) < |piece| && !OpensWithBrace(piece)
    ensures HasText(MessageOf(env, Event(WithContent(chunk, piece[..BraceAt(piece)]))))
  {
    var before := piece[..BraceAt(piece)];
    BraceIsLater(piece);
    CutChunkContent(chunk, before);
    assert MessageOf(env, Event(WithContent(chunk, before))) == Parsed(WithContent(chunk, before));
  }

  lemma PieceSendsOn(env: Env, st: Sse, chunk: Value, piece: string)
    requires FirstChoice(chunk).Some? && FirstChoice(chunk).value.Object?
    ensures var taken := TakePiece(st, chunk, piece);
      taken.Some? ==> forall i :: 0 <= i < |taken.value.1| ==> HasText(MessageOf(env, taken.value.1[i]))
  {
    if !st.suppress && !OpensWithBrace(piece) && BraceAt(piece) < |piece| { CutHasText(env, chunk, piece); }
  }

  lemma ChunkSendsOn(env: Env, st: Sse, line: string, payload: string, chunk: Value)
    requires LineMessage(env, line) == Parsed(chunk) == LineMessage(env, DATA_PREFIX + payload)
    requires FirstChoice(chunk).Some? ==>
      var c := FirstChoice(chunk).value; !(st.suppress && !HasToolCalls(c) && Piece(c) == "" && Stops(c))
    ensures SentOn(env, line, TakeChunk(env, st, DATA_PREFIX + payload, chunk).1)
  {
    MessagesOne(env, Pass(DATA_PREFIX + payload));
    MessagesOne(env, Event(chunk));
    if FirstChoice(chunk).Some? && !HasToolCalls(FirstChoice(chunk).value) {
      var piece := Piece(FirstChoice(chunk).value);
      if piece != "" { PieceSendsOn(env, st, chunk, piece); }
    }
  }

  lemma LineSendsOn(env: Env, st: Sse, line: string)
    requires Runs(st) && !Completes(env, st, line)
    ensures SentOn(env, line, Process(env, st, line).1)
  {
    match Normalize(line)
    case NotData => MessagesOne(env, Pass(line));
    case DoneLine =>
      assert Process(env, st, line).1 == [Done];
      MessagesOne(env, Done);
    case Data(payload) =>
      PayloadIsTrimmed(line);
      PassedOn(env, payload);
      var chunk := env.parse(payload);
      if chunk.None? {
        MessagesOne(env, Pass(DATA_PREFIX + payload));
      } else {
        ChunkSendsOn(env, Capture(st, chunk.value), line, payload, chunk.value);
      }
  }

  lemma {:induction false} OnlyText(env: Env, outs: seq<Out>)
    requires forall i :: 0 <= i < |outs| ==> HasText(MessageOf(env, outs[i]))
    ensures WithoutText(Messages(env, outs)) == []
  {
    if outs != [] { OnlyText(env, outs[1..]); }
  }

  lemma SentOnKeeps(env: Env, line: string, outs: seq<Out>)
    requires SentOn(env, line, outs)
    ensures WithoutText(Messages(env, outs)) == WithoutText([LineMessage(env, line)])
  {
    WithoutTextOne(LineMessage(env, line));
    if Messages(env, outs) != [LineMessage(env, line)] { OnlyText(env, outs); }
  }

  // ---- Streams ----

  lemma DirectFirst(env: Env, lines: seq<string>)
    requires lines != []
    ensures Messages(env, Direct(lines)) == [LineMessage(env, lines[0])] + Messages(env, Direct(lines[1..]))
  {
  }

  /** Up to the first completion every message without text reaches the client whole, once, and in the
      order in which the upstream sent it: lines that are no data, payloads that do not parse, chunks
      without a choice or without text, chunks that carry tool calls, and end markers. */
  lemma {:induction false} OthersPassThrough(env: Env, st: Sse, lines: seq<string>)
    requires Runs(st) && NoCompletion(env, st, lines)
    ensures WithoutText(Messages(env, ProcessAll(env, st, lines).1)) == WithoutText(Messages(env, Direct(lines)))
    decreases |lines|
  {
    if lines != [] {
      var (st1, out1) := Process(env, st, lines[0]);
      var out2 := ProcessAll(env, st1, lines[1..]).1;
      LineIsConserved(env, st, lines[0]);
      LineSendsOn(env, st, lines[0]);
      SentOnKeeps(env, lines[0], out1);
      OthersPassThrough(env, st1, lines[1..]);
      MessagesConcat(env, out1, out2);
      WithoutTextConcat(Messages(env, out1), Messages(env, out2));
      DirectFirst(env, lines);
      WithoutTextConcat([LineMessage(env, lines[0])], Messages(env, Direct(lines[1..])));
    }
  }

  lemma LineWithoutBrace(env: Env, st: Sse, line: string)
    requires Runs(st) && !st.suppress && '{' !in LineContent(env, line)
    ensures var (st', outs) := Process(env, st, line);
      Runs(st') && !st'.suppress && Forwarded(env, outs) == LineContent(env, line)
  {
    LineIsConserved(env, st, line);
    var (st', outs) := Process(env, st, line);
    var content := LineContent(env, line);
    assert "" + content == content;
    HeldHasBrace(st'.acc);
    assert forall c :: c in st'.acc ==> c in content;
    assert Forwarded(env, outs) + "" == Forwarded(env, outs);
  }

  lemma PlainLineSendsOn(env: Env, st: Sse, line: string)
    requires Runs(st) && !st.suppress && '{' !in LineContent(env, line)
    ensures Messages(env, Process(env, st, line).1) == [LineMessage(env, line)]
  {
    LineSendsOn(env, st, line);
    if HasText(LineMessage(env, line)) {
      var payload := Normalize(line).payload;
      var chunk := env.parse(payload).value;
      PayloadIsTrimmed(line);
      PassedOn(env, payload);
      PlainTextPasses(env, Capture(st, chunk), DATA_PREFIX + payload, chunk);
      MessagesOne(env, Pass(DATA_PREFIX + payload));
    }
  }

  lemma PlainTextPasses(env: Env, st: Sse, line: string, chunk: Value)
    requires !st.suppress && ChunkContent(chunk) != "" && '{' !in ChunkContent(chunk)
    ensures TakeChunk(env, st, line, chunk) == (st, [Pass(line)])
  {
    var piece := Piece(FirstChoice(chunk).value);
    HeldHasBrace(piece);
    assert BraceAt(piece) == |piece|;
  }

  /** As long as no text has a brace, the client gets the upstream's messages as they are. */
  lemma {:induction false} WithoutBraceAllPass(env: Env, st: Sse, lines: seq<string>)
    requires Runs(st) && !st.suppress && '{' !in Received(env, lines)
    ensures var (st', outs) := ProcessAll(env, st, lines);
      Runs(st') && !st'.suppress && Messages(env, outs) == Messages(env, Direct(lines))
    decreases |lines|
  {
    if lines != [] {
      var (st1, out1) := Process(env, st, lines[0]);
      PlainLineSendsOn(env, st, lines[0]);
      LineWithoutBrace(env, st, lines[0]);
      WithoutBraceAllPass(env, st1, lines[1..]);
      MessagesConcat(env, out1, ProcessAll(env, st1, lines[1..]).1);
      DirectFirst(env, lines);
    }
  }

  // ---- Tool calls ----

  /** Reading message by message. */
  function ReadMessage(format: Format, seen: seq<Seen>, m: Message): seq<Seen> {
    if !m.Parsed? then seen
    else if format == ResponsesApi then
      if FirstChoice(m.chunk).None? && TextAt(m.chunk, "call_id").Some? then
        seen + [Seen(None, TextAt(m.chunk, "call_id").value, OrEmpty(TextAt(m.chunk, "name")),
                     OrEmpty(TextAt(m.chunk, "arguments")))]
      else seen
    else ReadCalls(seen, CallsIn(m.chunk))
  }

  function ReadMessages(format: Format, seen: seq<Seen>, ms: seq<Message>): seq<Seen>
    decreases |ms|
  {
    if ms == [] then seen else ReadMessages(format, ReadMessage(format, seen, ms[0]), ms[1..])
  }

  lemma {:induction false} CallsAreInMessages(env: Env, format: Format, seen: seq<Seen>, outs: seq<Out>)
    ensures ClientCalls(env, format, seen, outs) == ReadMessages(format, seen, Messages(env, outs))
    decreases |outs|
  {
    if outs != [] {
      CallsAreInMessages(env, format, ReadMessage(format, seen, MessageOf(env, outs[0])), outs[1..]);
      assert Messages(env, outs)[1..] == Messages(env, outs[1..]);
    }
  }

  /** A chunk with text names no call. */
  lemma {:induction false} TextNamesNoCall(format: Format, seen: seq<Seen>, ms: seq<Message>)
    ensures ReadMessages(format, seen, ms) == ReadMessages(format, seen, WithoutText(ms))
    decreases |ms|
  {
    if ms != [] {
      TextNamesNoCall(format, ReadMessage(format, seen, ms[0]), ms[1..]);
      if HasText(ms[0]) {
        assert WithoutText(ms) == WithoutText(ms[1..]);
      } else {
        assert WithoutText(ms)[1..] == WithoutText(ms[1..]);
      }
    }
  }

  /** Up to the first completion the calls that a client reads are exactly those that it would read
      from the upstream itself. */
  lemma CallsPassThrough(env: Env, format: Format, st: Sse, lines: seq<string>, seen: seq<Seen>)
    requires Runs(st) && NoCompletion(env, st, lines)
    ensures ClientCalls(env, format, seen, ProcessAll(env, st, lines).1) == ClientCalls(env, format, seen, Direct(lines))
  {
    var outs := ProcessAll(env, st, lines).1;
    OthersPassThrough(env, st, lines);
    CallsAreInMessages(env, format, seen, outs);
    CallsAreInMessages(env, format, seen, Direct(lines));
    TextNamesNoCall(format, seen, Messages(env, outs));
    TextNamesNoCall(format, seen, Messages(env, Direct(lines)));
  }
}
