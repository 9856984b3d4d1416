/** What the made-up events say: whose stream they belong to, in which order they come, and how each
    interface ends. */
module AnswerEvents {
  import opened Options
  import opened Text
  import opened Json
  import opened SseTransform
  import opened SseProperties
  import opened ClientReading

  // ---- Metadata by history ----

  /** The chunks that the lines bring. */
  function Chunks(env: Env, lines: seq<string>): seq<Value> {
    if lines == [] then [] else Brought(env, lines[0]) + Chunks(env, lines[1..])
  }

  /** The index of the first chunk that has an identifier, or the length. */
  function FirstNamed(chunks: seq<Value>): (k: nat)
    ensures k <= |chunks| && (k < |chunks| ==> TextAt(chunks[k], "id").Some?)
    ensures forall j :: 0 <= j < k ==> TextAt(chunks[j], "id").None?
    decreases |chunks|
  {
    if chunks == [] then 0 else
      var n := |chunks| - 1;
      var k := FirstNamed(chunks[..n]);
      if k < n || TextAt(chunks[n], "id").Some? then k else n + 1
  }

  /** The chunks up to and with that one. */
  function UpToNamed(chunks: seq<Value>): seq<Value>
    decreases |chunks|
  {
    if chunks == [] then [] else
      var front := chunks[..|chunks| - 1];
      if FirstNamed(front) < |front| then UpToNamed(front) else chunks
  }

  function LatestModel(chunks: seq<Value>): Option<string>
    decreases |chunks|
  {
    if chunks == [] then None else
      var model := TextAt(chunks[|chunks| - 1], "model");
      if model.Some? then model else LatestModel(chunks[..|chunks| - 1])
  }

  /** A time is a number of seconds that fits in 64 bits. */
  predicate IsTime(v: Option<Value>) {
    v.Some? && v.value.Number? && DigitsValue(v.value.digits).Some?
    && DigitsValue(v.value.digits).value < 0x1_0000_0000_0000_0000
  }

  function LatestTime(chunks: seq<Value>): Option<NumberText>
    decreases |chunks|
  {
    if chunks == [] then None else
      var created := chunks[|chunks| - 1].Get("created");
      if IsTime(created) then Some(created.value.digits) else LatestTime(chunks[..|chunks| - 1])
  }

  /** The identifier is that of the first chunk that has one; model and time are the last ones seen until
      then. */
  predicate IsMeta(chunks: seq<Value>, meta: Meta) {
    var k := FirstNamed(chunks);
    && meta.id == (if k < |chunks| then TextAt(chunks[k], "id") else None)
    && meta.model == LatestModel(UpToNamed(chunks)) && meta.created == LatestTime(UpToNamed(chunks))
  }

  lemma FirstNamedSnoc(chunks: seq<Value>, c: Value)
    ensures FirstNamed(chunks + [c]) ==
      if FirstNamed(chunks) < |chunks| || TextAt(c, "id").Some? then FirstNamed(chunks) else |chunks| + 1
  {
    assert (chunks + [c])[..|chunks|] == chunks;
  }

  lemma LatestSnoc(chunks: seq<Value>, c: Value)
    ensures LatestModel(chunks + [c]) == if TextAt(c, "model").Some? then TextAt(c, "model") else LatestModel(chunks)
    ensures LatestTime(chunks + [c]) ==
      if IsTime(c.Get("created")) then Some(c.Get("created").value.digits) else LatestTime(chunks)
  {
    assert (chunks + [c])[..|chunks|] == chunks;
  }

  lemma UpToNamedSnoc(chunks: seq<Value>, c: Value)
    ensures UpToNamed(chunks + [c]) == if FirstNamed(chunks) < |chunks| then UpToNamed(chunks) else chunks + [c]
  {
    assert (chunks + [c])[..|chunks|] == chunks;
  }

  lemma {:induction false} NoneNamed(chunks: seq<Value>)
    requires FirstNamed(chunks) == |chunks|
    ensures UpToNamed(chunks) == chunks
    decreases |chunks|
  {
  }

  lemma CaptureTakes(st: Sse, c: Value)
    requires st.meta.id.None?
    ensures Capture(st, c).meta == Meta(TextAt(c, "id"),
      if TextAt(c, "model").Some? then TextAt(c, "model") else st.meta.model,
      if IsTime(c.Get("created")) then Some(c.Get("created").value.digits) else st.meta.created)
  {
  }

  lemma CaptureExtends(st: Sse, chunks: seq<Value>, c: Value)
    requires IsMeta(chunks, st.meta)
    ensures IsMeta(chunks + [c], Capture(st, c).meta)
  {
    FirstNamedSnoc(chunks, c);
    UpToNamedSnoc(chunks, c);
    var k := FirstNamed(chunks);
    if k < |chunks| {
      assert Capture(st, c) == st && (chunks + [c])[k] == chunks[k];
    } else {
      NoneNamed(chunks);
      LatestSnoc(chunks, c);
      CaptureTakes(st, c);
    }
  }

  lemma CompletionKeepsMeta(env: Env, st: Sse)
    ensures Completion(env, st).0.meta == st.meta
  {
  }

  lemma LineKeepsMeta(env: Env, st: Sse, line: string)
    requires !Process(env, st, line).0.aborted
    ensures !st.aborted
    ensures Process(env, st, line).0.meta ==
      if LineChunk(env, line).Some? then Capture(st, LineChunk(env, line).value).meta else st.meta
  {
    CompletionKeepsMeta(env, st);
    if LineChunk(env, line).Some? {
      var chunk := LineChunk(env, line).value;
      CompletionKeepsMeta(env, Capture(st, chunk));
      ChunkKeepsMeta(env, Capture(st, chunk), DATA_PREFIX + Normalize(line).payload, chunk);
    }
  }

  lemma ChunkKeepsMeta(env: Env, st: Sse, line: string, chunk: Value)
    ensures TakeChunk(env, st, line, chunk).0.meta == st.meta
  {
    CompletionKeepsMeta(env, st);
  }

  lemma {:induction false} AbortedStays(env: Env, st: Sse, lines: seq<string>)
    requires st.aborted
    ensures ProcessAll(env, st, lines).0.aborted
    decreases |lines|
  {
    if lines != [] { AbortedStays(env, Process(env, st, lines[0]).0, lines[1..]); }
  }

  /** What one line adds to the chunks. */
  function Brought(env: Env, line: string): seq<Value> {
    if LineChunk(env, line).Some? then [LineChunk(env, line).value] else []
  }

  lemma MetaStep(env: Env, st: Sse, seen: seq<Value>, line: string)
    requires IsMeta(seen, st.meta) && !Process(env, st, line).0.aborted
    ensures IsMeta(seen + Brought(env, line), Process(env, st, line).0.meta)
  {
    LineKeepsMeta(env, st, line);
    if LineChunk(env, line).Some? {
      CaptureExtends(st, seen, LineChunk(env, line).value);
    } else {
      assert seen + [] == seen;
    }
  }

  /** The state after the first line of a stream that does not abort. */
  lemma MetaAdvances(env: Env, st: Sse, seen: seq<Value>, lines: seq<string>) returns (st1: Sse)
    requires IsMeta(seen, st.meta) && lines != [] && !ProcessAll(env, st, lines).0.aborted
    ensures ProcessAll(env, st, lines).0 == ProcessAll(env, st1, lines[1..]).0
    ensures IsMeta(seen + Brought(env, lines[0]), st1.meta)
  {
    st1 := Process(env, st, lines[0]).0;
    if st1.aborted { AbortedStays(env, st1, lines[1..]); }
    MetaStep(env, st, seen, lines[0]);
  }

  lemma ChunksFirst(env: Env, seen: seq<Value>, lines: seq<string>)
    requires lines != []
    ensures (seen + Brought(env, lines[0])) + Chunks(env, lines[1..]) == seen + Chunks(env, lines)
  {
  }

  lemma {:induction false} MetaFrom(env: Env, st: Sse, seen: seq<Value>, lines: seq<string>)
    requires IsMeta(seen, st.meta) && !ProcessAll(env, st, lines).0.aborted
    ensures IsMeta(seen + Chunks(env, lines), ProcessAll(env, st, lines).0.meta)
    decreases |lines|
  {
    if lines == [] {
      assert seen + [] == seen;
    } else {
      var st1 := MetaAdvances(env, st, seen, lines);
      MetaFrom(env, st1, seen + Brought(env, lines[0]), lines[1..]);
      ChunksFirst(env, seen, lines);
    }
  }

  /** Over any stream that did not abort, completions included, the metadata are read off its chunks. */
  lemma MetaByHistory(env: Env, format: Format, lines: seq<string>)
    requires !ProcessAll(env, Start(format), lines).0.aborted
    ensures IsMeta(Chunks(env, lines), ProcessAll(env, Start(format), lines).0.meta)
  {
    MetaFrom(env, Start(format), [], lines);
    assert [] + Chunks(env, lines) == Chunks(env, lines);
  }

  // ---- The envelope ----

  function Or(a: Option<string>, b: string): string {
    if a.Some? then a.value else b
  }

  /** A chunk of this stream with one choice, the first. */
  predicate Enveloped(env: Env, meta: Meta, o: Out) {
    && o.Event?
    && o.chunk.Get("id") == Some(Str(Or(meta.id, "chatcmpl-mtrxAI")))
    && o.chunk.Get("object") == Some(Str("chat.completion.chunk"))
    && o.chunk.Get("created") == Some(Number(if meta.created.Some? then meta.created.value else env.now))
    && o.chunk.Get("model") == Some(Str(Or(meta.model, "unknown")))
    && FirstChoice(o.chunk).Some? && o.chunk.Get("choices") == Some(Array([FirstChoice(o.chunk).value]))
    && FirstChoice(o.chunk).value.Get("index") == Some(Number("0"))
  }

  predicate AllEnveloped(env: Env, meta: Meta, outs: seq<Out>) {
    forall i :: 0 <= i < |outs| ==> Enveloped(env, meta, outs[i])
  }

  /** The delta and the finish reason of an event. */
  predicate Says(o: Out, delta: Value, finish: Value) {
    && o.Event? && FirstChoice(o.chunk).Some?
    && Delta(FirstChoice(o.chunk).value) == Some(delta)
    && FirstChoice(o.chunk).value.Get("finish_reason") == Some(finish)
  }

  lemma EnvelopeNames(env: Env, meta: Meta, choice: Value)
    ensures var chunk := StreamChunk(env, meta, choice);
      && chunk.Get("id") == Some(Str(Or(meta.id, "chatcmpl-mtrxAI")))
      && chunk.Get("object") == Some(Str("chat.completion.chunk"))
      && chunk.Get("model") == Some(Str(Or(meta.model, "unknown")))
  {
    var fs := StreamChunk(env, meta, choice).fields;
    LookupAt(fs, 0, "id");
    LookupAt(fs, 1, "object");
    LookupAt(fs, 3, "model");
  }

  lemma EnvelopeHolds(env: Env, meta: Meta, choice: Value)
    requires choice.Get("index") == Some(Number("0"))
    ensures Enveloped(env, meta, Event(StreamChunk(env, meta, choice)))
    ensures FirstChoice(StreamChunk(env, meta, choice)) == Some(choice)
  {
    var fs := StreamChunk(env, meta, choice).fields;
    EnvelopeNames(env, meta, choice);
    LookupAt(fs, 2, "created");
    ChoicesOf(env, meta, choice);
  }

  lemma ChoiceSays(env: Env, meta: Meta, delta: Value, finish: Value)
    ensures Enveloped(env, meta, ChoiceEvent(env, meta, delta, finish))
    ensures Says(ChoiceEvent(env, meta, delta, finish), delta, finish)
  {
    var choice := Object([Field("index", Number("0")), Field("delta", delta), Field("finish_reason", finish)]);
    LookupAt(choice.fields, 0, "index");
    LookupAt(choice.fields, 1, "delta");
    LookupAt(choice.fields, 2, "finish_reason");
    EnvelopeHolds(env, meta, choice);
  }

  /** Every increment names no finish and carries one call entry of type `function`, or only arguments. */
  predicate IsIncrement(o: Out) {
    && o.Event? && FirstChoice(o.chunk).Some? && |CallsIn(o.chunk)| == 1
    && FirstChoice(o.chunk).value.Get("finish_reason") == Some(Null)
    && var call := CallsIn(o.chunk)[0];
       TextAt(call, "id").Some? <==> TextAt(call, "type") == Some("function")
  }

  predicate AllIncrements(outs: seq<Out>) {
    forall i :: 0 <= i < |outs| ==> IsIncrement(outs[i])
  }

  lemma FinishIs(env: Env, meta: Meta, delta: Value, finish: Value)
    ensures var chunk := ChoiceEvent(env, meta, delta, finish).chunk;
      FirstChoice(chunk).Some? && FirstChoice(chunk).value.Get("finish_reason") == Some(finish)
  {
    var choice := Object([Field("index", Number("0")), Field("delta", delta), Field("finish_reason", finish)]);
    LookupAt(choice.fields, 2, "finish_reason");
    ChoicesOf(env, meta, choice);
  }

  lemma CallIsIncrement(env: Env, meta: Meta, fields: seq<Field>)
    requires TextAt(Object(fields), "id").Some? <==> TextAt(Object(fields), "type") == Some("function")
    ensures IsIncrement(ChoiceEvent(env, meta, CallDelta(fields), Null))
  {
    FinishIs(env, meta, CallDelta(fields), Null);
    CallDeltaIn(env, meta, Object(fields), fields);
  }

  lemma OpeningIsIncrement(env: Env, meta: Meta, c: ToolCall)
    ensures IsIncrement(ChoiceEvent(env, meta, OpeningDelta(c), Null))
  {
    LookupAt(OpeningFields(c), 1, "id");
    LookupAt(OpeningFields(c), 2, "type");
    CallIsIncrement(env, meta, OpeningFields(c));
  }

  lemma ArgumentsAreIncrement(env: Env, meta: Meta, c: ToolCall)
    ensures IsIncrement(ChoiceEvent(env, meta, ArgumentsDelta(c), Null))
  {
    LookupMissing(ArgumentsFields(c), "id");
    LookupMissing(ArgumentsFields(c), "type");
    CallIsIncrement(env, meta, ArgumentsFields(c));
  }

  lemma OneCallShape(env: Env, meta: Meta, c: ToolCall)
    ensures AllEnveloped(env, meta, OneCall(env, meta, c)) && AllIncrements(OneCall(env, meta, c))
  {
    var opening, args := ChoiceEvent(env, meta, OpeningDelta(c), Null), ChoiceEvent(env, meta, ArgumentsDelta(c), Null);
    ChoiceSays(env, meta, OpeningDelta(c), Null);
    ChoiceSays(env, meta, ArgumentsDelta(c), Null);
    OpeningIsIncrement(env, meta, c);
    ArgumentsAreIncrement(env, meta, c);
    OneShape(env, meta, opening);
    OneShape(env, meta, args);
    ShapesConcat(env, meta, [opening], if c.args == "" then [] else [args]);
  }

  lemma OneShape(env: Env, meta: Meta, a: Out)
    requires Enveloped(env, meta, a) && IsIncrement(a)
    ensures AllEnveloped(env, meta, [a]) && AllIncrements([a])
  {
  }

  lemma {:induction false} CallEventsShape(env: Env, meta: Meta, calls: seq<ToolCall>)
    ensures AllEnveloped(env, meta, CallEvents(env, meta, calls)) && AllIncrements(CallEvents(env, meta, calls))
  {
    if calls != [] {
      OneCallShape(env, meta, calls[0]);
      CallEventsShape(env, meta, calls[1..]);
      ShapesConcat(env, meta, OneCall(env, meta, calls[0]), CallEvents(env, meta, calls[1..]));
    }
  }

  lemma ShapesConcat(env: Env, meta: Meta, a: seq<Out>, b: seq<Out>)
    ensures AllEnveloped(env, meta, a) && AllEnveloped(env, meta, b) ==> AllEnveloped(env, meta, a + b)
    ensures AllIncrements(a) && AllIncrements(b) ==> AllIncrements(a + b)
  {
  }

  /** A chat answer with calls: the assistant's role first, then only increments of calls, and one event
      that finishes with `tool_calls` last; all of this stream. */
  lemma ChatAnswerShape(env: Env, meta: Meta, calls: seq<ToolCall>)
    ensures var outs := ChatEvents(env, meta, calls); var last := |outs| - 1;
      && 2 <= |outs| && AllEnveloped(env, meta, outs) && AllIncrements(outs[1..last])
      && Says(outs[0], Object([Field("role", Str("assistant"))]), Null)
      && Says(outs[last], Object([]), Str("tool_calls"))
  {
    var role := Object([Field("role", Str("assistant"))]);
    var middle := CallEvents(env, meta, calls);
    CallEventsShape(env, meta, calls);
    ChoiceSays(env, meta, role, Null);
    ChoiceSays(env, meta, Object([]), Str("tool_calls"));
    var outs := ChatEvents(env, meta, calls);
    assert outs[1..|outs| - 1] == middle;
  }

  /** An answer without calls is one event without text that stops. */
  lemma StopShape(env: Env, meta: Meta)
    ensures Enveloped(env, meta, StopEvent(env, meta))
    ensures Says(StopEvent(env, meta), Object([Field("content", Null)]), Str("stop"))
  {
    ChoiceSays(env, meta, Object([Field("content", Null)]), Str("stop"));
  }

  // ---- Identifiers and what is noted ----

  function After(st: Sse, calls: Option<seq<ToolCall>>): Sse {
    if calls.Some? then Called(st, calls.value) else Dropped(st)
  }

  lemma AfterDraws(st: Sse, calls: Option<seq<ToolCall>>)
    ensures After(st, calls).drawn == st.drawn +
      if calls.None? then 0 else if st.format == ResponsesApi then |calls.value| + 1 else |calls.value|
  {
  }

  /** Every call and every response takes an identifier of its own: those of a completion are drawn one
      after the other, and the next one begins behind them. */
  lemma EachDrawsItsOwn(env: Env, st: Sse, calls: Option<seq<ToolCall>>)
    requires !PreviewPanics(st.acc) && calls == TextCalls(env, st.drawn, st.acc)
    ensures Completion(env, st).0.drawn == st.drawn +
      if calls.None? then 0 else if st.format == ResponsesApi then |calls.value| + 1 else |calls.value|
  {
    assert Completion(env, st).0 == After(st, calls);
    AfterDraws(st, calls);
  }

  /** The identifier of a response is drawn after those of its calls. */
  lemma ResponseDrawsLast(env: Env, drawn: nat, calls: seq<ToolCall>)
    ensures ResponseId(env, drawn, calls) == "resp_" + env.uuid(drawn + |calls|)
  {
  }

  /** A completion notes whether it found calls, and how it ended. */
  lemma CompletionIsNoted(env: Env, st: Sse)
    requires !PreviewPanics(st.acc)
    ensures var found := TextCalls(env, st.drawn, st.acc).Some?;
      Completion(env, st).0.summary == Some(Summary(found, found, Some(if found then "tool_calls" else "stop")))
  {
  }

  // ---- The responses interface ----

  /** An item of a response, as a client lists it. */
  datatype Item = Item(kind: Option<string>, id: Option<string>, name: Option<string>, args: Option<string>, status: Option<string>)

  function ReadItem(v: Value): Item {
    Item(TextAt(v, "type"), TextAt(v, "call_id"), TextAt(v, "name"), TextAt(v, "arguments"), TextAt(v, "status"))
  }

  function ReadItems(items: seq<Value>): (r: seq<Item>)
    ensures |r| == |items| && forall i :: 0 <= i < |r| ==> r[i] == ReadItem(items[i])
  {
    seq(|items|, i requires 0 <= i < |items| => ReadItem(items[i]))
  }

  lemma CallItemReads(c: ToolCall, args: string)
    ensures ReadItem(Object(CallItem(c, args))) == Item(Some("function_call"), Some(c.id), Some(c.name), Some(args), None)
  {
    var fs := CallItem(c, args);
    LookupAt(fs, 0, "type");
    LookupAt(fs, 1, "call_id");
    LookupAt(fs, 2, "name");
    LookupAt(fs, 3, "arguments");
    LookupMissing(fs, "status");
  }

  lemma FinishedItemReads(c: ToolCall)
    ensures ReadItem(Object(CallItem(c, c.args) + [Field("status", Str("completed"))]))
         == Item(Some("function_call"), Some(c.id), Some(c.name), Some(c.args), Some("completed"))
  {
    var fs := CallItem(c, c.args) + [Field("status", Str("completed"))];
    LookupAt(fs, 0, "type");
    LookupAt(fs, 1, "call_id");
    LookupAt(fs, 2, "name");
    LookupAt(fs, 3, "arguments");
    LookupAt(fs, 4, "status");
  }

  function ItemOf(c: ToolCall): Item {
    Item(Some("function_call"), Some(c.id), Some(c.name), Some(c.args), Some("completed"))
  }

  lemma {:induction false} FinishedItemsRead(calls: seq<ToolCall>)
    ensures |FinishedItems(calls)| == |calls|
    ensures forall i :: 0 <= i < |calls| ==> ReadItem(FinishedItems(calls)[i]) == ItemOf(calls[i])
  {
    if calls != [] {
      FinishedItemReads(calls[0]);
      FinishedItemsRead(calls[1..]);
    }
  }

  /** A client that reads nothing but the last event has all calls, completed, and the response they
      belong to. */
  lemma ResponseListsCalls(id: string, calls: seq<ToolCall>)
    ensures var outs := ResponseEvents(id, calls);
      && outs != [] && outs[|outs| - 1].Event?
      && var chunk := outs[|outs| - 1].chunk;
      && TextAt(chunk, "type") == Some("response.completed") && chunk.Get("response").Some?
      && var response := chunk.Get("response").value;
      && TextAt(response, "id") == Some(id) && TextAt(response, "object") == Some("response")
      && TextAt(response, "status") == Some("completed")
      && response.Get("output").Some? && response.Get("output").value.Array?
      && |response.Get("output").value.items| == |calls|
      && forall i :: 0 <= i < |calls| ==> ReadItem(response.Get("output").value.items[i]) == ItemOf(calls[i])
  {
    var chunk := CompletedEvent(id, calls).chunk;
    LookupAt(chunk.fields, 0, "type");
    LookupAt(chunk.fields, 1, "response");
    var response := chunk.fields[1].value;
    LookupAt(response.fields, 0, "id");
    LookupAt(response.fields, 1, "object");
    LookupAt(response.fields, 2, "status");
    LookupAt(response.fields, 3, "output");
    FinishedItemsRead(calls);
  }

  /** The item is announced at its place in the response, without arguments yet. */
  predicate Announces(o: Out, position: nat, c: ToolCall) {
    && o.Event? && TextAt(o.chunk, "type") == Some("response.output_item.added")
    && o.chunk.Get("output_index") == Some(Number(Decimal(position))) && o.chunk.Get("item").Some?
    && ReadItem(o.chunk.Get("item").value) == Item(Some("function_call"), Some(c.id), Some(c.name), Some(""), None)
  }

  predicate Delivers(o: Out, c: ToolCall) {
    && o.Event? && TextAt(o.chunk, "type") == Some("response.function_call_arguments.done")
    && TextAt(o.chunk, "call_id") == Some(c.id) && TextAt(o.chunk, "name") == Some(c.name)
    && TextAt(o.chunk, "arguments") == Some(c.args)
  }

  lemma AddedAnnounces(c: ToolCall, position: nat)
    ensures Announces(AddedEvent(c, position), position, c)
  {
    var fs := AddedEvent(c, position).chunk.fields;
    LookupAt(fs, 0, "type");
    LookupAt(fs, 1, "output_index");
    LookupAt(fs, 2, "item");
    CallItemReads(c, "");
  }

  lemma ArgumentsDeliver(c: ToolCall)
    ensures Delivers(ArgumentsEvent(c), c)
  {
    var fs := ArgumentsEvent(c).chunk.fields;
    LookupAt(fs, 0, "type");
    LookupAt(fs, 1, "call_id");
    LookupAt(fs, 2, "name");
    LookupAt(fs, 3, "arguments");
  }

  /** One after the other each call is announced at its place and then delivered. */
  predicate AllDelivered(outs: seq<Out>, calls: seq<ToolCall>, position: nat)
    decreases |calls|
  {
    if calls == [] then outs == []
    else
      && 2 <= |outs| && Announces(outs[0], position, calls[0]) && Delivers(outs[1], calls[0])
      && AllDelivered(outs[2..], calls[1..], position + 1)
  }

  lemma DeliverFirst(a: Out, b: Out, rest: seq<Out>, calls: seq<ToolCall>, position: nat)
    requires calls != [] && Announces(a, position, calls[0]) && Delivers(b, calls[0])
    requires AllDelivered(rest, calls[1..], position + 1)
    ensures AllDelivered([a, b] + rest, calls, position)
  {
    assert ([a, b] + rest)[2..] == rest;
  }

  lemma {:induction false} CallsAreDelivered(calls: seq<ToolCall>, position: nat)
    ensures AllDelivered(ResponseCallEvents(calls, position), calls, position)
    decreases |calls|
  {
    if calls != [] {
      AddedAnnounces(calls[0], position);
      ArgumentsDeliver(calls[0]);
      CallsAreDelivered(calls[1..], position + 1);
      DeliverFirst(AddedEvent(calls[0], position), ArgumentsEvent(calls[0]),
                   ResponseCallEvents(calls[1..], position + 1), calls, position);
    }
  }

  /** A response with calls: all of them, announced and delivered in order, and then one last event. */
  lemma ResponseAnswerShape(id: string, calls: seq<ToolCall>)
    ensures var outs := ResponseEvents(id, calls);
      outs != [] && AllDelivered(outs[..|outs| - 1], calls, 0)
  {
    CallsAreDelivered(calls, 0);
    var outs := ResponseEvents(id, calls);
    assert outs[..|outs| - 1] == ResponseCallEvents(calls, 0);
  }
}
