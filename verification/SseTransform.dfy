/** The agent SSE transformer: text that may be a tool call is held back until the stream ends or
    says it stops, and is then either turned into structured tool calls or dropped. */
module SseTransform {
  import opened Options
  import opened Text
  import opened Json
  import opened ObjectScanner

  const DONE_MARK := "[DONE]"
  const DATA := "data:"
  const DATA_PREFIX := DATA + " "
  const DONE_TEXT := DATA_PREFIX + DONE_MARK

  // ---- Lines ----

  function StartsWith(s: string, prefix: string): bool {
    prefix <= s
  }

  predicate Contains(s: string, part: string) {
    part <= s || (s != "" && Contains(s[1..], part))
  }

  /** What `normalize_sse_data_line` makes of a line; a data line is printed as `data: payload`. */
  datatype Normal = NotData | DoneLine | Data(payload: string)

  function Normalize(line: string): Normal {
    var t := Trim(line);
    if t == DONE_MARK then DoneLine
    else if StartsWith(t, DATA) then
      var payload := Trim(t[|DATA|..]);
      if payload == DONE_MARK then DoneLine else Data(payload)
    else if t != "" && t[0] == '{' && Contains(t, "\"choices\"") then Data(t)
    else NotData
  }

  // ---- Chunks ----

  function FirstChoice(chunk: Value): Option<Value> {
    var choices := chunk.Get("choices");
    if choices.Some? && choices.value.Array? && choices.value.items != [] then Some(choices.value.items[0]) else None
  }

  function Delta(choice: Value): Option<Value> {
    choice.Get("delta")
  }

  predicate HasToolCalls(choice: Value) {
    var delta := Delta(choice);
    delta.Some? &&
    var calls := delta.value.Get("tool_calls");
    calls.Some? && calls.value.Array? && calls.value.items != []
  }

  /** The content piece of a choice; a missing piece counts as an empty one. */
  function Piece(choice: Value): string {
    var delta := Delta(choice);
    if delta.None? then "" else
      var content := delta.value.Get("content");
      if content.Some? && content.value.Str? then content.value.s else ""
  }

  function FinishReason(choice: Value): string {
    var reason := choice.Get("finish_reason");
    if reason.Some? && reason.value.Str? then reason.value.s else ""
  }

  predicate Stops(choice: Value) {
    FinishReason(choice) == "stop" || FinishReason(choice) == "length"
  }

  /** `choice["delta"] = {"content": before}` in the chunk. */
  function WithContent(chunk: Value, before: string): Value
    requires FirstChoice(chunk).Some? && FirstChoice(chunk).value.Object?
  {
    var items := chunk.Get("choices").value.items;
    var choice := items[0].Set("delta", Object([Field("content", Str(before))]));
    chunk.Set("choices", Array([choice] + items[1..]))
  }

  /** The chunk that `flush_on_stream_end` makes up. */
  const SYNTHETIC := Object([Field("choices", Array([
    Object([Field("delta", Object([])), Field("finish_reason", Str("stop"))])]))])

  // ---- The world outside ----

  /** Parsing, fresh identifiers, and the clock. */
  datatype Env = Env(parse: string -> Option<Value>, uuid: nat -> string, now: NumberText)

  /** All that is required of the parser: it reads the one chunk that the transformer makes up. */
  ghost predicate ReadsSynthetic(env: Env) {
    forall v: Value {:trigger env.parse(Serialize(v))} :: v == SYNTHETIC ==> env.parse(Serialize(v)) == Some(v)
  }

  // ---- Tool calls in text ----

  datatype ToolCall = ToolCall(index: nat, id: string, name: string, args: string)

  function ArgsText(args: Option<Value>): string {
    if args.None? then "{}" else if args.value.Str? then args.value.s else Serialize(args.value)
  }

  function Entry(env: Env, drawn: nat, index: nat, name: string, item: Value): ToolCall {
    ToolCall(index, "call_" + env.uuid(drawn), name, ArgsText(item.Get("arguments")))
  }

  function ItemCalls(env: Env, drawn: nat, items: seq<Value>, index: nat): seq<ToolCall>
    decreases |items|
  {
    if items == [] then []
    else if NameOf(items[0]).Some? then
      [Entry(env, drawn, index, NameOf(items[0]).value, items[0])]
      + ItemCalls(env, drawn + 1, items[1..], index + 1)
    else ItemCalls(env, drawn, items[1..], index + 1)
  }

  /** `value_to_tool_calls` */
  function ValueCalls(env: Env, drawn: nat, v: Value): Option<seq<ToolCall>> {
    if v.Object? then
      if NameOf(v).Some? then Some([Entry(env, drawn, 0, NameOf(v).value, v)]) else None
    else if v.Array? && ItemCalls(env, drawn, v.items, 0) != [] then Some(ItemCalls(env, drawn, v.items, 0))
    else None
  }

  function ParsedCalls(env: Env, drawn: nat, text: string): Option<seq<ToolCall>> {
    var v := env.parse(text);
    if v.Some? then ValueCalls(env, drawn, v.value) else None
  }

  /** `parse_tool_calls_json` */
  function JsonCalls(env: Env, drawn: nat, raw: string): Option<seq<ToolCall>> {
    var whole := ParsedCalls(env, drawn, raw);
    if whole.Some? then whole else
      var found := Extract(raw);
      if found.Some? then ParsedCalls(env, drawn, found.value) else None
  }

  function StripPrefix(s: string, prefix: string): string
    decreases |s|
  {
    if prefix != "" && StartsWith(s, prefix) then StripPrefix(s[|prefix|..], prefix) else s
  }

  function StripSuffix(s: string, suffix: string): string
    decreases |s|
  {
    if suffix != "" && |suffix| <= |s| && s[|s| - |suffix|..] == suffix
    then StripSuffix(s[..|s| - |suffix|], suffix) else s
  }

  const FENCE := "```"

  function Unfenced(s: string): string {
    Trim(StripSuffix(StripPrefix(StripPrefix(s, "```json"), FENCE), FENCE))
  }

  /** The index of the first brace, or the length. */
  function BraceAt(s: string): (i: nat)
    ensures i <= |s|
    ensures i < |s| ==> s[i] == '{'
    ensures forall j :: 0 <= j < i ==> s[j] != '{'
  {
    if s == "" || s[0] == '{' then 0 else 1 + BraceAt(s[1..])
  }

  /** `text_content_to_tool_calls`, on the trimmed text. */
  function TrimmedCalls(env: Env, drawn: nat, t: string): Option<seq<ToolCall>> {
    if t == "" then None
    else if JsonCalls(env, drawn, t).Some? then JsonCalls(env, drawn, t)
    else if StartsWith(t, FENCE) && JsonCalls(env, drawn, Unfenced(t)).Some? then JsonCalls(env, drawn, Unfenced(t))
    else if BraceAt(t) < |t| then JsonCalls(env, drawn, t[BraceAt(t)..])
    else None
  }

  function TextCalls(env: Env, drawn: nat, content: string): Option<seq<ToolCall>> {
    TrimmedCalls(env, drawn, Trim(content))
  }

  // ---- What the client is sent ----

  datatype Format = ChatCompletions | ResponsesApi

  datatype Meta = Meta(id: Option<string>, model: Option<string>, created: Option<NumberText>)

  datatype Out = Pass(line: string) | Event(chunk: Value) | Done

  function Render(o: Out): string {
    match o
    case Pass(line) => line
    case Event(chunk) => DATA_PREFIX + Serialize(chunk)
    case Done => DONE_TEXT
  }

  const CHUNK_KIND := "chat.completion.chunk"
  const DEFAULT_ID := "chatcmpl-mtrxAI"
  const UNKNOWN_MODEL := "unknown"

  function StreamChunk(env: Env, meta: Meta, choice: Value): Value {
    Object([
      Field("id", Str(if meta.id.Some? then meta.id.value else DEFAULT_ID)),
      Field("object", Str(CHUNK_KIND)),
      Field("created", Number(if meta.created.Some? then meta.created.value else env.now)),
      Field("model", Str(if meta.model.Some? then meta.model.value else UNKNOWN_MODEL)),
      Field("choices", Array([choice]))])
  }

  function ChoiceEvent(env: Env, meta: Meta, delta: Value, finish: Value): (o: Out)
    ensures o.Event? && o.chunk.Object?
  {
    Event(StreamChunk(env, meta,
      Object([Field("index", Number("0")), Field("delta", delta), Field("finish_reason", finish)])))
  }

  function CallDelta(fields: seq<Field>): Value {
    Object([Field("tool_calls", Array([Object(fields)]))])
  }

  function OpeningDelta(c: ToolCall): Value {
    CallDelta([
      Field("index", Number(Decimal(c.index))), Field("id", Str(c.id)), Field("type", Str("function")),
      Field("function", Object([Field("name", Str(c.name)), Field("arguments", Str(""))]))])
  }

  function ArgumentsDelta(c: ToolCall): Value {
    CallDelta([
      Field("index", Number(Decimal(c.index))), Field("function", Object([Field("arguments", Str(c.args))]))])
  }

  /** A call is announced with its name, and its arguments follow if there are any. */
  function OneCall(env: Env, meta: Meta, c: ToolCall): seq<Out> {
    [ChoiceEvent(env, meta, OpeningDelta(c), Null)]
    + (if c.args == "" then [] else [ChoiceEvent(env, meta, ArgumentsDelta(c), Null)])
  }

  function CallEvents(env: Env, meta: Meta, calls: seq<ToolCall>): seq<Out> {
    if calls == [] then [] else OneCall(env, meta, calls[0]) + CallEvents(env, meta, calls[1..])
  }

  function ChatEvents(env: Env, meta: Meta, calls: seq<ToolCall>): seq<Out> {
    [ChoiceEvent(env, meta, Object([Field("role", Str("assistant"))]), Null)]
    + CallEvents(env, meta, calls)
    + [ChoiceEvent(env, meta, Object([]), Str("tool_calls"))]
  }

  /** Sent when the held-back text is no tool call: the text is dropped. */
  function StopEvent(env: Env, meta: Meta): (o: Out)
    ensures o.Event? && o.chunk.Object?
  {
    ChoiceEvent(env, meta, Object([Field("content", Null)]), Str("stop"))
  }

  function CallItem(c: ToolCall, args: string): seq<Field> {
    [Field("type", Str("function_call")), Field("call_id", Str(c.id)), Field("name", Str(c.name)),
     Field("arguments", Str(args))]
  }

  function FinishedItems(calls: seq<ToolCall>): seq<Value> {
    if calls == [] then [] else
      [Object(CallItem(calls[0], calls[0].args) + [Field("status", Str("completed"))])] + FinishedItems(calls[1..])
  }

  function AddedEvent(c: ToolCall, position: nat): (o: Out)
    ensures o.Event? && o.chunk.Object?
  {
    Event(Object([
      Field("type", Str("response.output_item.added")), Field("output_index", Number(Decimal(position))),
      Field("item", Object(CallItem(c, "")))]))
  }

  function ArgumentsEvent(c: ToolCall): (o: Out)
    ensures o.Event? && o.chunk.Object?
  {
    Event(Object([
      Field("type", Str("response.function_call_arguments.done")), Field("call_id", Str(c.id)),
      Field("name", Str(c.name)), Field("arguments", Str(c.args))]))
  }

  function CompletedEvent(id: string, calls: seq<ToolCall>): (o: Out)
    ensures o.Event? && o.chunk.Object?
  {
    Event(Object([
      Field("type", Str("response.completed")),
      Field("response", Object([
        Field("id", Str(id)), Field("object", Str("response")), Field("status", Str("completed")),
        Field("output", Array(FinishedItems(calls)))]))]))
  }

  function ResponseCallEvents(calls: seq<ToolCall>, position: nat): seq<Out> {
    if calls == [] then [] else
      [AddedEvent(calls[0], position), ArgumentsEvent(calls[0])] + ResponseCallEvents(calls[1..], position + 1)
  }

  function ResponseEvents(id: string, calls: seq<ToolCall>): seq<Out> {
    ResponseCallEvents(calls, 0) + [CompletedEvent(id, calls)]
  }

  // ---- The state ----

  datatype Summary = Summary(structured: bool, rewrote: bool, finish: Option<string>)

  /** `drawn` counts the random identifiers taken so far. `aborted` is set when a completion panics:
      the stream ends there, and nothing of it is processed any more. */
  datatype Sse = Sse(
    acc: string, suppress: bool, summary: Option<Summary>, format: Format, meta: Meta, drawn: nat, aborted: bool)

  function Start(format: Format): Sse {
    Sse("", false, None, format, Meta(None, None, None), 0, false)
  }

  function OptStr(v: Option<Value>, otherwise: Option<string>): Option<string> {
    if v.Some? && v.value.Str? then Some(v.value.s) else otherwise
  }

  /** `Value::as_u64` of a number. */
  predicate IsCount(s: string) {
    DigitsValue(s).Some? && DigitsValue(s).value < 0x1_0000_0000_0000_0000
  }

  function Capture(st: Sse, chunk: Value): Sse {
    if st.meta.id.Some? then st else
      var created := chunk.Get("created");
      st.(meta := Meta(
        OptStr(chunk.Get("id"), None), OptStr(chunk.Get("model"), st.meta.model),
        if created.Some? && created.value.Number? && IsCount(created.value.digits)
        then Some(created.value.digits) else st.meta.created))
  }

  /** The identifier of a response object, drawn after those of its calls. */
  function ResponseId(env: Env, drawn: nat, calls: seq<ToolCall>): string {
    "resp_" + env.uuid(drawn + |calls|)
  }

  /** The lines for the tool calls found. */
  function CallOuts(env: Env, format: Format, meta: Meta, id: string, calls: seq<ToolCall>): seq<Out> {
    if format == ResponsesApi then ResponseEvents(id, calls) else ChatEvents(env, meta, calls)
  }

  const WROTE_CALLS := Summary(true, true, Some("tool_calls"))
  const JUST_STOPPED := Summary(false, false, Some("stop"))

  /** Every tool call and a response object have drawn an identifier. */
  function Called(st: Sse, calls: seq<ToolCall>): Sse {
    st.(acc := "", suppress := false, summary := Some(WROTE_CALLS),
        drawn := st.drawn + |calls| + if st.format == ResponsesApi then 1 else 0)
  }

  function Dropped(st: Sse): Sse {
    st.(acc := "", suppress := false, summary := Some(JUST_STOPPED))
  }

  /** What a completion sends for the calls it found, or for none. */
  function AnswerOuts(env: Env, format: Format, meta: Meta, drawn: nat, calls: Option<seq<ToolCall>>): seq<Out> {
    if calls.Some? then CallOuts(env, format, meta, ResponseId(env, drawn, calls.value), calls.value)
    else [StopEvent(env, meta)]
  }

  /** What a completion sends. */
  function CompletionOuts(env: Env, st: Sse): seq<Out> {
    AnswerOuts(env, st.format, st.meta, st.drawn, TextCalls(env, st.drawn, st.acc))
  }

  function Completed(env: Env, st: Sse): Sse {
    var calls := TextCalls(env, st.drawn, st.acc);
    if calls.Some? then Called(st, calls.value) else Dropped(st)
  }

  const PREVIEW_BYTES: nat := 200

  /** The preview slices the held-back text at a fixed byte, and slicing inside a character panics. */
  predicate PreviewPanics(acc: string) {
    PREVIEW_BYTES < ByteLen(acc) && !IsCharBoundary(acc, PREVIEW_BYTES)
  }

  function Aborted(st: Sse): Sse {
    st.(suppress := false, aborted := true)
  }

  /** `complete_suppressed` */
  function Completion(env: Env, st: Sse): (Sse, seq<Out>) {
    if PreviewPanics(st.acc) then (Aborted(st), []) else (Completed(env, st), CompletionOuts(env, st))
  }

  function FlushEnd(env: Env, st: Sse): (Sse, seq<Out>) {
    if st.suppress && st.acc != "" then Completion(env, st) else (st, [])
  }

  /** Hold text back, and everything after it. */
  function Hold(st: Sse, text: string): Sse {
    st.(acc := st.acc + text, suppress := true)
  }

  predicate OpensWithBrace(piece: string) {
    TrimStart(piece) != "" && TrimStart(piece)[0] == '{'
  }

  /** What a chunk with a non-empty content piece does; no outcome means it is passed on like a
      chunk without content. */
  function TakePiece(st: Sse, chunk: Value, piece: string): Option<(Sse, seq<Out>)>
    requires FirstChoice(chunk).Some? && FirstChoice(chunk).value.Object?
  {
    if st.suppress || OpensWithBrace(piece) then Some((Hold(st, piece), []))
    else
      var i := BraceAt(piece);
      if i < |piece| then Some((Hold(st, piece[i..]), [Event(WithContent(chunk, piece[..i]))])) else None
  }

  function TakeChunk(env: Env, st: Sse, line: string, chunk: Value): (Sse, seq<Out>) {
    if FirstChoice(chunk).None? then (st, [Pass(line)]) else
      var choice := FirstChoice(chunk).value;
      if HasToolCalls(choice) then
        (st.(summary := Some(Summary(true, false, OptStr(choice.Get("finish_reason"), None)))), [Event(chunk)])
      else
        var taken := if Piece(choice) != "" then TakePiece(st, chunk, Piece(choice)) else None;
        if taken.Some? then taken.value
        else if Stops(choice) && st.suppress then Completion(env, st)
        else (st, [Pass(line)])
  }

  function ProcessDone(env: Env, st: Sse): (Sse, seq<Out>) {
    var (st', outs) := FlushEnd(env, st);
    (st', if st'.aborted then [] else outs + [Done])
  }

  function ProcessData(env: Env, st: Sse, payload: string): (Sse, seq<Out>) {
    var chunk := env.parse(payload);
    if chunk.None? then (st, [Pass(DATA_PREFIX + payload)])
    else TakeChunk(env, Capture(st, chunk.value), DATA_PREFIX + payload, chunk.value)
  }

  /** `process_line` */
  function Process(env: Env, st: Sse, line: string): (Sse, seq<Out>) {
    if st.aborted then (st, [])
    else match Normalize(line)
      case NotData => (st, [Pass(line)])
      case DoneLine => ProcessDone(env, st)
      case Data(payload) => ProcessData(env, st, payload)
  }

  function ProcessAll(env: Env, st: Sse, lines: seq<string>): (Sse, seq<Out>)
    decreases |lines|
  {
    if lines == [] then (st, []) else
      var (st1, out1) := Process(env, st, lines[0]);
      var (st2, out2) := ProcessAll(env, st1, lines[1..]);
      (st2, out1 + out2)
  }

  /** `finalize_stream` */
  function Finalize(env: Env, st: Sse, doneSent: bool): (Sse, seq<Out>) {
    var (st', outs) := FlushEnd(env, st);
    (st', if doneSent || st'.aborted then outs else outs + [Done])
  }
}
